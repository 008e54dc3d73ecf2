/** When a command is covered, told by its words and the names of the paths in it. */
module Covering {

  import opened Common
  import opened Paths
  import opened ShellWords

  // ---------- where a path is placed ----------

  ghost predicate IsRepo(repos: seq<Repo>, name: string) {
    exists i :: 0 <= i < |repos| && repos[i].name == name
  }

  // The first of the names that is a repo's.
  ghost predicate FirstRepo(repos: seq<Repo>, names: seq<string>, n: nat) {
    n < |names| && IsRepo(repos, names[n]) && forall m :: 0 <= m < n ==> !IsRepo(repos, names[m])
  }

  lemma {:induction false} PlacedAt(repos: seq<Repo>, file: string, names: seq<string>, n: nat)
    requires FirstRepo(repos, names, n)
    ensures PlaceFrom(repos, file, names) == (names[n], Join(names[n + 1..], '/'))
  {
    if n > 0 {
      assert !IsRepo(repos, names[0]);
      PlacedAt(repos, file, names[1..], n - 1);
      assert names[1..][n..] == names[n + 1..];
    } else {
      assert IsRepo(repos, names[0]);
    }
  }

  lemma {:induction false} PlacedBare(repos: seq<Repo>, file: string, names: seq<string>)
    requires forall n :: 0 <= n < |names| ==> !IsRepo(repos, names[n])
    ensures PlaceFrom(repos, file, names) == (if repos == [] then "" else repos[0].name, file)
  {
    if names != [] {
      assert !IsRepo(repos, names[0]);
      PlacedBare(repos, file, names[1..]);
    }
  }

  // A repo called so covers what is beneath these names.
  ghost predicate RepoCovers(repos: seq<Repo>, repo: string, names: seq<string>) {
    exists i, k :: 0 <= i < |repos| && 0 <= k < |repos[i].prefixes| && repos[i].name == repo && BeginsAs(names, repos[i].prefixes[k])
  }

  // The names begin with those of the prefix, whatever slashes are around that.
  ghost predicate BeginsAs(names: seq<string>, prefix: string) {
    exists t :: Bare(prefix, t) && Split(t, '/') <= names
  }

  lemma BeginsMeans(file: string, prefix: string)
    ensures Beneath(file, prefix) <==> BeginsAs(Split(file, '/'), prefix)
  {
    forall t ensures NamesBegin(file, t) <==> Split(t, '/') <= Split(file, '/') {
      var a, b := Split(t, '/'), Split(file, '/');
      if NamesBegin(file, t) {
        assert b[..|a|] == a;
      }
    }
  }

  lemma CoversMeans(repos: seq<Repo>, repo: string, file: string)
    ensures CoversIn(repos, repo, file) <==> RepoCovers(repos, repo, Split(file, '/'))
  {
    forall i, k | 0 <= i < |repos| && 0 <= k < |repos[i].prefixes|
      ensures Beneath(file, repos[i].prefixes[k]) <==> BeginsAs(Split(file, '/'), repos[i].prefixes[k])
    {
      BeginsMeans(file, repos[i].prefixes[k]);
    }
  }

  ghost predicate AreNames(names: seq<string>) {
    forall i :: 0 <= i < |names| ==> '/' !in names[i]
  }

  // What is left of the names, which are never none.
  function Rests(names: seq<string>): seq<string> {
    if names == [] then [""] else names
  }

  lemma SplitRests(names: seq<string>)
    requires AreNames(names)
    ensures Split(Join(names, '/'), '/') == Rests(names)
  {
    if names != [] {
      PartsSplit(names, '/');
    } else {
      SplitMeans("", '/', [""]);
    }
  }

  // Some repo called so, or any where the name is empty, covers what is beneath these names.
  ghost predicate NamedCovers(repos: seq<Repo>, name: string, names: seq<string>) {
    if name != "" then RepoCovers(repos, name, names)
    else exists i :: 0 <= i < |repos| && RepoCovers(repos, repos[i].name, names)
  }

  lemma NamedMeans(repos: seq<Repo>, name: string, path: string)
    ensures NamedCovers(repos, name, Split(path, '/')) <==>
            if name != "" then CoversIn(repos, name, path) else exists i :: 0 <= i < |repos| && CoversIn(repos, repos[i].name, path)
  {
    CoversMeans(repos, name, path);
    forall i | 0 <= i < |repos| ensures CoversIn(repos, repos[i].name, path) <==> RepoCovers(repos, repos[i].name, Split(path, '/')) {
      CoversMeans(repos, repos[i].name, path);
    }
  }

  // A file argument that is one: the path it is, from here or not.
  predicate IsPath(file: string, path: string) {
    file != "" && file != "-" && (file == "./" + path || (file == path && !("./" <= file)))
  }

  lemma PathMeans(file: string, path: string)
    requires IsPath(file, path)
    ensures TrimDot(file) == path
  {
  }

  /** A path that names a repo is covered exactly when the names behind that begin
      with those of a prefix of the repo. */
  lemma NamedIsCovered(repos: seq<Repo>, file: string, path: string, names: seq<string>, n: nat)
    requires IsPath(file, path) && Split(path, '/') == names && FirstRepo(repos, names, n)
    ensures Covered(repos, file) <==> NamedCovers(repos, names[n], Rests(names[n + 1..]))
  {
    PathMeans(file, path);
    SplitMeans(path, '/', names);
    PlacedAt(repos, path, names, n);
    SplitRests(names[n + 1..]);
    NamedMeans(repos, names[n], Join(names[n + 1..], '/'));
  }

  /** One that names none is covered exactly when its names begin with those of a
      prefix of the first repo. */
  lemma BareIsCovered(repos: seq<Repo>, file: string, path: string)
    requires IsPath(file, path)
    requires forall n :: 0 <= n < |Split(path, '/')| ==> !IsRepo(repos, Split(path, '/')[n])
    ensures Covered(repos, file) <==> repos != [] && NamedCovers(repos, repos[0].name, Split(path, '/'))
  {
    PathMeans(file, path);
    PlacedBare(repos, path, Split(path, '/'));
    NamedMeans(repos, if repos == [] then "" else repos[0].name, path);
  }

  /** A hit's manifest, split at its slashes, begins with the names of a prefix of the
      repo it names. */
  lemma HitIsCovered(repos: seq<Repo>, tokens: seq<string>, b: nat, i: nat, repo: string, manifest: string)
    requires b <= i <= |tokens| && FirstHit(repos, tokens, b, i, repo, manifest)
    ensures RepoCovers(repos, repo, Split(manifest, '/'))
  {
    CoversMeans(repos, repo, manifest);
  }

  // ---------- what the arguments say ----------

  const ServerSide := "--server-side"
  const Force := "--force-conflicts"

  /** An argument: files named, in the flag's own word or the next; a switch, with a
      value or not; anything else. */
  datatype Arg = Files(flag: string, files: seq<string>, apart: bool) | Switch(switch: string, value: Option<string>) | Other(word: string)

  ghost predicate IsArg(a: Arg) {
    match a
    case Files(flag, files, _) => flag in FileFlags && files != [] && forall i :: 0 <= i < |files| ==> ',' !in files[i]
    case Switch(switch, _) => switch == ServerSide || switch == Force
    case Other(word) => forall flag :: flag in FileFlags + {ServerSide, Force} ==> word != flag && !(flag + "=" <= word)
  }

  function Words(a: Arg): seq<string> {
    match a
    case Files(flag, files, apart) => if apart then [flag, Join(files, ',')] else [flag + "=" + Join(files, ',')]
    case Switch(switch, value) => [if value.None? then switch else switch + "=" + value.value]
    case Other(word) => [word]
  }

  function AllWords(args: seq<Arg>): seq<string> {
    if args == [] then [] else Words(args[0]) + AllWords(args[1..])
  }

  // The switch is on: alone or with "true".
  predicate TurnsOn(a: Arg, switch: string) {
    a == Switch(switch, None) || a == Switch(switch, Some("true"))
  }

  function FilesOf(args: seq<Arg>): seq<string> {
    if args == [] then [] else (if args[0].Files? then args[0].files else []) + FilesOf(args[1..])
  }

  lemma NoEqual(flag: string)
    requires flag in FileFlags || flag == ServerSide || flag == Force
    ensures '=' !in flag
  {
  }

  // What the first argument says, whatever follows.
  lemma ArgSays(a: Arg, rest: seq<string>)
    requires IsArg(a)
    ensures var more := FlagsOf(rest);
            FlagsOf(Words(a) + rest) ==
            Flags(TurnsOn(a, ServerSide) || more.server, TurnsOn(a, Force) || more.force, (if a.Files? then a.files else []) + more.files)
  {
    match a
    case Files(flag, files, apart) => FilesSay(flag, files, apart, rest);
    case Switch(switch, value) =>
      NoEqual(switch);
      SwitchNames(switch);
      SwitchSays(switch, value, rest);
    case Other(word) => OtherSays(word, rest);
  }

  lemma FilesSay(flag: string, files: seq<string>, apart: bool, rest: seq<string>)
    requires IsArg(Files(flag, files, apart))
    ensures FlagsOf(Words(Files(flag, files, apart)) + rest) == FlagsOf(rest).(files := files + FlagsOf(rest).files)
  {
    var args := Words(Files(flag, files, apart)) + rest;
    PartsSplit(files, ',');
    NoEqual(flag);
    CutMeans(flag, Join(files, ','), '=');
    NoSwitch(flag);
    if apart {
      assert args[0] == flag && args[1] == Join(files, ',') && args[2..] == rest;
    } else {
      assert args[1..] == rest;
    }
  }

  // A word that names no file by itself.
  lemma WordSays(word: string, rest: seq<string>, flag: string, value: string, equals: bool)
    requires Cut(word, '=') == (flag, value, equals) && flag !in FileFlags
    ensures var on, more := !equals || value == "true", FlagsOf(rest);
            FlagsOf([word] + rest) == Flags((flag == ServerSide && on) || more.server, (flag == Force && on) || more.force, more.files)
  {
    var args := [word] + rest;
    assert args[1..] == rest;
    assert [] + FlagsOf(rest).files == FlagsOf(rest).files;
  }

  lemma NoSwitch(flag: string)
    requires flag in FileFlags
    ensures flag != ServerSide && flag != Force
  {
  }

  lemma SwitchNames(switch: string)
    requires switch == ServerSide || switch == Force
    ensures switch !in FileFlags && ServerSide != Force
  {
  }

  lemma SwitchSays(switch: string, value: Option<string>, rest: seq<string>)
    requires '=' !in switch && switch !in FileFlags
    ensures var on, more := value.None? || value.value == "true", FlagsOf(rest);
            FlagsOf(Words(Switch(switch, value)) + rest) ==
            Flags((switch == ServerSide && on) || more.server, (switch == Force && on) || more.force, more.files)
  {
    var v := if value.None? then "" else value.value;
    CutMeans(switch, v, '=');
    WordSays(if value.None? then switch else switch + "=" + v, rest, switch, v, value.Some?);
  }

  lemma NotFlag(word: string, flag: string, value: string, equals: bool)
    requires IsArg(Other(word)) && word == if equals then flag + "=" + value else flag
    ensures flag !in FileFlags && flag != ServerSide && flag != Force
  {
    assert equals ==> flag + "=" <= word;
    assert flag !in FileFlags + {ServerSide, Force};
  }

  lemma OtherSays(word: string, rest: seq<string>)
    requires IsArg(Other(word))
    ensures FlagsOf([word] + rest) == FlagsOf(rest)
  {
    var (flag, value, equals) := Cut(word, '=');
    CutFinds(word, '=');
    NotFlag(word, flag, value, equals);
    WordSays(word, rest, flag, value, equals);
  }

  ghost predicate On(args: seq<Arg>, switch: string) {
    exists i :: 0 <= i < |args| && TurnsOn(args[i], switch)
  }

  lemma OnFirst(args: seq<Arg>, switch: string)
    requires args != []
    ensures On(args, switch) <==> TurnsOn(args[0], switch) || On(args[1..], switch)
  {
    if i :| 0 <= i < |args| && TurnsOn(args[i], switch) {
      assert i > 0 ==> args[1..][i - 1] == args[i];
    }
  }

  lemma FirstWords(args: seq<Arg>, rest: seq<string>)
    requires args != []
    ensures AllWords(args) + rest == Words(args[0]) + (AllWords(args[1..]) + rest)
  {
  }

  // A last flag that names no file names the empty one.
  lemma LastSays(rest: seq<string>)
    requires rest == [] || (|rest| == 1 && rest[0] in FileFlags)
    ensures FlagsOf(rest) == Flags(false, false, if rest == [] then [] else [""])
  {
    if rest != [] {
      LoneFlag(rest[0]);
      LoneSays(rest[0], []);
      assert rest == [rest[0]];
    }
  }

  lemma LoneFlag(flag: string)
    requires flag in FileFlags
    ensures Cut(flag, '=') == (flag, [], false) && flag != ServerSide && flag != Force
  {
    NoEqual(flag);
    NoSwitch(flag);
    CutMeans(flag, [], '=');
  }

  lemma LoneSays(flag: string, value: string)
    requires Cut(flag, '=') == (flag, value, false) && value == [] && flag in FileFlags && flag != ServerSide && flag != Force
    ensures FlagsOf([flag]) == Flags(false, false, [""])
  {
    SplitNothing();
    assert [flag][1..] == [];
    assert [""] + [] == [""];
  }

  lemma SplitNothing()
    ensures Split([], ',') == [""]
  {
    SplitMeans([], ',', [""]);
  }

  /** Server-side and forced exactly when switched on somewhere, and the files are all
      those named, in their order. */
  lemma {:induction false} ArgumentsMean(args: seq<Arg>, rest: seq<string>)
    requires forall i :: 0 <= i < |args| ==> IsArg(args[i])
    requires rest == [] || (|rest| == 1 && rest[0] in FileFlags)
    ensures FlagsOf(AllWords(args) + rest) ==
            Flags(On(args, ServerSide), On(args, Force), FilesOf(args) + if rest == [] then [] else [""])
  {
    if args == [] {
      assert AllWords(args) + rest == rest;
      LastSays(rest);
    } else {
      ArgumentsMean(args[1..], rest);
      ArgSays(args[0], AllWords(args[1..]) + rest);
      FirstWords(args, rest);
      OnFirst(args, ServerSide);
      OnFirst(args, Force);
    }
  }

  // ---------- what is applied ----------

  const Applying: set<string> := {"apply", "create", "replace"}

  // A flag before the subcommand: a word of its own, or with its value behind it.
  datatype Flag = Lone(word: string) | Valued(flag: string, value: string)

  predicate IsFlag(f: Flag) {
    if f.Lone? then "-" <= f.word && f.word !in ValueFlags else f.flag in ValueFlags
  }

  function FlagWords(flags: seq<Flag>): seq<string> {
    if flags == [] then [] else FlagWord(flags[0]) + FlagWords(flags[1..])
  }

  function FlagWord(f: Flag): seq<string> {
    if f.Lone? then [f.word] else [f.flag, f.value]
  }

  lemma ValueFlagsAre(flag: string)
    requires flag in ValueFlags
    ensures "-" <= flag && '=' !in flag
  {
  }

  lemma FlagSkipped(f: Flag, rest: seq<string>)
    requires IsFlag(f)
    ensures Subcommand(FlagWord(f) + rest) == Subcommand(rest)
  {
    var args := FlagWord(f) + rest;
    if f.Lone? {
      assert args[0] == f.word && args[1..] == rest;
    } else {
      ValueFlagsAre(f.flag);
      CutMeans(f.flag, [], '=');
      assert args[0] == f.flag && args[2..] == rest;
    }
  }

  lemma {:induction false} FlagsSkipped(flags: seq<Flag>, rest: seq<string>)
    requires forall i :: 0 <= i < |flags| ==> IsFlag(flags[i])
    ensures Subcommand(FlagWords(flags) + rest) == Subcommand(rest)
  {
    if flags == [] {
      assert FlagWords(flags) + rest == rest;
    } else {
      FlagsSkipped(flags[1..], rest);
      FlagSkipped(flags[0], FlagWords(flags[1..]) + rest);
      assert FlagWords(flags) + rest == FlagWord(flags[0]) + (FlagWords(flags[1..]) + rest);
    }
  }

  /** The subcommand is the first word that is no flag and no flag's value; there is
      none where nothing follows, or a flag without its value. */
  lemma SubcommandMeans(flags: seq<Flag>, rest: seq<string>)
    requires forall i :: 0 <= i < |flags| ==> IsFlag(flags[i])
    requires rest == [] || !("-" <= rest[0]) || (|rest| == 1 && rest[0] in ValueFlags)
    ensures Subcommand(FlagWords(flags) + rest) == if rest == [] || "-" <= rest[0] then "" else rest[0]
  {
    FlagsSkipped(flags, rest);
    NoFlagSkipped(rest);
  }

  lemma NoFlagSkipped(rest: seq<string>)
    requires rest == [] || !("-" <= rest[0]) || (|rest| == 1 && rest[0] in ValueFlags)
    ensures Subcommand(rest) == if rest == [] || "-" <= rest[0] then "" else rest[0]
  {
    if rest != [] && "-" <= rest[0] {
      ValueFlagsAre(rest[0]);
      CutMeans(rest[0], [], '=');
    }
  }

  lemma SwitchesMean(args: seq<Arg>)
    requires forall i :: 0 <= i < |args| ==> IsArg(args[i])
    ensures FlagsOf(AllWords(args)).server == On(args, ServerSide) && FlagsOf(AllWords(args)).force == On(args, Force)
  {
    ArgumentsMean(args, []);
    assert AllWords(args) + [] == AllWords(args);
  }

  /** A word applies when it is kubectl's name, its subcommand applies, and it is not
      both server-side and forced. */
  lemma AppliesMeans(segment: seq<string>, j: nat, server: bool, force: bool)
    requires j < |segment| && FlagsOf(segment[j + 1..]).server == server && FlagsOf(segment[j + 1..]).force == force
    ensures Applies(segment, j) <==>
            Base(segment[j]) == "kubectl" && Subcommand(segment[j + 1..]) in Applying && !(server && force)
  {
  }

  // ---------- a command ----------

  // Some segment of the tokens is covered.
  ghost predicate AnyCovered(repos: seq<Repo>, tokens: seq<string>) {
    exists b, i :: 0 <= b <= i <= |tokens| && CoveredFrom(repos, tokens, b, i)
  }

  // No word of the tokens is an operator.
  predicate OneSegment(tokens: seq<string>) {
    forall i :: 0 <= i < |tokens| ==> !IsOperator(tokens[i])
  }

  lemma OneSegmentCovered(repos: seq<Repo>, tokens: seq<string>)
    requires OneSegment(tokens)
    ensures AnyCovered(repos, tokens) <==> CoveredSegment(repos, tokens, [], false)
  {
    assert tokens[0..|tokens|] == tokens;
    if CoveredSegment(repos, tokens, [], false) {
      assert CoveredFrom(repos, tokens, 0, |tokens|);
    }
  }

  lemma IsSubcommand(sub: string)
    requires sub in Applying
    ensures sub != [] && sub[0] != '-' && '/' !in sub && sub != "kubectl"
  {
  }

  lemma ArgDashes(flag: string)
    requires flag in FileFlags + {ServerSide, Force}
    ensures flag != [] && flag[0] == '-'
  {
  }

  lemma SubcommandIs(sub: string)
    requires sub in Applying
    ensures !("-" <= sub) && Base(sub) == sub && IsArg(Other(sub)) && sub != "kubectl"
  {
    IsSubcommand(sub);
    forall flag | flag in FileFlags + {ServerSide, Force} ensures sub != flag && !(flag + "=" <= sub) {
      ArgDashes(flag);
    }
    BaseMeans([], sub, []);
    assert sub + [] == sub;
  }

  /** One command that applies one file is covered exactly when that file is. */
  lemma ApplyIsCovered(repos: seq<Repo>, kubectl: string, sub: string, file: string)
    requires Base(kubectl) == "kubectl" && sub in Applying && ',' !in file
    requires OneSegment([kubectl, sub, "-f", file])
    ensures AnyCovered(repos, [kubectl, sub, "-f", file]) <==> Covered(repos, file)
  {
    var segment := [kubectl, sub, "-f", file];
    OneSegmentCovered(repos, segment);
    ApplyCovered(repos, kubectl, sub, file, [], false);
  }

  lemma ApplyCovered(repos: seq<Repo>, kubectl: string, sub: string, file: string, previous: seq<string>, pipe: bool)
    requires Base(kubectl) == "kubectl" && sub in Applying && ',' !in file
    ensures CoveredSegment(repos, [kubectl, sub, "-f", file], previous, pipe) <==> Covered(repos, Behind(file, previous, pipe))
  {
    var segment := [kubectl, sub, "-f", file];
    FirstApplies(kubectl, sub, file);
    NoOtherApplies(kubectl, sub, file);
    assert forall f :: f in [file] <==> f == file;
    assert CoveredAt(repos, segment, previous, pipe, 0) <==> Covered(repos, Behind(file, previous, pipe));
  }

  /** What a build is piped to is covered exactly when what was built is. */
  lemma PipeIsCovered(repos: seq<Repo>, kustomize: string, file: string, kubectl: string, sub: string)
    requires Base(kubectl) == "kubectl" && sub in Applying && Base(kustomize) == "kustomize"
    requires OneSegment([kustomize, "build", file]) && OneSegment([kubectl, sub, "-f", "-"])
    ensures AnyCovered(repos, [kustomize, "build", file] + [[NUL, '|']] + [kubectl, sub, "-f", "-"]) <==> Covered(repos, file)
  {
    var first, second := [kustomize, "build", file], [kubectl, sub, "-f", "-"];
    TwoSegmentsCovered(repos, first, second);
    BuildNotCovered(repos, kustomize, file);
    ApplyCovered(repos, kubectl, sub, "-", first, true);
    assert Behind("-", first, true) == file;
  }

  lemma BuildNotCovered(repos: seq<Repo>, kustomize: string, file: string)
    requires Base(kustomize) == "kustomize"
    ensures !CoveredSegment(repos, [kustomize, "build", file], [], false)
  {
    BaseMeans([], "build", []);
    assert "build" + [] == "build";
    assert [kustomize, "build", file][3..] == [];
  }

  // A pipe between two segments.
  lemma TwoSegmentsCovered(repos: seq<Repo>, first: seq<string>, second: seq<string>)
    requires OneSegment(first) && OneSegment(second)
    ensures AnyCovered(repos, first + [[NUL, '|']] + second) <==>
            CoveredSegment(repos, first, [], false) || CoveredSegment(repos, second, first, true)
  {
    var tokens, n := first + [[NUL, '|']] + second, |first|;
    assert tokens[0..n] == first && tokens[n + 1..|tokens|] == second && IsOperator(tokens[n]);
    StartIs(tokens, 0, n);
    assert Previous(tokens, n + 1) == first;
    forall b, i | 0 <= b <= i <= |tokens| && Segment(tokens, b, i) ensures (b == 0 && i == n) || (b == n + 1 && i == |tokens|) {
      OnlyTwo(first, second, b, i);
    }
    assert Segment(tokens, 0, n) && Segment(tokens, n + 1, |tokens|);
    assert CoveredFrom(repos, tokens, 0, n) <==> CoveredSegment(repos, first, [], false);
    assert CoveredFrom(repos, tokens, n + 1, |tokens|) <==> CoveredSegment(repos, second, first, true);
  }

  lemma OnlyTwo(first: seq<string>, second: seq<string>, b: nat, i: nat)
    requires OneSegment(first) && OneSegment(second)
    requires var tokens := first + [[NUL, '|']] + second; b <= i <= |tokens| && Segment(tokens, b, i)
    ensures var n := |first|; (b == 0 && i == n) || (b == n + 1 && i == n + 1 + |second|)
  {
    var tokens, n := first + [[NUL, '|']] + second, |first|;
    assert IsOperator(tokens[n]);
    forall k | 0 <= k < |tokens| && k != n ensures !IsOperator(tokens[k]) {
      assert tokens[k] == if k < n then first[k] else second[k - n - 1];
    }
    assert b > 0 ==> b == n + 1;
    assert i < |tokens| ==> i == n;
  }

  lemma FirstApplies(kubectl: string, sub: string, file: string)
    requires Base(kubectl) == "kubectl" && sub in Applying && ',' !in file
    ensures var segment := [kubectl, sub, "-f", file];
            Applies(segment, 0) && FlagsOf(segment[1..]) == Flags(false, false, [file])
  {
    SubcommandIs(sub);
    FlagsOfOne(sub, file);
    SubcommandMeans([], [sub, "-f", file]);
    assert [kubectl, sub, "-f", file][1..] == [sub, "-f", file] == FlagWords([]) + [sub, "-f", file];
  }

  lemma FlagsOfOne(sub: string, file: string)
    requires IsArg(Other(sub)) && ',' !in file
    ensures FlagsOf([sub, "-f", file]) == Flags(false, false, [file])
  {
    OtherSays(sub, ["-f", file]);
    FlagsOfFile("-f", file);
    assert [sub] + ["-f", file] == [sub, "-f", file];
  }

  lemma FlagsOfFile(flag: string, file: string)
    requires flag in FileFlags && ',' !in file
    ensures FlagsOf([flag, file]) == Flags(false, false, [file])
  {
    FilesSay(flag, [file], true, []);
    assert Words(Files(flag, [file], true)) + [] == [flag, file];
  }

  lemma NoOtherApplies(kubectl: string, sub: string, file: string)
    requires sub in Applying
    ensures forall j :: 1 <= j < 4 ==> !Applies([kubectl, sub, "-f", file], j)
  {
    SubcommandIs(sub);
    BaseMeans([], "-f", []);
    assert "-f" + [] == "-f";
    assert [kubectl, sub, "-f", file][4..] == [];
  }
}
