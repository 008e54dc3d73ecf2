/** Aliases for the directories in a text: each known directory, where it is a whole
    path, is replaced by its alias, again until none is left. */
module PathRewrite {

  import opened Common

  // A path may start after this character, and one may end before that.
  predicate Opens(c: char) {
    Space(c) || c in "\"'`([{<>=:,;|"
  }

  predicate Closes(c: char) {
    c == '/' || Space(c) || c in "\"'`)]}<>:,;|"
  }

  // \s of the regular expression.
  predicate Space(c: char) {
    c == '\t' || c == '\n' || c == 12 as char || c == '\r' || c == ' '
  }

  predicate DirHere(s: string, i: nat, d: string) {
    i + |d| <= |s| && s[i..i + |d|] == d && (i + |d| == |s| || Closes(s[i + |d|]))
  }

  // d stands at i of s as a whole path.
  predicate WholeAt(s: string, i: nat, d: string) {
    DirHere(s, i, d) && (i == 0 || Opens(s[i - 1]))
  }

  // The same, opened by StandsMeans only: what follows needs no more of it.
  ghost predicate Stands(s: string, i: nat, d: string) {
    forall u: int {:trigger AsksStands(s, i, d, u)} :: AsksStands(s, i, d, u) ==> WholeAt(s, i, d)
  }

  ghost predicate AsksStands(s: string, i: nat, d: string, u: int) { true }

  lemma StandsMeans(s: string, i: nat, d: string)
    requires Stands(s, i, d)
    ensures WholeAt(s, i, d)
  {
    assert AsksStands(s, i, d, 0);
  }

  predicate Settled(s: string, dirs: seq<string>) {
    forall i, k :: 0 <= i <= |s| && 0 <= k < |dirs| ==> !WholeAt(s, i, dirs[k])
  }

  function Slashes(s: string): nat {
    if s == [] then 0 else Slashes(s[1..]) + if s[0] == '/' then 1 else 0
  }

  lemma {:induction false} SlashesOf(s: string, t: string)
    ensures Slashes(s + t) == Slashes(s) + Slashes(t)
  {
    if s == [] {
      assert s + t == t;
    } else {
      assert (s + t)[1..] == s[1..] + t;
      SlashesOf(s[1..], t);
    }
  }

  lemma {:induction false} SlashesBound(s: string)
    ensures Slashes(s) <= |s|
    ensures '/' in s <==> Slashes(s) > 0
  {
    if s != [] {
      SlashesBound(s[1..]);
    }
  }

  // The match of the regular expression that has the directory at i: the first of
  // the alternatives that ends a path there.
  function DirAt(s: string, i: nat, dirs: seq<string>): (d: Option<string>)
    ensures d.Some? ==> d.value in dirs && DirHere(s, i, d.value)
    ensures d.None? ==> forall k :: 0 <= k < |dirs| ==> !DirHere(s, i, dirs[k])
  {
    if dirs == [] then None
    else if DirHere(s, i, dirs[0]) then Some(dirs[0])
    else
      var d := DirAt(s, i, dirs[1..]);
      assert d.None? ==> forall k :: 1 <= k < |dirs| ==> dirs[1..][k - 1] == dirs[k];
      d
  }

  // Where a match is: the directory's place, and the match's end.
  datatype Found = Found(at: nat, dir: string, end: nat)

  // The match that starts at i: with i == 0 it may be the directory itself, elsewhere
  // it begins with a character a path may start after.
  function MatchAt(s: string, i: nat, dirs: seq<string>): Option<Found>
    requires i <= |s|
  {
    if i == 0 && DirAt(s, 0, dirs).Some? then FoundAt(s, 0, DirAt(s, 0, dirs).value)
    else if i < |s| && Opens(s[i]) && DirAt(s, i + 1, dirs).Some? then FoundAt(s, i + 1, DirAt(s, i + 1, dirs).value)
    else None
  }

  function FoundAt(s: string, at: nat, d: string): Option<Found>
    requires DirHere(s, at, d)
  {
    Some(Found(at, d, if at + |d| == |s| then |s| else at + |d| + 1))
  }

  // The leftmost match from i on.
  function Find(s: string, i: nat, dirs: seq<string>): Option<Found>
    requires i <= |s|
    decreases |s| - i
  {
    if MatchAt(s, i, dirs).Some? then MatchAt(s, i, dirs)
    else if i < |s| then Find(s, i + 1, dirs)
    else None
  }

  lemma {:induction false} FindIs(s: string, i: nat, dirs: seq<string>)
    requires i <= |s|
    ensures var f := Find(s, i, dirs);
            && (f.Some? ==> f.value.dir in dirs && WholeAt(s, f.value.at, f.value.dir) && (i < f.value.at || i == f.value.at == 0)
                            && f.value.at + |f.value.dir| <= f.value.end <= |s|)
            && (f.None? ==> forall j :: i <= j <= |s| ==> MatchAt(s, j, dirs).None?)
    decreases |s| - i
  {
    if MatchAt(s, i, dirs).None? && i < |s| {
      FindIs(s, i + 1, dirs);
    }
  }

  /** Nothing is found exactly when no known directory stands as a whole path. */
  lemma NothingFound(s: string, dirs: seq<string>)
    ensures Find(s, 0, dirs).None? <==> Settled(s, dirs)
  {
    FindIs(s, 0, dirs);
    if Find(s, 0, dirs).None? {
      forall i, k | 0 <= i <= |s| && 0 <= k < |dirs| ensures !WholeAt(s, i, dirs[k]) {
        assert MatchAt(s, if i == 0 then 0 else i - 1, dirs).None?;
      }
    }
  }

  datatype Name = Name(dir: string, alias: string)

  // An absolute directory or none, and a name that is no path.
  predicate Nameable(n: Name) {
    '/' !in n.alias && ("/" <= n.dir || n.dir == "")
  }

  // The directories, longest first: each has a slash and an alias, and no alias has one.
  ghost predicate Paired(alias: map<string, string>, dirs: seq<string>) {
    && (forall d :: d in dirs <==> d in alias)
    && (forall d :: d in alias ==> '/' in d && '/' !in alias[d])
    && LongestFirst(dirs)
  }

  predicate LongestFirst(dirs: seq<string>) {
    forall i, j :: 0 <= i < j < |dirs| ==> |dirs[i]| >= |dirs[j]|
  }

  // The first n names of a directory give its alias, the first of them.
  function FirstNamed(names: seq<Name>, n: nat, d: string): Option<string>
    requires n <= |names|
  {
    if n == 0 then None
    else if FirstNamed(names, n - 1, d).Some? then FirstNamed(names, n - 1, d)
    else if names[n - 1].dir == d then Some(names[n - 1].alias) else None
  }

  // Each directory that is named, the root apart, by its first name.
  ghost predicate Named(alias: map<string, string>, names: seq<Name>, n: nat)
    requires n <= |names|
  {
    forall d :: (if d in alias then Some(alias[d]) else None) == if d == "" || d == "/" then None else FirstNamed(names, n, d)
  }

  lemma NamedNext(alias: map<string, string>, names: seq<Name>, n: nat)
    requires n < |names| && Named(alias, names, n)
    ensures var d := names[n].dir;
            Named(if d != "" && d != "/" && d !in alias then alias[d := names[n].alias] else alias, names, n + 1)
  {
  }

  class Rewriter {
    const dirs: seq<string>
    const alias: map<string, string>

    ghost predicate Valid() {
      Paired(alias, dirs)
    }

    /** What runs in a checkout: each of names' directories, as it is cleaned and as
        it resolves, by its alias; the first alias of a directory stays. */
    constructor (names: seq<Name>)
      requires forall i :: 0 <= i < |names| ==> Nameable(names[i])
      ensures Valid() && Named(alias, names, |names|)
    {
      var a: map<string, string>, ds: seq<string> := map[], [];
      for i := 0 to |names|
        invariant Paired(a, ds) && Named(a, names, i)
      {
        var d := names[i].dir;
        NamedNext(a, names, i);
        if d != "" && d != "/" && d !in a {
          assert d[0] == '/';
          a := a[d := names[i].alias];
          ds := Insert(ds, d);
        }
      }
      dirs, alias := ds, a;
    }

    /** Passes over s until no directory is found, |s| + 1 of them at most; the steps
        are the texts in between. */
    method Rewrite(s: string) returns (r: string, ghost steps: seq<string>)
      requires Valid()
      ensures Settled(r, dirs) && Leads(steps, s, r, alias)
    {
      r, steps := s, [s];
      SlashesBound(s);
      var pass := 0;
      while pass < |s| + 1
        invariant 0 <= pass <= |s| + 1
        invariant Leads(steps, s, r, alias) && pass < |steps|
      {
        NothingFound(r, dirs);
        if Find(r, 0, dirs).None? {
          return;
        }
        ghost var was, more := r, [];
        r, more := Pass(r);
        LeadsOn(steps, more, s, was, r, alias);
        steps := steps + more[1..];
        pass := pass + 1;
      }
      FewerSlashes(steps, s, r, alias);
      assert false;
    }

    // One pass: every match, one after the other, is replaced.
    method Pass(s: string) returns (t: string, ghost steps: seq<string>)
      requires Valid() && Find(s, 0, dirs).Some?
      ensures |steps| > 1 && Leads(steps, s, t, alias)
    {
      var idx := Matches(s, 0, dirs);
      AllPlaced(s, 0, 0, dirs, alias);
      t := Build(s, idx);
      steps := PassLeads(s, idx, alias);
    }

    method Build(s: string, idx: seq<Found>) returns (t: string)
      requires Placed(s, idx, 0, alias)
      ensures t == Built(s, idx, 0, alias)
    {
      var b: string, last: nat, ms := "", 0, idx;
      assert "" + Built(s, idx, 0, alias) == Built(s, idx, 0, alias);
      while ms != []
        invariant last <= |s| && Placed(s, ms, last, alias)
        invariant b + Built(s, ms, last, alias) == Built(s, idx, 0, alias)
        decreases |ms|
      {
        var m := ms[0];
        Joined(b, s[last..m.at], alias[m.dir], Built(s, ms[1..], m.at + |m.dir|, alias));
        b := b + s[last..m.at] + alias[m.dir];
        last, ms := m.at + |m.dir|, ms[1..];
      }
      t := b + s[last..];
    }
  }

  // Every match from i on, one after the other.
  function Matches(s: string, i: nat, dirs: seq<string>): seq<Found>
    requires i <= |s|
    decreases |s| - i
  {
    FindIs(s, i, dirs);
    var f := Find(s, i, dirs);
    if f.None? then [] else if i < f.value.end then [f.value] + Matches(s, f.value.end, dirs) else [f.value]
  }

  // Matches of s from last on, each a directory that is a whole path.
  ghost predicate Placed(s: string, ms: seq<Found>, last: nat, alias: map<string, string>) {
    ms == [] ||
    var m := ms[0];
    && m.dir in alias && Stands(s, m.at, m.dir) && (last < m.at || m.at == 0 == last)
    && 0 < m.at + |m.dir| <= |s| && Placed(s, ms[1..], m.at + |m.dir|, alias)
  }

  // What is left of s from last on, its matches replaced.
  function Built(s: string, ms: seq<Found>, last: nat, alias: map<string, string>): string
    requires last <= |s| && Placed(s, ms, last, alias)
  {
    if ms == [] then s[last..]
    else s[last..ms[0].at] + alias[ms[0].dir] + Built(s, ms[1..], ms[0].at + |ms[0].dir|, alias)
  }

  lemma {:induction false} AllPlaced(s: string, last: nat, i: nat, dirs: seq<string>, alias: map<string, string>)
    requires last <= i <= |s| && (i == 0 ==> last == 0) && forall d :: d in dirs ==> d in alias && '/' in d
    ensures Placed(s, Matches(s, i, dirs), last, alias)
    ensures Find(s, i, dirs).Some? ==> Matches(s, i, dirs) != []
    decreases |s| - i
  {
    FindIs(s, i, dirs);
    var f := Find(s, i, dirs);
    if f.Some? {
      assert f.value.dir != "";
      AllPlaced(s, f.value.at + |f.value.dir|, f.value.end, dirs, alias);
    }
  }

  lemma Joined(b: string, x: string, a: string, more: string)
    ensures b + (x + a + more) == b + x + a + more
  {
  }

  // One match replaced, and the others after it.
  lemma BuildStep(b: string, b1: string, s: string, ms: seq<Found>, last: nat, alias: map<string, string>)
    requires ms != [] && last <= |s| && Placed(s, ms, last, alias) && (last == 0 ==> b == "")
    requires b1 == b + s[last..ms[0].at] + alias[ms[0].dir]
    ensures OneReplaced(b + s[last..], b1 + s[ms[0].at + |ms[0].dir|..], alias)
    ensures b + Built(s, ms, last, alias) == b1 + Built(s, ms[1..], ms[0].at + |ms[0].dir|, alias)
  {
    var m := ms[0];
    ReplacedAt(b, s, last, m.at, m.dir, alias);
    Joined(b, s[last..m.at], alias[m.dir], Built(s, ms[1..], m.at + |m.dir|, alias));
  }

  lemma {:induction false} BuildLeads(b: string, s: string, ms: seq<Found>, last: nat, alias: map<string, string>) returns (steps: seq<string>)
    requires last <= |s| && Placed(s, ms, last, alias) && (last == 0 ==> b == "")
    ensures |steps| == |ms| + 1 && Leads(steps, b + s[last..], b + Built(s, ms, last, alias), alias)
    decreases |ms|
  {
    if ms == [] {
      steps := [b + s[last..]];
    } else {
      var b1, last1 := b + s[last..ms[0].at] + alias[ms[0].dir], ms[0].at + |ms[0].dir|;
      BuildStep(b, b1, s, ms, last, alias);
      var more := BuildLeads(b1, s, ms[1..], last1, alias);
      steps := OneBefore(b + s[last..], b1 + s[last1..], more, b1 + Built(s, ms[1..], last1, alias), alias);
    }
  }

  lemma PassLeads(s: string, ms: seq<Found>, alias: map<string, string>) returns (steps: seq<string>)
    requires Placed(s, ms, 0, alias)
    ensures |steps| == |ms| + 1 && Leads(steps, s, Built(s, ms, 0, alias), alias)
  {
    steps := BuildLeads("", s, ms, 0, alias);
    assert "" + s[0..] == s && "" + Built(s, ms, 0, alias) == Built(s, ms, 0, alias);
  }

  lemma OneBefore(s: string, u: string, more: seq<string>, t: string, alias: map<string, string>) returns (steps: seq<string>)
    requires OneReplaced(s, u, alias) && Leads(more, u, t, alias)
    ensures |steps| == |more| + 1 && Leads(steps, s, t, alias)
  {
    LeadsMeans(more, u, t, alias);
    steps := [s] + more;
    forall i | 0 <= i < |steps| - 1 ensures StepAt(steps, i, alias) {
      assert i > 0 ==> StepAt(more, i - 1, alias);
    }
  }

  // One directory, where it is a whole path, replaced.
  ghost predicate OneReplaced(s: string, t: string, alias: map<string, string>) {
    exists i, d :: 0 <= i <= |s| && ReplacedBy(s, t, alias, i, d)
  }

  ghost predicate ReplacedBy(s: string, t: string, alias: map<string, string>, i: nat, d: string)
    requires i <= |s|
  {
    d in alias && Stands(s, i, d) && i + |d| <= |s| && t == s[..i] + alias[d] + s[i + |d|..]
  }

  // From s to t by replacing directories, one after the other. (Opened by
  // LeadsMeans only, to keep the loops' proofs small.)
  ghost predicate Leads(steps: seq<string>, s: string, t: string, alias: map<string, string>) {
    forall u: int {:trigger AsksLeads(steps, s, t, alias, u)} :: AsksLeads(steps, s, t, alias, u) ==>
      && |steps| > 0 && steps[0] == s && steps[|steps|-1] == t
      && forall i :: 0 <= i < |steps| - 1 ==> StepAt(steps, i, alias)
  }

  ghost predicate AsksLeads(steps: seq<string>, s: string, t: string, alias: map<string, string>, u: int) { true }

  lemma LeadsMeans(steps: seq<string>, s: string, t: string, alias: map<string, string>)
    requires Leads(steps, s, t, alias)
    ensures |steps| > 0 && steps[0] == s && steps[|steps|-1] == t
    ensures forall i :: 0 <= i < |steps| - 1 ==> StepAt(steps, i, alias)
  {
    assert AsksLeads(steps, s, t, alias, 0);
  }

  ghost predicate StepAt(steps: seq<string>, i: nat, alias: map<string, string>)
    requires i < |steps| - 1
  {
    OneReplaced(steps[i], steps[i + 1], alias)
  }

  lemma LeadsOn(a: seq<string>, b: seq<string>, s: string, t: string, u: string, alias: map<string, string>)
    requires Leads(a, s, t, alias) && Leads(b, t, u, alias)
    ensures |a| > 0 && |b| > 0 && Leads(a + b[1..], s, u, alias)
  {
    LeadsMeans(a, s, t, alias);
    LeadsMeans(b, t, u, alias);
    var c := a + b[1..];
    forall i | 0 <= i < |c| - 1 ensures StepAt(c, i, alias) {
      if i >= |a| - 1 {
        assert c[i] == b[i - |a| + 1] && StepAt(b, i - |a| + 1, alias);
      } else {
        assert StepAt(a, i, alias);
      }
    }
  }

  // A directory has a slash and no alias has one: with each replaced there is one
  // less, at least.
  lemma {:induction false} FewerSlashes(steps: seq<string>, s: string, t: string, alias: map<string, string>)
    requires Leads(steps, s, t, alias) && forall d :: d in alias ==> '/' in d && '/' !in alias[d]
    ensures Slashes(t) + |steps| <= Slashes(s) + 1
  {
    LeadsMeans(steps, s, t, alias);
    if |steps| > 1 {
      var u := steps[|steps|-2];
      var front := steps[..|steps|-1];
      forall i | 0 <= i < |front| - 1 ensures StepAt(front, i, alias) {
        assert StepAt(steps, i, alias);
      }
      FewerSlashes(front, s, u, alias);
      assert StepAt(steps, |steps| - 2, alias);
      var i, d :| 0 <= i <= |u| && ReplacedBy(u, t, alias, i, d);
      StandsMeans(u, i, d);
      Replaced(u, i, d, alias[d]);
    }
  }

  // The match is whole in what is written so far and what is left as well.
  lemma ReplacedAt(b: string, s: string, last: nat, at: nat, d: string, alias: map<string, string>)
    requires last <= at <= |s| && at + |d| <= |s| && d in alias && Stands(s, at, d) && (last < at || (at == 0 && b == ""))
    ensures OneReplaced(b + s[last..], b + s[last..at] + alias[d] + s[at + |d|..], alias)
  {
    StandsMeans(s, at, d);
    var u := b + s[last..];
    var i := |b| + at - last;
    assert u[..i] == b + s[last..at] && u[i..] == s[at..];
    assert u[i..i + |d|] == s[at..at + |d|];
    assert u[i + |d|..] == s[at + |d|..];
    assert ReplacedBy(u, b + s[last..at] + alias[d] + s[at + |d|..], alias, i, d);
  }

  // Longest first, those of the same length as they came.
  function Insert(ds: seq<string>, d: string): (r: seq<string>)
    requires LongestFirst(ds)
    ensures LongestFirst(r)
    ensures forall c :: c in r <==> c in ds || c == d
    ensures |r| > 0 && (r[0] == d || (ds != [] && r[0] == ds[0]))
  {
    if ds == [] || |ds[0]| < |d| then [d] + ds
    else
      var more := Insert(ds[1..], d);
      [ds[0]] + more
  }

  lemma Replaced(s: string, i: nat, d: string, a: string)
    requires DirHere(s, i, d) && '/' in d && '/' !in a
    ensures Slashes(s[..i] + a + s[i + |d|..]) < Slashes(s)
  {
    var rest := s[i + |d|..];
    SlashesBound(a);
    SlashesBound(d);
    SlashesOf(s[..i] + a, rest);
    SlashesOf(s[..i], a);
    assert s == s[..i] + d + rest;
    SlashesOf(s[..i] + d, rest);
    SlashesOf(s[..i], d);
  }

  /** At one place the longest directory that is whole there is the one replaced. */
  lemma LongestWins(s: string, i: nat, dirs: seq<string>, d: string)
    requires LongestFirst(dirs)
    requires d in dirs && DirHere(s, i, d)
    ensures DirAt(s, i, dirs).Some? && |DirAt(s, i, dirs).value| >= |d|
  {
    if !DirHere(s, i, dirs[0]) {
      assert d in dirs[1..];
      LongestWins(s, i, dirs[1..], d);
    } else {
      var k :| 0 <= k < |dirs| && dirs[k] == d;
    }
  }

  // ---------- what is a whole path, and named how ----------

  // The characters before a path: white space, quotes, opening brackets, <, >, =, :, comma, ;, |.
  const Before: set<int> := {9, 10, 12, 13, 32, 34, 39, 96, 40, 91, 123, 60, 62, 61, 58, 44, 59, 124}

  // And behind one: a slash, closing brackets and no = instead.
  const Behind: set<int> := {47, 9, 10, 12, 13, 32, 34, 39, 96, 41, 93, 125, 60, 62, 58, 44, 59, 124}

  lemma OpensIs(c: char)
    ensures Opens(c) <==> c as int in Before
    ensures Closes(c) <==> c as int in Behind
  {
  }

  // d between what is before and behind it, each empty or parted from it.
  predicate Parted(before: string, d: string, behind: string, s: string) {
    && s == before + d + behind
    && (before != [] ==> before[|before| - 1] as int in Before) && (behind != [] ==> behind[0] as int in Behind)
  }

  /** A directory is a whole path where what is before it and behind it, if anything,
      cannot belong to it. */
  lemma WholeMeans(s: string, i: nat, d: string)
    ensures WholeAt(s, i, d) <==> exists before, behind :: |before| == i && Parted(before, d, behind, s)
  {
    if before, behind :| |before| == i && Parted(before, d, behind, s) {
      assert s[i..i + |d|] == d;
      assert i > 0 ==> s[i - 1] == before[i - 1];
      assert behind != [] ==> s[i + |d|] == behind[0];
      if i > 0 {
        OpensIs(s[i - 1]);
      }
      if behind != [] {
        OpensIs(behind[0]);
      }
    }
    if WholeAt(s, i, d) {
      WholeParts(s, i, d);
    }
  }

  lemma WholeParts(s: string, i: nat, d: string)
    requires WholeAt(s, i, d)
    ensures i + |d| <= |s| && Parted(s[..i], d, s[i + |d|..], s)
  {
    if i > 0 {
      OpensIs(s[i - 1]);
    }
    if i + |d| < |s| {
      OpensIs(s[i + |d|]);
    }
  }

  // A character of a name: a letter, a digit, one of + - . _ ~ % @ #, or none of ASCII.
  predicate OfName(c: char) {
    || '0' <= c <= '9' || 'A' <= c <= 'Z' || 'a' <= c <= 'z' || c as int >= 128
    || c in {'+', '-', '.', '_', '~', '%', '@', '#'}
  }

  lemma NamesPart(c: char)
    requires OfName(c)
    ensures !Opens(c) && !Closes(c) && !Opens('/')
  {
    OpensIs(c);
    OpensIs('/');
  }

  /** Nothing beside it whose name is longer, and nothing it is only the end of. */
  lemma NotInside(s: string, i: nat, d: string)
    requires i + |d| <= |s|
    requires (i > 0 && (OfName(s[i - 1]) || s[i - 1] == '/')) || (i + |d| < |s| && OfName(s[i + |d|]))
    ensures !WholeAt(s, i, d)
  {
    if i > 0 && (OfName(s[i - 1]) || s[i - 1] == '/') {
      NamesPart(if s[i - 1] == '/' then '.' else s[i - 1]);
    }
    if i + |d| < |s| && OfName(s[i + |d|]) {
      NamesPart(s[i + |d|]);
    }
  }

  /** What is found is the leftmost whole directory, and the longest there. */
  lemma LeftmostFound(s: string, dirs: seq<string>, a: nat, d: string)
    requires LongestFirst(dirs) && d in dirs && WholeAt(s, a, d)
    ensures Find(s, 0, dirs).Some?
    ensures var f := Find(s, 0, dirs).value;
            f.dir in dirs && WholeAt(s, f.at, f.dir) && f.at <= a && (f.at == a ==> |f.dir| >= |d|)
  {
    FindIs(s, 0, dirs);
    LongestWins(s, a, dirs, d);
    FindFirst(s, 0, if a == 0 then 0 else a - 1, dirs);
    FindAt(s, 0, dirs);
  }

  lemma {:induction false} FindFirst(s: string, i: nat, j: nat, dirs: seq<string>)
    requires i <= j <= |s| && MatchAt(s, j, dirs).Some?
    ensures Find(s, i, dirs).Some?
    ensures exists k :: i <= k <= j && Find(s, i, dirs) == MatchAt(s, k, dirs)
    decreases |s| - i
  {
    if MatchAt(s, i, dirs).None? {
      FindFirst(s, i + 1, j, dirs);
    } else {
      assert Find(s, i, dirs) == MatchAt(s, i, dirs);
    }
  }

  lemma {:induction false} FindAt(s: string, i: nat, dirs: seq<string>)
    requires i <= |s| && Find(s, i, dirs).Some?
    ensures var f := Find(s, i, dirs).value; DirAt(s, f.at, dirs) == Some(f.dir)
    decreases |s| - i
  {
    if MatchAt(s, i, dirs).None? {
      FindAt(s, i + 1, dirs);
    }
  }

  lemma {:induction false} FirstNamedMeans(names: seq<Name>, n: nat, d: string, alias: string)
    requires n <= |names|
    ensures FirstNamed(names, n, d) == Some(alias) <==>
            exists i :: 0 <= i < n && names[i] == Name(d, alias) && forall j :: 0 <= j < i ==> names[j].dir != d
    ensures FirstNamed(names, n, d).None? <==> forall i :: 0 <= i < n ==> names[i].dir != d
  {
    if n > 0 {
      FirstNamedMeans(names, n - 1, d, alias);
    }
  }

  /** The alias of a directory is that of its first name, and each that is named has
      one, but the root. */
  lemma NamedMeans(alias: map<string, string>, names: seq<Name>, d: string)
    requires Named(alias, names, |names|)
    ensures d in alias <==> d != "" && d != "/" && exists i :: 0 <= i < |names| && names[i].dir == d
    ensures d in alias ==> exists i :: 0 <= i < |names| && names[i] == Name(d, alias[d]) && forall j :: 0 <= j < i ==> names[j].dir != d
  {
    FirstNamedMeans(names, |names|, d, if d in alias then alias[d] else "");
  }
}
