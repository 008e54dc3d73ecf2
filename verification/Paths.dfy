/** Cutting strings and paths apart, and what the pieces mean. */
module Paths {

  // s cut at its first sep; found is whether it has one.
  function Cut(s: string, sep: char): (r: (string, string, bool)) {
    if s == [] then ([], [], false)
    else if s[0] == sep then ([], s[1..], true)
    else var (a, b, found) := Cut(s[1..], sep); ([s[0]] + a, b, found)
  }

  function Split(s: string, sep: char): (r: seq<string>)
    ensures |r| > 0
    decreases |s|
  {
    var (a, b, found) := Cut(s, sep);
    CutShorter(s, sep);
    if found then [a] + Split(b, sep) else [a]
  }

  lemma CutShorter(s: string, sep: char)
    ensures Cut(s, sep).2 ==> |Cut(s, sep).1| < |s|
  {
  }

  function Join(parts: seq<string>, sep: char): string {
    if parts == [] then [] else if |parts| == 1 then parts[0] else parts[0] + [sep] + Join(parts[1..], sep)
  }

  function TrimRightSlash(s: string): string {
    if s != [] && s[|s|-1] == '/' then TrimRightSlash(s[..|s|-1]) else s
  }

  function TrimLeftSlash(s: string): string {
    if s != [] && s[0] == '/' then TrimLeftSlash(s[1..]) else s
  }

  function TrimSlashes(s: string): string {
    TrimRightSlash(TrimLeftSlash(s))
  }

  function AfterSlash(s: string): string
    decreases |s|
  {
    if '/' in s then AfterSlash(Rest(s)) else s
  }

  // What follows the first slash.
  function Rest(s: string): (r: string)
    ensures '/' in s ==> |r| < |s|
  {
    if s == [] then [] else if s[0] == '/' then s[1..] else Rest(s[1..])
  }

  // The last name of a path.
  function Base(s: string): string {
    if s == [] then "." else
      var t := TrimRightSlash(s);
      if t == [] then "/" else AfterSlash(t)
  }

  // Equal to the prefix, or beneath it.
  predicate Under(file: string, prefix: string) {
    var t := TrimSlashes(prefix);
    file == t || t + "/" <= file
  }

  // The path as the policy reads it.
  function TrimDot(file: string): string {
    if "./" <= file then file[2..] else file
  }

  // ---------- what a cut is ----------

  /** A cut is at the first separator. */
  lemma {:induction false} CutMeans(a: string, b: string, sep: char)
    requires sep !in a
    ensures Cut(a + [sep] + b, sep) == (a, b, true) && Cut(a, sep) == (a, [], false)
  {
    var s := a + [sep] + b;
    if a == [] {
      assert s[1..] == b;
    } else {
      CutMeans(a[1..], b, sep);
      assert s[1..] == a[1..] + [sep] + b && [a[0]] + a[1..] == a;
    }
  }

  lemma {:induction false} CutFinds(s: string, sep: char)
    ensures var (a, b, found) := Cut(s, sep); sep !in a && s == if found then a + [sep] + b else a
  {
    if s != [] && s[0] != sep {
      CutFinds(s[1..], sep);
      assert s == [s[0]] + s[1..];
    }
  }

  // What s is put together of, none of it with a separator in it.
  ghost predicate Parts(s: string, sep: char, parts: seq<string>) {
    parts != [] && (forall i :: 0 <= i < |parts| ==> sep !in parts[i]) && Join(parts, sep) == s
  }

  lemma {:induction false} SplitParts(s: string, sep: char)
    ensures Parts(s, sep, Split(s, sep))
    decreases |s|
  {
    var (a, b, found) := Cut(s, sep);
    CutFinds(s, sep);
    if found {
      CutShorter(s, sep);
      SplitParts(b, sep);
      var more := Split(b, sep);
      assert ([a] + more)[1..] == more;
    }
  }

  lemma {:induction false} PartsSplit(parts: seq<string>, sep: char)
    requires parts != [] && forall i :: 0 <= i < |parts| ==> sep !in parts[i]
    ensures Split(Join(parts, sep), sep) == parts
  {
    var more := parts[1..];
    if more == [] {
      CutMeans(parts[0], [], sep);
    } else {
      PartsSplit(more, sep);
      CutMeans(parts[0], Join(more, sep), sep);
      assert parts == [parts[0]] + more;
    }
  }

  /** Splitting is that, and nothing else. */
  lemma SplitMeans(s: string, sep: char, parts: seq<string>)
    ensures Split(s, sep) == parts <==> Parts(s, sep, parts)
  {
    SplitParts(s, sep);
    if Parts(s, sep, parts) {
      PartsSplit(parts, sep);
    }
  }

  lemma {:induction false} JoinOn(a: seq<string>, b: seq<string>, sep: char)
    requires a != [] && b != []
    ensures Join(a + b, sep) == Join(a, sep) + [sep] + Join(b, sep)
  {
    assert (a + b)[1..] == a[1..] + b;
    if |a| > 1 {
      JoinOn(a[1..], b, sep);
    }
  }

  lemma SplitOn(s: string, t: string, sep: char)
    ensures Split(s + [sep] + t, sep) == Split(s, sep) + Split(t, sep)
  {
    SplitParts(s, sep);
    SplitParts(t, sep);
    JoinOn(Split(s, sep), Split(t, sep), sep);
    PartsSplit(Split(s, sep) + Split(t, sep), sep);
  }

  // ---------- what lies beneath ----------

  predicate Slashes(s: string) {
    forall i :: 0 <= i < |s| ==> s[i] == '/'
  }

  // t is s without the slashes around it.
  ghost predicate Bare(s: string, t: string) {
    exists before, behind :: Around(before, t, behind, s)
  }

  predicate Around(before: string, t: string, behind: string, s: string) {
    s == before + t + behind && Slashes(before) && Slashes(behind) && (t != [] ==> t[0] != '/' && t[|t| - 1] != '/')
  }

  lemma {:induction false} TrimLeftOf(before: string, t: string)
    requires Slashes(before) && (t != [] ==> t[0] != '/')
    ensures TrimLeftSlash(before + t) == t
  {
    if before == [] {
      assert before + t == t;
    } else {
      assert (before + t)[1..] == before[1..] + t;
      TrimLeftOf(before[1..], t);
    }
  }

  lemma {:induction false} TrimRightOf(t: string, behind: string)
    requires Slashes(behind) && (t != [] ==> t[|t| - 1] != '/')
    ensures TrimRightSlash(t + behind) == t
  {
    var s := t + behind;
    if behind == [] {
      assert s == t;
    } else {
      assert s[|s| - 1] == behind[|behind| - 1] == '/';
      assert s[..|s| - 1] == t + behind[..|behind| - 1];
      TrimRightOf(t, behind[..|behind| - 1]);
    }
  }

  lemma TrimSlashesOf(before: string, t: string, behind: string)
    requires Around(before, t, behind, before + t + behind)
    ensures TrimSlashes(before + t + behind) == t
  {
    if t == [] {
      assert before + t + behind == (before + behind) + t;
      TrimLeftOf(before + behind, t);
    } else {
      assert before + t + behind == before + (t + behind);
      TrimLeftOf(before, t + behind);
      TrimRightOf(t, behind);
    }
  }

  lemma {:induction false} LeftSlashes(s: string) returns (before: string)
    ensures s == before + TrimLeftSlash(s) && Slashes(before) && (TrimLeftSlash(s) != [] ==> TrimLeftSlash(s)[0] != '/')
  {
    before := [];
    if s != [] && s[0] == '/' {
      var more := LeftSlashes(s[1..]);
      before := ['/'] + more;
      assert s == ['/'] + s[1..];
    }
  }

  lemma {:induction false} RightSlashes(s: string) returns (behind: string)
    ensures s == TrimRightSlash(s) + behind && Slashes(behind)
    ensures TrimRightSlash(s) != [] ==> TrimRightSlash(s)[|TrimRightSlash(s)| - 1] != '/'
  {
    behind := [];
    if s != [] && s[|s| - 1] == '/' {
      var more := RightSlashes(s[..|s| - 1]);
      behind := more + ['/'];
      assert s == s[..|s| - 1] + ['/'];
    }
  }

  /** Trimming slashes is that, and nothing else. */
  lemma TrimSlashesMeans(s: string, t: string)
    ensures TrimSlashes(s) == t <==> Bare(s, t)
  {
    if before, behind :| Around(before, t, behind, s) {
      TrimSlashesOf(before, t, behind);
    }
    var before := LeftSlashes(s);
    var u := TrimLeftSlash(s);
    var behind := RightSlashes(u);
    assert TrimSlashes(s) != [] ==> TrimSlashes(s)[0] == u[0];
    assert Around(before, TrimSlashes(s), behind, s);
  }

  // The names from a path's beginning are those of t, one after the other.
  ghost predicate NamesBegin(file: string, t: string) {
    var a, b := Split(t, '/'), Split(file, '/');
    |a| <= |b| && forall i :: 0 <= i < |a| ==> a[i] == b[i]
  }

  // A path lies beneath a prefix, name by name, whatever slashes are around that.
  ghost predicate Beneath(file: string, prefix: string) {
    exists t :: Bare(prefix, t) && NamesBegin(file, t)
  }

  lemma NamesBeginMeans(file: string, t: string)
    ensures NamesBegin(file, t) <==> file == t || t + "/" <= file
  {
    var a, b := Split(t, '/'), Split(file, '/');
    SplitParts(t, '/');
    SplitParts(file, '/');
    if t + "/" <= file {
      var rest := file[|t| + 1..];
      assert file == t + ['/'] + rest;
      SplitOn(t, rest, '/');
    }
    if NamesBegin(file, t) {
      assert b == a + b[|a|..];
      if |a| < |b| {
        JoinOn(a, b[|a|..], '/');
      } else {
        assert b == a;
      }
    }
  }

  /** A path is under a prefix exactly when it lies beneath it, name by name. */
  lemma UnderMeans(file: string, prefix: string)
    ensures Under(file, prefix) <==> Beneath(file, prefix)
  {
    var t := TrimSlashes(prefix);
    TrimSlashesMeans(prefix, t);
    NamesBeginMeans(file, t);
    forall u | Bare(prefix, u) ensures u == t {
      TrimSlashesMeans(prefix, u);
    }
  }

  // ---------- the last name ----------

  lemma {:induction false} RestOf(a: string, b: string)
    requires '/' !in a
    ensures Rest(a + "/" + b) == b
  {
    var s := a + "/" + b;
    if a == [] {
      assert s[1..] == b;
    } else {
      assert s[1..] == a[1..] + "/" + b;
      RestOf(a[1..], b);
    }
  }

  lemma {:induction false} AfterSlashOf(dir: string, name: string)
    requires '/' !in name
    ensures AfterSlash(name) == name && AfterSlash(dir + "/" + name) == name
    decreases |dir|
  {
    var (a, b, found) := Cut(dir, '/');
    CutFinds(dir, '/');
    var s := dir + "/" + name;
    assert s[|dir|] == '/';
    if found {
      CutShorter(dir, '/');
      assert s == a + "/" + (b + "/" + name);
      RestOf(a, b + "/" + name);
      AfterSlashOf(b, name);
    } else {
      RestOf(dir, name);
    }
  }

  /** A path's last name, whatever is above it and whatever slashes follow. */
  lemma BaseMeans(dir: string, name: string, behind: string)
    requires '/' !in name && name != [] && Slashes(behind)
    ensures Base(name + behind) == name && Base(dir + "/" + name + behind) == name
    ensures Base([]) == "." && (behind != [] ==> Base(behind) == "/")
  {
    TrimRightOf(name, behind);
    var s := dir + "/" + name;
    assert s[|s| - 1] == name[|name| - 1];
    TrimRightOf(s, behind);
    AfterSlashOf(dir, name);
    TrimRightOf([], behind);
    assert [] + behind == behind;
  }
}
