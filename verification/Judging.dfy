/** What is protected and what is taken, told by the names and the trees alone: what
    TakeChanges means to who reads them. */
module Judging {

  import opened Common
  import opened TakeChanges

  // ---------- which names a pattern names ----------

  /** A pattern without a star is one name. */
  lemma {:induction false} MatchPlain(pattern: string, name: string)
    requires '*' !in pattern
    ensures Match(pattern, name) <==> name == pattern
  {
    if pattern != [] && name != [] && pattern[0] == name[0] {
      MatchPlain(pattern[1..], name[1..]);
      assert pattern == [pattern[0]] + pattern[1..] && name == [name[0]] + name[1..];
    }
  }

  predicate EndsWith(s: string, end: string) {
    |end| <= |s| && s[|s| - |end|..] == end
  }

  lemma {:induction false} MatchEnd(end: string, name: string)
    requires '*' !in end
    ensures Match("*" + end, name) <==> EndsWith(name, end)
  {
    var pattern := "*" + end;
    assert pattern[1..] == end;
    MatchPlain(end, name);
    if name != [] {
      MatchEnd(end, name[1..]);
      if |end| < |name| {
        assert name[1..][|name| - 1 - |end|..] == name[|name| - |end|..];
      }
    }
  }

  /** A star stands for any run of characters between what is before and behind it. */
  lemma {:induction false} MatchStar(begin: string, end: string, name: string)
    requires '*' !in begin && '*' !in end
    ensures Match(begin + "*" + end, name) <==> |begin| + |end| <= |name| && begin <= name && EndsWith(name, end)
  {
    if begin == [] {
      assert begin + "*" + end == "*" + end;
      MatchEnd(end, name);
    } else if name != [] && name[0] == begin[0] {
      assert (begin + "*" + end)[1..] == begin[1..] + "*" + end;
      MatchStar(begin[1..], end, name[1..]);
      assert begin == [begin[0]] + begin[1..] && name == [name[0]] + name[1..];
      if |begin| + |end| <= |name| {
        assert name[1..][|name| - 1 - |end|..] == name[|name| - |end|..];
      }
    }
  }

  // A name is what a pattern says, its star, if it has one, at k.
  predicate FitsAt(pattern: string, k: nat, name: string)
    requires k < |pattern|
  {
    pattern[k] == '*' && |pattern| - 1 <= |name| && pattern[..k] <= name && EndsWith(name, pattern[k + 1..])
  }

  predicate Fits(pattern: string, name: string) {
    if '*' in pattern then exists k :: 0 <= k < |pattern| && FitsAt(pattern, k, name) else name == pattern
  }

  // At most one star, as in every pattern there is.
  predicate OneStar(s: string) {
    forall j, k :: 0 <= j < k < |s| && s[j] == '*' ==> s[k] != '*'
  }

  lemma MatchMeans(pattern: string, name: string)
    requires OneStar(pattern)
    ensures Match(pattern, name) <==> Fits(pattern, name)
  {
    if '*' in pattern {
      forall k | 0 <= k < |pattern| && pattern[k] == '*' ensures Match(pattern, name) <==> FitsAt(pattern, k, name) {
        assert pattern == pattern[..k] + "*" + pattern[k + 1..];
        MatchStar(pattern[..k], pattern[k + 1..], name);
      }
    } else {
      MatchPlain(pattern, name);
    }
  }

  // The name of a path's entry.
  function Last(p: Path): string {
    p[|p| - 1]
  }

  // The patterns whose star comes last.
  predicate EndsOpen(i: nat) {
    13 <= i <= 16
  }

  // One star at most, a dot, and but for the first and those no end a file of Go has.
  ghost predicate InTable(pattern: string, i: nat) {
    && OneStar(pattern) && '.' in pattern
    && (i != 0 && !EndsOpen(i) ==> pattern[|pattern| - 1] != 'o' && pattern[|pattern| - 1] != '*')
  }

  lemma InTableA(i: nat)
    requires i < 10
    ensures InTable(ProtectedFiles[i], i)
  {
  }

  lemma InTableB(i: nat)
    requires 10 <= i < 18
    ensures InTable(ProtectedFiles[i], i)
  {
  }

  lemma InTableC(i: nat)
    requires 18 <= i < 26
    ensures InTable(ProtectedFiles[i], i)
  {
  }

  lemma InTableD(i: nat)
    requires 26 <= i < 37
    ensures InTable(ProtectedFiles[i], i)
  {
  }

  lemma AllInTable(i: nat)
    requires i < |ProtectedFiles|
    ensures InTable(ProtectedFiles[i], i)
  {
    if i < 10 {
      InTableA(i);
    } else if i < 18 {
      InTableB(i);
    } else if i < 26 {
      InTableC(i);
    } else {
      InTableD(i);
    }
  }

  /** A file is protected by its name exactly when that fits a pattern of the table. */
  lemma NamedMeans(p: Path)
    ensures Named(p) <==> exists i :: 0 <= i < |ProtectedFiles| && Fits(ProtectedFiles[i], Last(p))
  {
    forall i | 0 <= i < |ProtectedFiles| ensures Match(ProtectedFiles[i], Last(p)) <==> Fits(ProtectedFiles[i], Last(p)) {
      AllInTable(i);
      MatchMeans(ProtectedFiles[i], Last(p));
    }
  }

  // What stands outside a name's star is in the name.
  lemma FitsEnds(pattern: string, name: string)
    requires pattern != [] && Fits(pattern, name) && pattern[|pattern| - 1] != '*'
    ensures name != [] && name[|name| - 1] == pattern[|pattern| - 1]
  {
  }

  lemma FitsHas(pattern: string, name: string, c: char)
    requires Fits(pattern, name) && c in pattern && c != '*'
    ensures c in name
  {
    if '*' in pattern {
      var k :| 0 <= k < |pattern| && FitsAt(pattern, k, name);
      var j :| 0 <= j < |pattern| && pattern[j] == c;
      if j < k {
        assert name[j] == pattern[..k][j];
      } else {
        var end := pattern[k + 1..];
        assert end[j - k - 1] == c && name[|name| - |end|..][j - k - 1] == c;
      }
    }
  }

  // What is in one of these directories, somewhere above.
  predicate In(p: Path, dirs: set<string>) {
    exists i :: 0 <= i < |p| - 1 && p[i] in dirs
  }

  /** Tests are protected: every file named so, and all beneath a directory of them. */
  lemma TestsAreProtected(p: Path)
    requires EndsWith(Last(p), "_test.go") || In(p, {"tests"})
    ensures Protected(p)
  {
    if In(p, {"tests"}) {
      var i :| 0 <= i < |p| - 1 && p[i] == "tests";
      assert p[i] in ProtectedDirs;
    } else {
      MatchEnd("_test.go", Last(p));
      assert ProtectedFiles[0] == "*" + "_test.go";
    }
  }

  /** A file with no dot in its name is protected by a directory above it alone; one
      that is merely called as such a directory is not. */
  lemma DotlessIsTaken(p: Path)
    requires '.' !in Last(p)
    ensures Protected(p) <==> In(p, ProtectedDirs)
  {
    NamedMeans(p);
    forall i | 0 <= i < |ProtectedFiles| ensures !Fits(ProtectedFiles[i], Last(p)) {
      AllInTable(i);
      if Fits(ProtectedFiles[i], Last(p)) {
        FitsHas(ProtectedFiles[i], Last(p), '.');
      }
    }
  }

  const OpenEnds: seq<string> := ["vitest.config.", "vitest.workspace.", "vite.config.", "jest.config."]

  /** A file of Go is protected by its name exactly when it is a test or is named
      after a configuration, whatever comes behind. */
  lemma GoFilesMean(p: Path)
    requires EndsWith(Last(p), ".go") && !In(p, ProtectedDirs)
    ensures Protected(p) <==> EndsWith(Last(p), "_test.go") || exists i :: 0 <= i < 4 && OpenEnds[i] <= Last(p)
  {
    var name := Last(p);
    GoNamed(name);
    assert EndsWith(name, "_test.go") ==> Match(ProtectedFiles[0], name);
    if i :| 0 <= i < 4 && OpenEnds[i] <= name {
      assert Match(ProtectedFiles[13 + i], name);
    }
    if i :| 0 <= i < |ProtectedFiles| && Match(ProtectedFiles[i], name) {
      assert i == 0 || (EndsOpen(i) && OpenEnds[i - 13] <= name);
    }
  }

  lemma GoNamed(name: string)
    requires EndsWith(name, ".go")
    ensures forall i :: 0 <= i < |ProtectedFiles| && Match(ProtectedFiles[i], name) ==> i == 0 || EndsOpen(i)
    ensures Match(ProtectedFiles[0], name) <==> EndsWith(name, "_test.go")
    ensures forall i :: 13 <= i < 17 ==> (Match(ProtectedFiles[i], name) <==> OpenEnds[i - 13] <= name)
  {
    assert name[|name| - 1] == name[|name| - 3..][2] == 'o';
    forall i | 0 <= i < |ProtectedFiles| && Match(ProtectedFiles[i], name) ensures i == 0 || EndsOpen(i) {
      AllInTable(i);
      MatchMeans(ProtectedFiles[i], name);
      if i != 0 && !EndsOpen(i) {
        FitsEnds(ProtectedFiles[i], name);
      }
    }
    MatchEnd("_test.go", name);
    assert ProtectedFiles[0] == "*" + "_test.go";
    forall i | 13 <= i < 17 ensures Match(ProtectedFiles[i], name) <==> OpenEnds[i - 13] <= name {
      OpenEnd(i - 13);
      MatchStar(OpenEnds[i - 13], [], name);
      assert OpenEnds[i - 13] + "*" + [] == OpenEnds[i - 13] + "*";
    }
  }

  lemma OpenEnd(i: nat)
    requires i < 4
    ensures ProtectedFiles[13 + i] == OpenEnds[i] + "*" && '*' !in OpenEnds[i]
  {
  }

  // ---------- what stays ----------

  // No link of the judged tree leads to what q is beneath.
  ghost predicate NoLinkTo(judge: Files, q: Path) {
    forall l :: l in judge && judge[l].Link? ==> !(judge[l].to < q)
  }

  lemma NotLedTo(work: Files, judge: Files, q: Path)
    requires Protected(q) && NoLinkTo(judge, q)
    ensures NoneLedTo(work, judge, q)
  {
    forall p | Taken(work, p) ensures Target(judge, p) != q {
      LinkFromIs(judge, p, 1);
      var n := LinkOver(judge, p);
      if n > 0 {
        assert judge[p[..n]].to < Target(judge, p);
      }
    }
  }

  /** What is protected, and no link leads to, is left as it is. */
  lemma ProtectedStays(work: Files, through: set<Path>, judge: Files, order: seq<Path>, q: Path)
    requires Trees(work, judge, order) && Protected(q) && NoLinkTo(judge, q)
    ensures SameAt(Judge(work, through, judge, order), judge, q)
  {
    NotLedTo(work, judge, q);
    LastToIs(work, judge, order, |order|, q);
    ProtectedStaysIff(work, through, judge, order, q);
  }

  /** So the judged tests are left, even by a take that fails. */
  lemma TestsStay(work: Files, judge: Files, t: Files, q: Path)
    requires KeepsUnled(work, judge, t) && NoLinkTo(judge, q)
    requires EndsWith(Last(q), "_test.go") || In(q, {"tests"})
    ensures (q in t <==> q in judge) && (q in judge ==> t[q] == judge[q])
  {
    TestsAreProtected(q);
    NotLedTo(work, judge, q);
  }

  // ---------- what is there, of trees without links ----------

  ghost predicate NoLinks(t: Files) {
    forall p :: p in t ==> !t[p].Link?
  }

  lemma NoLinkOn(t: Files, p: Path)
    requires NoLinks(t)
    ensures LinkOver(t, p) == 0 && Target(t, p) == p
  {
    LinkFromIs(t, p, 1);
  }

  /** Without links: what is protected is the judged tree's, all else is work's files,
      and nothing more. */
  lemma OverlayPlain(work: Files, through: set<Path>, judge: Files, order: seq<Path>, p: Path)
    requires Trees(work, judge, order) && NoLinks(work) && NoLinks(judge)
    ensures var f := Judge(work, through, judge, order);
            if Protected(p) then SameAt(f, judge, p)
            else (p in f <==> p in work && work[p].File?) && (p in f ==> f[p] == work[p])
  {
    if Protected(p) {
      ProtectedStays(work, through, judge, order, p);
    } else {
      NoLinkOn(work, p);
      Overlay(work, through, judge, order, p);
      if Taken(work, p) {
        NoLinksReadsRight(work, through, judge, order);
        assert ReadsRight(work, through, judge, order, p);
        LinksLeft(work, through, judge, order);
        NoLinkOn(Judge(work, through, judge, order), p);
      }
    }
  }

  /** And the count is of what is no regular file, and of the protected files that
      are not in the judged tree as they are in work. */
  lemma CountPlain(work: Files, judge: Files, order: seq<Path>)
    requires Trees(work, judge, order) && NoLinks(judge)
    ensures DropsOf(work, judge, order) == |LeftOut(work, judge)|
  {
    forall i | 0 <= i < |order| && order[i] in work ensures !ComparedLate(work, judge, order, i) {
      NoneLate(work, judge, order, i);
    }
    CountIsDropped(work, judge, order);
    forall p | p in work ensures Drops(work, judge, p) <==> IsLeftOut(work, judge, p) {
      NoLinkOn(judge, p);
    }
    assert Dropped(work, judge) == LeftOut(work, judge);
  }

  ghost function LeftOut(work: Files, judge: Files): set<Path> {
    set p | p in work && !In(p, ProtectedDirs) && IsLeftOut(work, judge, p)
  }

  predicate IsLeftOut(work: Files, judge: Files, p: Path)
    requires p in work
  {
    !work[p].File? || (Protected(p) && !(p in judge && judge[p] == work[p]))
  }

  lemma NoneLate(work: Files, judge: Files, order: seq<Path>, i: nat)
    requires NoLinks(judge) && i < |order| && order[i] in work
    ensures !ComparedLate(work, judge, order, i)
  {
    var p := order[i];
    NoLinkOn(judge, p);
    LastToIs(work, judge, order, i, Source(judge, p));
    var j := LastTo(work, judge, order, i, Source(judge, p));
    if j > 0 {
      NoLinkOn(judge, order[j - 1]);
    }
  }

  /** And what is written is the files taken that the judged tree has not so: each
      entry's share of the cost, which its limit is for. */
  lemma CostPlain(work: Files, judge: Files, order: seq<Path>, i: nat)
    requires Trees(work, judge, order) && NoLinks(judge) && i < |order|
    ensures order[i] in work
    ensures var p := order[i];
            CostOf(work, judge, order[..i + 1]) - CostOf(work, judge, order[..i]) ==
            if work[p].File? && !Protected(p) && !(p in judge && judge[p] == work[p]) then |work[p].body| else 0
  {
    AtEntry(work, judge, order, i);
    assert order[i] in order;
    AsItWas(work, judge, order, i);
  }

  // The walk finds each entry's path as it was.
  lemma AsItWas(work: Files, judge: Files, order: seq<Path>, i: nat)
    requires Trees(work, judge, order) && NoLinks(judge) && i < |order|
    ensures ReadFile(After(work, judge, order, i), order[i]) == BodyAt(judge, order[i])
  {
    var p := order[i];
    HeldIs(work, judge, order, i, p);
    NothingBefore(work, judge, order, i);
    LinksAfter(work, judge, order, i);
    NoLinkOn(After(work, judge, order, i), p);
  }

  lemma NothingBefore(work: Files, judge: Files, order: seq<Path>, i: nat)
    requires Trees(work, judge, order) && NoLinks(judge) && i < |order|
    ensures LastTo(work, judge, order, i, order[i]) == 0
  {
    LastToIs(work, judge, order, i, order[i]);
    forall k | 0 <= k < i ensures Target(judge, order[k]) != order[i] {
      NoLinkOn(judge, order[k]);
      Apart(order, i, k);
    }
  }

  // ---------- the walk's order ----------

  /** The walk comes to one path before another exactly when it is above it or has
      the lesser name where they part. */
  lemma {:induction false} BeforeMeans(p: seq<string>, q: seq<string>)
    ensures Before(p, q) <==> p < q || exists i :: 0 <= i < |p| && i < |q| && PartAt(p, q, i)
  {
    if p != [] && q != [] {
      if p[0] == q[0] {
        BeforeMeans(p[1..], q[1..]);
        PartsLater(p, q);
      } else {
        LeqIs(p[0], q[0]);
        assert PartAt(p, q, 0) <==> Less(p[0], q[0]);
        PartsFirst(p, q);
      }
    }
  }

  ghost predicate PartAt(p: seq<string>, q: seq<string>, i: nat)
    requires i < |p| && i < |q|
  {
    p[..i] == q[..i] && Less(p[i], q[i])
  }

  lemma PartsLater(p: seq<string>, q: seq<string>)
    requires p != [] && q != [] && p[0] == q[0]
    ensures p < q <==> p[1..] < q[1..]
    ensures (exists i :: 0 <= i < |p| && i < |q| && PartAt(p, q, i)) <==>
            exists i :: 0 <= i < |p[1..]| && i < |q[1..]| && PartAt(p[1..], q[1..], i)
  {
    assert p == [p[0]] + p[1..] && q == [q[0]] + q[1..];
    if i :| 0 <= i < |p| && i < |q| && PartAt(p, q, i) {
      NotLess(p[0]);
      assert p[1..][..i - 1] == p[..i][1..] && q[1..][..i - 1] == q[..i][1..];
      assert PartAt(p[1..], q[1..], i - 1);
    }
    if i :| 0 <= i < |p[1..]| && i < |q[1..]| && PartAt(p[1..], q[1..], i) {
      assert p[..i + 1] == [p[0]] + p[1..][..i] && q[..i + 1] == [q[0]] + q[1..][..i];
      assert PartAt(p, q, i + 1);
    }
  }

  lemma PartsFirst(p: seq<string>, q: seq<string>)
    requires p != [] && q != []
    ensures forall i :: 0 < i < |p| && i < |q| && PartAt(p, q, i) ==> p[0] == q[0]
  {
    forall i | 0 < i < |p| && i < |q| && PartAt(p, q, i) ensures p[0] == q[0] {
      assert p[..i][0] == p[0] && q[..i][0] == q[0];
    }
  }

  lemma NotLess(s: string)
    ensures !Less(s, s)
  {
  }
}
