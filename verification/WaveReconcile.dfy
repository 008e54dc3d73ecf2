/** The reconcile gate between a catalog's waves and the progress its spine reports:
    what the gates find, and when the first of them leave the others nothing. */
module WaveReconcile {

  import opened Common

  datatype Status = Done | ReadyForSignoff | Next | Pending

  datatype Wave = Wave(id: string, index: int)

  // The spine's stream; its status is in lower case.
  datatype Stream = Stream(total: Option<int>, done: int, ready: int, status: string)

  datatype Finding =
    | CountVsTotal
    | NotContiguous
    | OutOfBounds
    | QueueVsSpineDone(wave: string)
    | DoneCount(projected: nat)
    | ReadyCount(projected: nat)
    | NextCount(projected: nat)
    | HeadlineMissing(code: string)

  predicate Closed(status: string) {
    status == "closed" || status == "signed"
  }

  function Project(index: int, done: int, ready: int, status: string): Status {
    if index < done then Done
    else if index < done + ready then ReadyForSignoff
    else if Closed(status) then Done
    else if index == done + ready && status == "in_progress" then Next
    else Pending
  }

  // ---------- the spine's indices ----------

  function Range(n: nat): seq<int> {
    seq(n, i => i)
  }

  predicate Ascending(s: seq<int>) {
    forall i, j :: 0 <= i < j < |s| ==> s[i] <= s[j]
  }

  function Indices(waves: seq<Wave>): seq<int> {
    seq(|waves|, i requires 0 <= i < |waves| => waves[i].index)
  }

  // Each of 0 up to the waves' number is the index of one of them.
  ghost predicate Contiguous(waves: seq<Wave>) {
    multiset(Indices(waves)) == multiset(Range(|waves|))
  }

  // The last of an ascending sequence is its largest.
  lemma LastIsLargest(s: seq<int>, x: int)
    requires s != [] && Ascending(s) && x in multiset(s)
    ensures x <= s[|s|-1]
  {
    assert x in s;
  }

  lemma FrontOf(s: seq<int>)
    requires s != []
    ensures multiset(s[..|s|-1]) == multiset(s) - multiset{s[|s|-1]}
  {
    assert s == s[..|s|-1] + [s[|s|-1]];
  }

  lemma SameLast(s: seq<int>, t: seq<int>)
    requires s != [] && t != [] && Ascending(s) && Ascending(t) && multiset(s) == multiset(t)
    ensures s[|s|-1] == t[|t|-1] && multiset(s[..|s|-1]) == multiset(t[..|t|-1])
  {
    assert s[|s|-1] in multiset(s) && t[|t|-1] in multiset(t);
    LastIsLargest(t, s[|s|-1]);
    LastIsLargest(s, t[|t|-1]);
    FrontOf(s);
    FrontOf(t);
  }

  lemma {:induction false} OneAscending(s: seq<int>, t: seq<int>)
    requires Ascending(s) && Ascending(t) && multiset(s) == multiset(t)
    ensures s == t
    decreases |s|
  {
    if s == [] || t == [] {
      assert |multiset(s)| == |s| && |multiset(t)| == |t|;
    } else {
      var a, b := s[..|s|-1], t[..|t|-1];
      SameLast(s, t);
      OneAscending(a, b);
      assert s == a + [s[|s|-1]] && t == b + [t[|t|-1]];
    }
  }

  // Where x goes in an ascending sequence.
  method PlaceOf(r: seq<int>, x: int) returns (i: nat)
    requires Ascending(r)
    ensures i <= |r| && Ascending(r[..i] + [x] + r[i..])
  {
    i := |r|;
    while i > 0 && r[i - 1] > x
      invariant 0 <= i <= |r| && forall j :: i <= j < |r| ==> r[j] > x
    {
      i := i - 1;
    }
  }

  method Sorted(s: seq<int>) returns (r: seq<int>)
    ensures Ascending(r) && multiset(r) == multiset(s)
  {
    r := [];
    for n := 0 to |s|
      invariant Ascending(r) && multiset(r) == multiset(s[..n])
    {
      var i := PlaceOf(r, s[n]);
      Inserted(r, i, s[n]);
      assert s[..n + 1] == s[..n] + [s[n]];
      r := r[..i] + [s[n]] + r[i..];
    }
    assert s[..|s|] == s;
  }

  lemma Inserted(r: seq<int>, i: nat, x: int)
    requires i <= |r|
    ensures multiset(r[..i] + [x] + r[i..]) == multiset(r) + multiset{x}
  {
    assert r == r[..i] + r[i..];
  }

  // ---------- the projection ----------

  // The waves by id; of two with one id the later.
  function ById(waves: seq<Wave>): map<string, int> {
    if waves == [] then map[] else ById(waves[..|waves|-1])[waves[|waves|-1].id := waves[|waves|-1].index]
  }

  ghost predicate DistinctIds(waves: seq<Wave>) {
    forall i, j :: 0 <= i < j < |waves| ==> waves[i].id != waves[j].id
  }

  function Projected(waves: seq<Wave>, s: Stream): map<string, Status> {
    var spine := ById(waves);
    map w | w in spine :: Project(spine[w], s.done, s.ready, s.status)
  }

  function Count(projected: map<string, Status>, v: Status): nat {
    |set w | w in projected && projected[w] == v|
  }

  lemma {:induction false} ByIdHas(waves: seq<Wave>)
    ensures forall w :: w in ById(waves) <==> exists i :: 0 <= i < |waves| && waves[i].id == w
    ensures DistinctIds(waves) ==> forall i :: 0 <= i < |waves| ==> waves[i].id in ById(waves) && ById(waves)[waves[i].id] == waves[i].index
  {
    if waves != [] {
      var front := waves[..|waves|-1];
      ByIdHas(front);
      forall w | w in ById(waves) ensures exists i :: 0 <= i < |waves| && waves[i].id == w {
        if w in ById(front) {
          var i :| 0 <= i < |front| && front[i].id == w;
          assert waves[i].id == w;
        } else {
          assert waves[|waves|-1].id == w;
        }
      }
      forall i | 0 <= i < |waves| - 1 ensures waves[i].id in ById(front) {
        assert front[i].id == waves[i].id;
      }
    }
  }

  // The waves whose index is from a up to b.
  ghost function Between(spine: map<string, int>, a: int, b: int): set<string> {
    set w | w in spine && a <= spine[w] < b
  }

  // Each index up to n is that of exactly one wave.
  ghost predicate OneEach(spine: map<string, int>, n: nat) {
    && (forall w :: w in spine ==> 0 <= spine[w] < n)
    && (forall v, w :: v in spine && w in spine && spine[v] == spine[w] ==> v == w)
    && (forall k :: 0 <= k < n ==> HasIndex(spine, k))
  }

  ghost predicate HasIndex(spine: map<string, int>, k: int) {
    exists w :: w in spine && spine[w] == k
  }

  lemma IndicesInRange(waves: seq<Wave>, i: nat)
    requires Contiguous(waves) && i < |waves|
    ensures 0 <= waves[i].index < |waves|
  {
    RangeHas(|waves|);
    assert Indices(waves)[i] in multiset(Indices(waves));
  }

  lemma IndexOnce(waves: seq<Wave>, i: nat, j: nat)
    requires Contiguous(waves) && i < j < |waves|
    ensures waves[i].index != waves[j].index
  {
    RangeHas(|waves|);
    if waves[i].index == waves[j].index {
      Twice(Indices(waves), i, j);
      assert false;
    }
  }

  lemma IndexThere(waves: seq<Wave>, k: int) returns (i: nat)
    requires Contiguous(waves) && 0 <= k < |waves|
    ensures i < |waves| && waves[i].index == k
  {
    RangeHas(|waves|);
    assert k in multiset(Indices(waves));
    i :| 0 <= i < |waves| && Indices(waves)[i] == k;
  }

  lemma ContiguousIsOneEach(waves: seq<Wave>)
    requires DistinctIds(waves) && Contiguous(waves)
    ensures OneEach(ById(waves), |waves|)
  {
    var spine, n := ById(waves), |waves|;
    ByIdHas(waves);
    forall w | w in spine ensures 0 <= spine[w] < n {
      var i :| 0 <= i < n && waves[i].id == w;
      IndicesInRange(waves, i);
    }
    forall k | 0 <= k < n ensures HasIndex(spine, k) {
      var i := IndexThere(waves, k);
      assert waves[i].id in spine;
    }
    forall v, w | v in spine && w in spine && spine[v] == spine[w] ensures v == w {
      var i :| 0 <= i < n && waves[i].id == v;
      var j :| 0 <= j < n && waves[j].id == w;
      if i < j {
        IndexOnce(waves, i, j);
      } else if j < i {
        IndexOnce(waves, j, i);
      }
    }
  }

  lemma {:induction false} RangeHas(n: nat)
    ensures forall k :: multiset(Range(n))[k] == if 0 <= k < n then 1 else 0
  {
    if n > 0 {
      RangeHas(n - 1);
      assert Range(n) == Range(n - 1) + [n - 1];
    }
  }

  lemma Twice(s: seq<int>, i: nat, j: nat)
    requires i < j < |s| && s[i] == s[j]
    ensures multiset(s)[s[i]] >= 2
  {
    assert s == s[..j] + [s[j]] + s[j + 1..];
    assert s[i] in multiset(s[..j]) by { assert s[..j][i] == s[i]; }
  }

  lemma {:induction false} BetweenCount(spine: map<string, int>, n: nat, a: nat, b: nat)
    requires OneEach(spine, n) && a <= b <= n
    ensures |Between(spine, a, b)| == b - a
  {
    if a == b {
      assert Between(spine, a, b) == {};
    } else {
      BetweenCount(spine, n, a, b - 1);
      assert HasIndex(spine, b - 1);
      var w :| w in spine && spine[w] == b - 1;
      assert Between(spine, a, b) == Between(spine, a, b - 1) + {w};
    }
  }

  // ---------- the gates ----------

  // What the count, contiguity and bounds gates find.
  ghost predicate FirstGatesQuiet(waves: seq<Wave>, s: Stream) {
    && (waves != [] && s.total.Some? ==> |waves| == s.total.value)
    && (waves != [] ==> Contiguous(waves))
    && (s.total.Some? ==> s.done + s.ready <= s.total.value)
  }

  // What the queue and appendix gates find.
  ghost predicate LaterGatesQuiet(waves: seq<Wave>, s: Stream) {
    var spine, p := ById(waves), Projected(waves, s);
    waves != [] && !Closed(s.status) ==>
      && (forall w :: w in p && p[w] == Done ==> spine[w] < s.done)
      && Count(p, Done) == s.done && Count(p, ReadyForSignoff) == s.ready && Count(p, Next) <= 1
  }

  lemma ProjectedCounts(waves: seq<Wave>, s: Stream)
    requires !Closed(s.status)
    ensures var spine, p := ById(waves), Projected(waves, s);
            && (forall w :: w in p ==> (p[w] == Done <==> spine[w] < s.done))
            && (s.done >= 0 && s.ready >= 0 ==>
                  && (set w | w in p && p[w] == ReadyForSignoff) == Between(spine, s.done, s.done + s.ready)
                  && (set w | w in p && p[w] == Next) <= Between(spine, s.done + s.ready, s.done + s.ready + 1))
  {
  }

  lemma NextIsOne(waves: seq<Wave>, s: Stream)
    requires OneEach(ById(waves), |waves|) && !Closed(s.status) && s.done >= 0 && s.ready >= 0
    ensures Count(Projected(waves, s), Next) <= 1
  {
    var spine, p := ById(waves), Projected(waves, s);
    ProjectedCounts(waves, s);
    var next := set w | w in p && p[w] == Next;
    if w :| w in next {
      forall v | v in next ensures v == w {
        assert spine[v] == s.done + s.ready == spine[w];
      }
      assert next == {w};
    }
  }

  lemma DoneAndReady(waves: seq<Wave>, s: Stream)
    requires OneEach(ById(waves), |waves|) && !Closed(s.status) && s.done >= 0 && s.ready >= 0 && s.done + s.ready <= |waves|
    ensures Count(Projected(waves, s), Done) == s.done && Count(Projected(waves, s), ReadyForSignoff) == s.ready
  {
    var spine, p := ById(waves), Projected(waves, s);
    ProjectedCounts(waves, s);
    BetweenCount(spine, |waves|, 0, s.done);
    assert (set w | w in p && p[w] == Done) == Between(spine, 0, s.done);
    BetweenCount(spine, |waves|, s.done, s.done + s.ready);
  }

  /** Where the ids are distinct, the total is there and the first gates find
      nothing, the projected counts are the spine's and at most one wave is next,
      whatever the order of the list and the open status. */
  lemma CountsAreTheSpines(waves: seq<Wave>, s: Stream)
    requires waves != [] && DistinctIds(waves) && s.total.Some? && FirstGatesQuiet(waves, s)
    requires s.status != "closed" && s.status != "signed" && s.done >= 0 && s.ready >= 0
    ensures Count(Projected(waves, s), Done) == s.done
    ensures Count(Projected(waves, s), ReadyForSignoff) == s.ready
    ensures Count(Projected(waves, s), Next) <= 1
  {
    ContiguousIsOneEach(waves);
    DoneAndReady(waves, s);
    NextIsOne(waves, s);
  }

  /** What each wave is projected as, by its place alone: before the done ones' number
      done, the ready ones' number behind them ready, and of the rest done where the
      stream is closed, and the first next where it is in progress. */
  lemma ProjectedMeans(waves: seq<Wave>, s: Stream, i: nat)
    requires DistinctIds(waves) && i < |waves|
    ensures waves[i].id in Projected(waves, s)
    ensures var status, index := Projected(waves, s)[waves[i].id], waves[i].index;
            && (status == Done <==> index < s.done || (s.done + s.ready <= index && s.status in {"closed", "signed"}))
            && (status == ReadyForSignoff <==> s.done <= index < s.done + s.ready)
            && (status == Next <==> index == s.done + s.ready && s.ready >= 0 && s.status == "in_progress")
  {
    ByIdHas(waves);
  }

  // The places in the list whose wave is next.
  ghost function NextPlaces(waves: seq<Wave>, s: Stream): set<nat>
    requires forall i :: 0 <= i < |waves| ==> waves[i].id in Projected(waves, s)
  {
    set i | 0 <= i < |waves| && Projected(waves, s)[waves[i].id] == Next
  }

  /** One wave is next, the one behind the done and the ready, where the stream is in
      progress and has more; else none is. */
  lemma OneIsNext(waves: seq<Wave>, s: Stream)
    requires DistinctIds(waves) && Contiguous(waves)
    ensures forall i :: 0 <= i < |waves| ==> waves[i].id in Projected(waves, s)
    ensures if s.status == "in_progress" && s.ready >= 0 && 0 <= s.done + s.ready < |waves|
            then exists i :: 0 <= i < |waves| && waves[i].index == s.done + s.ready && NextPlaces(waves, s) == {i}
            else NextPlaces(waves, s) == {}
  {
    forall i | 0 <= i < |waves|
      ensures waves[i].id in Projected(waves, s)
      ensures Projected(waves, s)[waves[i].id] == Next <==>
                waves[i].index == s.done + s.ready && s.ready >= 0 && s.status == "in_progress"
      ensures 0 <= waves[i].index < |waves|
    {
      ProjectedMeans(waves, s, i);
      IndicesInRange(waves, i);
    }
    if s.status == "in_progress" && s.ready >= 0 && 0 <= s.done + s.ready < |waves| {
      var i := IndexThere(waves, s.done + s.ready);
      forall j | 0 <= j < |waves| && j != i ensures waves[j].index != waves[i].index {
        if i < j {
          IndexOnce(waves, i, j);
        } else {
          IndexOnce(waves, j, i);
        }
      }
      assert NextPlaces(waves, s) == {i};
    }
  }

  /** The headline is asked for the next wave's code: it is found missing exactly where
      a wave is next and the headline has not its code, where no ready count is negative. */
  lemma HeadlineNamesNext(waves: seq<Wave>, s: Stream, headlineCode: int -> string, headlineHas: string -> bool, code: string)
    requires DistinctIds(waves) && Contiguous(waves) && s.ready >= 0
    ensures Fires(HeadlineMissing(code), waves, s, Some(headlineCode), headlineHas) <==>
            exists i :: 0 <= i < |waves| && NextWith(waves, s, i, headlineCode, code) && !headlineHas(code)
  {
    forall i | 0 <= i < |waves| ensures NextWith(waves, s, i, headlineCode, code) <==>
              waves[i].index == s.done + s.ready && s.status == "in_progress" && code == headlineCode(waves[i].index)
    {
      ProjectedMeans(waves, s, i);
    }
    if 0 <= s.done + s.ready < |waves| {
      var i := IndexThere(waves, s.done + s.ready);
    }
    forall i | 0 <= i < |waves| ensures 0 <= waves[i].index < |waves| {
      IndicesInRange(waves, i);
    }
  }

  ghost predicate NextWith(waves: seq<Wave>, s: Stream, i: nat, headlineCode: int -> string, code: string)
    requires i < |waves|
  {
    var p := Projected(waves, s);
    waves[i].id in p && p[waves[i].id] == Next && code == headlineCode(waves[i].index)
  }

  /** The later gates find nothing then, exactly when neither count is negative. */
  lemma LaterGatesFindNothing(waves: seq<Wave>, s: Stream)
    requires waves != [] && DistinctIds(waves) && s.total.Some? && FirstGatesQuiet(waves, s)
    ensures LaterGatesQuiet(waves, s) <==> s.status == "closed" || s.status == "signed" || (s.done >= 0 && s.ready >= 0)
  {
    if !Closed(s.status) {
      ProjectedCounts(waves, s);
      if s.done >= 0 && s.ready >= 0 {
        CountsAreTheSpines(waves, s);
      }
    }
  }

  // When the check makes this finding.
  ghost predicate Fires(f: Finding, waves: seq<Wave>, s: Stream, headlineCode: Option<int -> string>, headlineHas: string -> bool) {
    var spine, p := ById(waves), Projected(waves, s);
    var open := waves != [] && !Closed(s.status);
    match f
    case CountVsTotal => waves != [] && s.total.Some? && |waves| != s.total.value
    case NotContiguous => waves != [] && !Contiguous(waves)
    case OutOfBounds => s.total.Some? && s.done + s.ready > s.total.value
    case QueueVsSpineDone(w) => open && w in p && p[w] == Done && spine[w] >= s.done
    case DoneCount(n) => open && n == Count(p, Done) && n != s.done
    case ReadyCount(n) => open && n == Count(p, ReadyForSignoff) && n != s.ready
    case NextCount(n) => open && n == Count(p, Next) && n > 1
    case HeadlineMissing(code) =>
      && waves != [] && s.status == "in_progress" && headlineCode.Some? && 0 <= s.done + s.ready < |waves|
      && code == headlineCode.value(s.done + s.ready) && !headlineHas(code)
  }

  predicate OfFirst(f: Finding) {
    f.CountVsTotal? || f.NotContiguous? || f.OutOfBounds?
  }

  predicate OfLater(f: Finding) {
    f.QueueVsSpineDone? || f.DoneCount? || f.ReadyCount? || f.NextCount?
  }

  /** The first gates find nothing exactly when they are quiet. */
  lemma FirstQuietIff(waves: seq<Wave>, s: Stream, headlineCode: Option<int -> string>, headlineHas: string -> bool)
    ensures FirstGatesQuiet(waves, s) <==> forall f :: OfFirst(f) ==> !Fires(f, waves, s, headlineCode, headlineHas)
  {
    if !FirstGatesQuiet(waves, s) {
      assert Fires(CountVsTotal, waves, s, headlineCode, headlineHas) || Fires(NotContiguous, waves, s, headlineCode, headlineHas)
             || Fires(OutOfBounds, waves, s, headlineCode, headlineHas);
    }
  }

  /** And so the later ones. */
  lemma LaterQuietIff(waves: seq<Wave>, s: Stream, headlineCode: Option<int -> string>, headlineHas: string -> bool)
    ensures LaterGatesQuiet(waves, s) <==> forall f :: OfLater(f) ==> !Fires(f, waves, s, headlineCode, headlineHas)
  {
    var p := Projected(waves, s);
    if !LaterGatesQuiet(waves, s) {
      if w :| w in p && p[w] == Done && ById(waves)[w] >= s.done {
        assert Fires(QueueVsSpineDone(w), waves, s, headlineCode, headlineHas);
      } else {
        assert Fires(DoneCount(Count(p, Done)), waves, s, headlineCode, headlineHas)
               || Fires(ReadyCount(Count(p, ReadyForSignoff)), waves, s, headlineCode, headlineHas)
               || Fires(NextCount(Count(p, Next)), waves, s, headlineCode, headlineHas);
      }
    }
  }

  /** The check, gate by gate. A status that is open is checked against the queue
      and the appendix; headlineCode is None where no headline is checked. */
  method CheckReconcile(waves: seq<Wave>, s: Stream, headlineCode: Option<int -> string>, headlineHas: string -> bool)
    returns (findings: seq<Finding>)
    ensures forall f :: f in findings <==> Fires(f, waves, s, headlineCode, headlineHas)
  {
    findings := FirstGates(waves, s, headlineCode, headlineHas);
    var later := LaterGates(waves, s, headlineCode, headlineHas);
    findings := findings + later;
    if waves != [] && s.status == "in_progress" && headlineCode.Some? {
      var active := s.done + s.ready;
      if 0 <= active < |waves| {
        var code := headlineCode.value(active);
        if !headlineHas(code) {
          findings := findings + [HeadlineMissing(code)];
        }
      }
    }
  }

  method FirstGates(waves: seq<Wave>, s: Stream, ghost headlineCode: Option<int -> string>, ghost headlineHas: string -> bool)
    returns (findings: seq<Finding>)
    ensures forall f :: f in findings <==> OfFirst(f) && Fires(f, waves, s, headlineCode, headlineHas)
  {
    findings := [];
    if waves != [] && s.total.Some? && |waves| != s.total.value {
      findings := findings + [CountVsTotal];
    }
    if waves != [] {
      var indices := Sorted(Indices(waves));
      RangeAscends(|waves|);
      if indices != Range(|waves|) {
        findings := findings + [NotContiguous];
      }
      if Contiguous(waves) {
        OneAscending(indices, Range(|waves|));
      }
    }
    if s.total.Some? && s.done + s.ready > s.total.value {
      findings := findings + [OutOfBounds];
    }
  }

  lemma RangeAscends(n: nat)
    ensures Ascending(Range(n))
  {
  }

  method LaterGates(waves: seq<Wave>, s: Stream, ghost headlineCode: Option<int -> string>, ghost headlineHas: string -> bool)
    returns (findings: seq<Finding>)
    ensures forall f :: f in findings <==> OfLater(f) && Fires(f, waves, s, headlineCode, headlineHas)
  {
    findings := [];
    if waves == [] {
      return;
    }
    var spine, projected := ById(waves), Projected(waves, s);
    findings := QueueGate(spine, projected, s);
    if !Closed(s.status) {
      var done, ready, next := Count(projected, Done), Count(projected, ReadyForSignoff), Count(projected, Next);
      if done != s.done {
        findings := findings + [DoneCount(done)];
      }
      if ready != s.ready {
        findings := findings + [ReadyCount(ready)];
      }
      if next > 1 {
        findings := findings + [NextCount(next)];
      }
    }
  }

  method QueueGate(spine: map<string, int>, projected: map<string, Status>, s: Stream) returns (findings: seq<Finding>)
    requires spine.Keys == projected.Keys
    ensures forall f :: f in findings <==>
              f.QueueVsSpineDone? && !Closed(s.status) && f.wave in projected && projected[f.wave] == Done && spine[f.wave] >= s.done
  {
    findings := [];
    var left := projected.Keys;
    while left != {}
      invariant left <= projected.Keys
      invariant forall f :: f in findings <==>
                  f.QueueVsSpineDone? && !Closed(s.status) && f.wave in projected.Keys - left
                  && projected[f.wave] == Done && spine[f.wave] >= s.done
      decreases |left|
    {
      var w :| w in left;
      left := left - {w};
      if projected[w] == Done && spine[w] >= s.done && !Closed(s.status) {
        findings := findings + [QueueVsSpineDone(w)];
      }
    }
  }
}
