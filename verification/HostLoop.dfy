/** The daemon's loop over a host's attempts: what Recover ends and looks at before
    anything is sent, and what stands in the way of the next claim. */
module HostLoop {
  import opened Common
  import opened Journal
  import opened Runs
  import opened Steps

  // What of an attempt's entry the loop goes by; onlyEnds: its hand-over has
  // nothing to send but the end.
  datatype Held = Held(phase: Phase, group: GroupState, onlyEnds: bool)

  function HeldOf(e: Entry): Held {
    Held(e.phase, e.group, e.phase.Submitted? || (e.unaltered && (e.phase.Lost? || (e.phase.Computed? && e.draft.prepared))))
  }

  // Left: the run of an exam or a bench record is ended.
  datatype Act = Left(record: string) | Look(id: string) | Send(id: string) | Claiming

  type Registry = map<string, Held>

  // The group may still run: it is ended, or looked at again, before anything else.
  predicate MayRun(e: Held) {
    e.phase.Early() || e.group == Remains || e.group == Unknown
  }

  // Never looked at, though its executor's end is known: the first pass leaves it.
  predicate PassedOver(e: Held) {
    e.group == NotLooked && !e.phase.Early()
  }

  // The second pass goes on with its hand-over.
  predicate TakenOver(e: Held) {
    !e.phase.Uncleared? && !e.phase.Unswept?
  }

  // Its takeover begins with a look at its group: it only ends it.
  predicate LooksItself(e: Held) {
    TakenOver(e) && e.onlyEnds
  }

  predicate Unclaimed(acts: seq<Act>) {
    forall i :: 0 <= i < |acts| ==> !acts[i].Claiming?
  }

  // What keeps the host from new work.
  ghost predicate Blocks(r: Registry, records: set<string>) {
    records != {} || exists id :: id in r && (r[id].group == Remains || r[id].group == Unknown)
  }

  // ---------- one pass ----------

  function Ends(records: seq<string>): seq<Act> {
    seq(|records|, i requires 0 <= i < |records| => Left(records[i]))
  }

  // The looks of the first pass, in its order.
  ghost function FirstLooks(r: Registry, order: seq<string>): seq<Act> {
    if |order| == 0 then []
    else
      var id := order[|order|-1];
      FirstLooks(r, order[..|order|-1]) + if id in r && MayRun(r[id]) then [Look(id)] else []
  }

  // What the takeover of id may have done so far; `waiting` is what may still wait
  // for its next try.
  ghost predicate Begun(r: Registry, id: string, part: seq<Act>) {
    && id in r
    && (forall i :: 0 <= i < |part| ==> part[i] == Look(id) || part[i] == Send(id))
    && (part != [] ==> TakenOver(r[id]))
    && (part != [] && PassedOver(r[id]) && LooksItself(r[id]) ==> part[0] == Look(id))
  }

  ghost predicate Part(r: Registry, waiting: set<string>, id: string, part: seq<Act>) {
    Begun(r, id, part) && (PassedOver(r[id]) && LooksItself(r[id]) && id !in waiting ==> part != [])
  }

  // The takeovers of order, one after the other, each come to its end.
  ghost predicate Through(r: Registry, waiting: set<string>, order: seq<string>, acts: seq<Act>) {
    if |order| == 0 then acts == []
    else exists n ::
      && 0 <= n <= |acts| && Through(r, waiting, order[..|order|-1], acts[..n])
      && Part(r, waiting, order[|order|-1], acts[n..])
  }

  // Those before k came to their end, and k's has begun.
  ghost predicate Stopped(r: Registry, waiting: set<string>, order: seq<string>, acts: seq<Act>, k: int, n: int) {
    && 0 <= k < |order| && 0 <= n <= |acts|
    && Through(r, waiting, order[..k], acts[..n]) && Begun(r, order[k], acts[n..])
  }

  ghost predicate Second(r: Registry, waiting: set<string>, order: seq<string>, acts: seq<Act>) {
    Through(r, waiting, order, acts) || exists k, n :: Stopped(r, waiting, order, acts, k, n)
  }

  // What a pass over the registry may have done, to its end or to where it stopped.
  ghost predicate Pass(r: Registry, waiting: set<string>, records: seq<string>, order: seq<string>, acts: seq<Act>) {
    var first := Ends(records) + FirstLooks(r, order);
    acts <= first || (first <= acts && Second(r, waiting, order, acts[|first|..]))
  }

  // ---------- what a pass keeps ----------

  lemma {:induction false} FirstLooksAre(r: Registry, order: seq<string>, id: string)
    ensures Look(id) in FirstLooks(r, order) <==> id in order && id in r && MayRun(r[id])
    ensures forall i :: 0 <= i < |FirstLooks(r, order)| ==> FirstLooks(r, order)[i].Look?
  {
    if |order| > 0 {
      FirstLooksAre(r, order[..|order|-1], id);
      assert order == order[..|order|-1] + [order[|order|-1]];
    }
  }

  lemma {:induction false} FirstLooksPrefix(r: Registry, order: seq<string>, n: nat)
    requires n <= |order|
    ensures FirstLooks(r, order[..n]) <= FirstLooks(r, order)
  {
    if n < |order| {
      FirstLooksPrefix(r, order[..|order|-1], n);
      assert order[..|order|-1][..n] == order[..n];
    } else {
      assert order[..n] == order;
    }
  }

  // All of these, where their group may run, are looked at.
  ghost predicate AllLooked(r: Registry, order: seq<string>, acts: seq<Act>) {
    forall id :: id in order && id in r && AskedFor(r[id]) ==> Look(id) in acts
  }

  // Launching or running when agentd stopped, or with a group that is not known gone
  // though somebody looked.
  predicate AskedFor(e: Held) {
    e.phase == Launching || e.phase == Running || e.group == Remains || e.group == Unknown
  }

  ghost predicate AllLeft(records: seq<string>, acts: seq<Act>) {
    forall x :: x in records ==> Left(x) in acts
  }

  lemma FirstIsAll(r: Registry, records: seq<string>, order: seq<string>, acts: seq<Act>)
    requires Ends(records) + FirstLooks(r, order) <= acts
    ensures AllLooked(r, order, acts) && AllLeft(records, acts)
  {
    var ends, looks := Ends(records), FirstLooks(r, order);
    forall id | id in order && id in r && AskedFor(r[id]) ensures Look(id) in acts {
      FirstLooksAre(r, order, id);
      var i :| 0 <= i < |looks| && looks[i] == Look(id);
      assert acts[|ends| + i] == Look(id);
    }
    forall x | x in records ensures Left(x) in acts {
      var i :| 0 <= i < |records| && records[i] == x;
      assert ends[i] == Left(x) && acts[i] == ends[i];
    }
  }

  // Nothing is sent in the first pass, or before it.
  lemma FirstSendsNothing(r: Registry, records: seq<string>, order: seq<string>, acts: seq<Act>, m: nat)
    requires acts <= Ends(records) + FirstLooks(r, order) && m < |acts|
    ensures !acts[m].Send? && !acts[m].Claiming?
  {
    FirstLooksAre(r, order, "");
    var first := Ends(records) + FirstLooks(r, order);
    assert acts[m] == first[m];
    if m >= |records| {
      assert first[m] == FirstLooks(r, order)[m - |records|];
    }
  }

  /** Whatever a pass sends, by then it has ended every record's run and looked at
      every group that may run. */
  lemma LooksFirst(r: Registry, waiting: set<string>, records: seq<string>, order: seq<string>, acts: seq<Act>, m: nat)
    requires Pass(r, waiting, records, order, acts) && m < |acts| && acts[m].Send?
    ensures AllLooked(r, order, acts[..m]) && AllLeft(records, acts[..m])
    ensures m >= |Ends(records) + FirstLooks(r, order)|
  {
    var first := Ends(records) + FirstLooks(r, order);
    if acts <= first {
      FirstSendsNothing(r, records, order, acts, m);
    } else {
      if m < |first| {
        assert first[m] == acts[m];
        FirstSendsNothing(r, records, order, first, m);
      }
      FirstIsAll(r, records, order, acts[..m]);
    }
  }

  lemma {:induction false} ThroughSends(r: Registry, waiting: set<string>, order: seq<string>, acts: seq<Act>, m: nat)
    requires Through(r, waiting, order, acts) && m < |acts| && acts[m].Send?
    ensures MaySendFor(r, acts[m].id)
  {
    var l := |order| - 1;
    var n :| 0 <= n <= |acts| && Through(r, waiting, order[..l], acts[..n]) && Part(r, waiting, order[l], acts[n..]);
    if m < n {
      ThroughSends(r, waiting, order[..l], acts[..n], m);
    } else {
      assert acts[n..][m - n] == acts[m];
    }
  }

  // The hand-over of this attempt is not over.
  ghost predicate MaySendFor(r: Registry, id: string) {
    id in r && r[id].phase != Uncleared && r[id].phase != Unswept
  }

  /** A pass sends for no attempt whose hand-over is over and waits but for its group
      or its workspace. */
  lemma NoneForOver(r: Registry, waiting: set<string>, records: seq<string>, order: seq<string>, acts: seq<Act>, m: nat)
    requires Pass(r, waiting, records, order, acts) && m < |acts| && acts[m].Send?
    ensures MaySendFor(r, acts[m].id)
  {
    LooksFirst(r, waiting, records, order, acts, m);
    var f := |Ends(records) + FirstLooks(r, order)|;
    var second, i := acts[f..], m - f;
    assert second[i] == acts[m];
    if Through(r, waiting, order, second) {
      ThroughSends(r, waiting, order, second, i);
    } else {
      var k, n :| Stopped(r, waiting, order, second, k, n);
      if i < n {
        ThroughSends(r, waiting, order[..k], second[..n], i);
      } else {
        assert second[n..][i - n] == second[i];
      }
    }
  }

  /** Of an attempt whose result is prepared and is to be handed in, or was: it only
      ends exactly when no request may be sent for it. */
  lemma OnlyEndsIff(e: Entry)
    requires e.draft.prepared && (e.phase.Computed? || e.phase.Lost? || e.phase.Submitting? || e.phase.Submitted?)
    ensures HeldOf(e).onlyEnds <==> forall s, q :: !MaySend(s, e, q)
  {
    if !HeldOf(e).onlyEnds {
      assert MaySend(Start, e, if e.phase.Computed? then Persist(e.draft.result) else if e.phase.Lost? then Salvage(e.draft.result) else Submit);
    }
  }

  // ---------- when every group is known first ----------

  // Each group is known gone or looked at before the first request.
  ghost predicate KnownFirst(r: Registry, order: seq<string>, acts: seq<Act>) {
    forall m :: 0 <= m < |acts| && acts[m].Send? ==>
      forall id :: id in order && id in r ==> r[id].group == Cleared || Look(id) in acts[..m]
  }

  // Nothing is taken over before an attempt that was passed over, and that one begins
  // with a look of its own, now.
  ghost predicate PassedOverFirst(r: Registry, waiting: set<string>, order: seq<string>) {
    forall i, j :: 0 <= i < |order| && 0 <= j < |order| && order[i] in r && order[j] in r ==>
      Covered(r, waiting, order[i], i, order[j], j)
  }

  // A request of y's, at j, comes after a look at x, at i.
  ghost predicate Covered(r: Registry, waiting: set<string>, x: string, i: int, y: string, j: int)
    requires x in r && y in r
  {
    PassedOver(r[x]) && TakenOver(r[y]) ==> LooksItself(r[x]) && (j == i || (i < j && x !in waiting))
  }

  // An attempt whose takeover came to its end and looks first was looked at.
  lemma {:induction false} ThroughLooks(r: Registry, waiting: set<string>, order: seq<string>, acts: seq<Act>, i: nat)
    requires Through(r, waiting, order, acts) && i < |order| && order[i] in r
    requires PassedOver(r[order[i]]) && LooksItself(r[order[i]]) && order[i] !in waiting
    ensures Look(order[i]) in acts
  {
    var l := |order| - 1;
    var n :| 0 <= n <= |acts| && Through(r, waiting, order[..l], acts[..n]) && Part(r, waiting, order[l], acts[n..]);
    if i == l {
      assert acts[n..][0] == acts[n];
    } else {
      ThroughLooks(r, waiting, order[..l], acts[..n], i);
    }
  }

  // All that is taken over in order is covered, wherever x, at i, stands.
  ghost predicate CoveredAll(r: Registry, waiting: set<string>, order: seq<string>, x: string, i: nat) {
    && x in r && PassedOver(r[x]) && (i < |order| ==> order[i] == x)
    && forall j :: 0 <= j < |order| && order[j] in r ==> Covered(r, waiting, x, i, order[j], j)
  }

  // A request of the takeover begun at n comes after a look at x.
  lemma BegunKnown(r: Registry, waiting: set<string>, order: seq<string>, acts: seq<Act>, k: nat, n: nat, m: nat, x: string, i: nat)
    requires Stopped(r, waiting, order, acts, k, n) && n <= m < |acts| && acts[m].Send? && CoveredAll(r, waiting, order, x, i)
    ensures Look(x) in acts[..m]
  {
    assert acts[n..][m - n] == acts[m];
    assert Covered(r, waiting, x, i, order[k], k);
    if i == k {
      assert acts[n..][0] == acts[n] == Look(x);
      assert acts[..m][n] == acts[n];
    } else {
      ThroughLooks(r, waiting, order[..k], acts[..n], i);
      var a :| 0 <= a < n && acts[..n][a] == Look(x);
      assert acts[..m][a] == Look(x);
    }
  }

  lemma {:induction false} ThroughKnown(r: Registry, waiting: set<string>, order: seq<string>, acts: seq<Act>, m: nat, x: string, i: nat)
    requires Through(r, waiting, order, acts) && m < |acts| && acts[m].Send? && CoveredAll(r, waiting, order, x, i)
    ensures Look(x) in acts[..m]
  {
    var l := |order| - 1;
    var n :| 0 <= n <= |acts| && Through(r, waiting, order[..l], acts[..n]) && Part(r, waiting, order[l], acts[n..]);
    if m < n {
      ThroughKnown(r, waiting, order[..l], acts[..n], m, x, i);
      assert acts[..n][..m] == acts[..m];
    } else {
      BegunKnown(r, waiting, order, acts, l, n, m, x, i);
    }
  }

  lemma SecondKnown(r: Registry, waiting: set<string>, order: seq<string>, acts: seq<Act>, m: nat, x: string, i: nat)
    requires Second(r, waiting, order, acts) && m < |acts| && acts[m].Send? && CoveredAll(r, waiting, order, x, i)
    ensures Look(x) in acts[..m]
  {
    if Through(r, waiting, order, acts) {
      ThroughKnown(r, waiting, order, acts, m, x, i);
    } else {
      var k, n :| Stopped(r, waiting, order, acts, k, n);
      if m < n {
        ThroughKnown(r, waiting, order[..k], acts[..n], m, x, i);
        assert acts[..n][..m] == acts[..m];
      } else {
        BegunKnown(r, waiting, order, acts, k, n, m, x, i);
      }
    }
  }

  lemma PassKnown(r: Registry, waiting: set<string>, records: seq<string>, order: seq<string>, acts: seq<Act>)
    requires PassedOverFirst(r, waiting, order) && Pass(r, waiting, records, order, acts)
    ensures KnownFirst(r, order, acts)
  {
    forall m, id | 0 <= m < |acts| && acts[m].Send? && id in order && id in r
      ensures r[id].group == Cleared || Look(id) in acts[..m]
    {
      LooksFirst(r, waiting, records, order, acts, m);
      if PassedOver(r[id]) {
        var i :| 0 <= i < |order| && order[i] == id;
        var f := |Ends(records) + FirstLooks(r, order)|;
        assert acts[f..][m - f] == acts[m];
        SecondKnown(r, waiting, order, acts[f..], m - f, id, i);
        var a :| 0 <= a < m - f && acts[f..][..m-f][a] == Look(id);
        assert acts[..m][f + a] == Look(id);
      }
    }
  }

  // ---------- and when not ----------

  predicate Distinct(order: seq<string>) {
    forall i, j :: 0 <= i < j < |order| ==> order[i] != order[j]
  }

  // The least each takeover of order does.
  lemma {:induction false} LeastThrough(r: Registry, waiting: set<string>, order: seq<string>, x: string) returns (acts: seq<Act>)
    requires forall id :: id in order ==> id in r
    requires x in order ==> !LooksItself(r[x]) || x in waiting
    ensures Through(r, waiting, order, acts) && Look(x) !in acts
  {
    if |order| == 0 {
      return [];
    }
    var l := |order| - 1;
    var id := order[l];
    assert order == order[..l] + [id];
    var before := LeastThrough(r, waiting, order[..l], x);
    var part := if PassedOver(r[id]) && LooksItself(r[id]) && id !in waiting then [Look(id)] else [];
    acts := before + part;
    assert acts[..|before|] == before && acts[|before|..] == part;
  }

  // A takeover of order[j] that sends, with no look at x before.
  lemma SendsUnlooked(r: Registry, waiting: set<string>, order: seq<string>, j: nat, x: string) returns (acts: seq<Act>)
    requires (forall id :: id in order ==> id in r) && j < |order| && TakenOver(r[order[j]])
    requires x in order[..j] ==> !LooksItself(r[x]) || x in waiting
    requires order[j] == x ==> !LooksItself(r[x])
    ensures Second(r, waiting, order, acts) && Look(x) !in acts && |acts| > 0 && acts[|acts|-1].Send?
  {
    var id := order[j];
    var before := LeastThrough(r, waiting, order[..j], x);
    var part := if PassedOver(r[id]) && LooksItself(r[id]) then [Look(id), Send(id)] else [Send(id)];
    acts := before + part;
    assert acts[..|before|] == before && acts[|before|..] == part;
    assert Stopped(r, waiting, order, acts, j, |before|);
  }

  lemma PassUnknown(r: Registry, waiting: set<string>, records: seq<string>, order: seq<string>, i: nat, j: nat)
    returns (acts: seq<Act>)
    requires Distinct(order) && (forall id :: id in order ==> id in r) && i < |order| && j < |order|
    requires !Covered(r, waiting, order[i], i, order[j], j)
    ensures Pass(r, waiting, records, order, acts) && !KnownFirst(r, order, acts)
  {
    var x := order[i];
    var second := SendsUnlooked(r, waiting, order, j, x);
    var first := Ends(records) + FirstLooks(r, order);
    acts := first + second;
    assert acts[|first|..] == second;
    FirstLooksAre(r, order, x);
    var m := |acts| - 1;
    assert acts[m] == second[|second|-1];
    assert Look(x) !in acts;
    forall a | 0 <= a < m ensures acts[..m][a] != Look(x) {
      assert acts[..m][a] == acts[a];
    }
    assert x in order && r[x].group == NotLooked && Look(x) !in acts[..m];
  }

  /** In every pass each group is known gone or looked at before any request, exactly
      when nothing is taken over but attempts after those passed over, and those
      themselves, which must begin with a look: an attempt is passed over when its
      group was never looked at and its executor's end is known. */
  lemma KnownFirstIff(r: Registry, waiting: set<string>, records: seq<string>, order: seq<string>)
    requires Distinct(order) && (forall id :: id in order ==> id in r)
    ensures PassedOverFirst(r, waiting, order) <==>
              forall acts: seq<Act> :: Pass(r, waiting, records, order, acts) ==> KnownFirst(r, order, acts)
  {
    if PassedOverFirst(r, waiting, order) {
      forall acts: seq<Act> | Pass(r, waiting, records, order, acts) ensures KnownFirst(r, order, acts) {
        PassKnown(r, waiting, records, order, acts);
      }
    } else {
      var i, j :| 0 <= i < |order| && 0 <= j < |order| && order[i] in r && order[j] in r
                  && !Covered(r, waiting, order[i], i, order[j], j);
      var acts := PassUnknown(r, waiting, records, order, i, j);
    }
  }

  lemma ThroughNext(r: Registry, waiting: set<string>, order: seq<string>, n: nat, done: seq<Act>, part: seq<Act>)
    requires n < |order| && Through(r, waiting, order[..n], done) && Part(r, waiting, order[n], part)
    ensures Through(r, waiting, order[..n+1], done + part)
  {
    assert order[..n+1][..n] == order[..n];
    assert (done + part)[..|done|] == done && (done + part)[|done|..] == part;
  }

  lemma StoppedAfter(r: Registry, waiting: set<string>, order: seq<string>, n: nat, done: seq<Act>, part: seq<Act>)
    requires n < |order| && Through(r, waiting, order[..n], done) && Begun(r, order[n], part)
    ensures Second(r, waiting, order, done + part)
  {
    assert (done + part)[..|done|] == done && (done + part)[|done|..] == part;
    assert Stopped(r, waiting, order, done + part, n, |done|);
  }

  lemma Passed(r: Registry, waiting: set<string>, records: seq<string>, order: seq<string>, first: seq<Act>, second: seq<Act>)
    requires first == Ends(records) + FirstLooks(r, order) && Second(r, waiting, order, second)
    ensures Pass(r, waiting, records, order, first + second)
  {
    assert (first + second)[|first|..] == second;
  }

  // ---------- such an attempt is left by a run ----------

  // And stopped then.
  lemma LaunchCancelled(claim: Claim) returns (t: Run)
    requires claim.Launches()
    ensures Going(t) && NeverLooked(t.h) && t.s.disk == Some(Cancelling(Recorded(claim)))
  {
    var launched := Launched(claim);
    StartingCancelled(launched.s, Recorded(claim));
    t := Writes(launched, Recorded(claim), Cancelling(Recorded(claim)));
  }

  /** A launch stopped once its group was recorded leaves an attempt that is passed
      over: it does not block the host, and after a restart its computed request goes
      out though nobody ever looked at its group. */
  lemma PassedOverIsLeft(claim: Claim) returns (h: seq<Event>, e: Entry)
    requires claim.Launches() && !(claim.implement && claim.branch)
    ensures Legal(h) && Disk(h) == Some(e) && e.claim == claim && e.launched && PassedOver(HeldOf(e))
    ensures !Blocks(map[claim.attempt := HeldOf(e)], {})
    ensures Legal(h + [Opened(claim.repo), Sent(Compute(e.exit.code, e.exit.how, e.exit.conclusion))])
    ensures NeverLooked(h)
  {
    var left := LaunchCancelled(claim);
    h, e := left.h, Cancelling(Recorded(claim));
    KeptMeans(left.h, left.s, left.checkout, Anything);
    ComputesAgain(left, e);
  }

  lemma ComputesAgain(r: Run, e: Entry)
    requires Going(r) && r.s.disk == Some(e) && e.phase.Exited? && !e.exit.setupFailed
    requires e.exit.conclusion == NoConclusion && !e.Implementation()
    ensures Legal(r.h + [Opened(e.claim.repo), Sent(Compute(e.exit.code, e.exit.how, e.exit.conclusion))])
  {
    var q := Compute(e.exit.code, e.exit.how, e.exit.conclusion);
    KeptOpened(r.h, r.s, r.checkout, Anything, e.claim.repo);
    var h := r.h + [Opened(e.claim.repo)];
    KeptMeans(h, Apply(r.s, Opened(e.claim.repo)), e.claim.repo, Told(false, false));
    assert r.h + [Opened(e.claim.repo), Sent(q)] == h + [Sent(q)];
    assert (h + [Sent(q)])[..|h|] == h;
  }

  // ---------- the loop ----------

  ghost predicate SameAt(r: Registry, q: Registry, id: string) {
    (id in r <==> id in q) && (id in r ==> r[id] == q[id])
  }

  // What a pass may make of an entry: it is ended, and not passed over anew.
  ghost predicate Tended(r: Registry, q: Registry, id: string) {
    id in q ==> id in r && !q[id].phase.Early() && (PassedOver(q[id]) ==> PassedOver(r[id]))
  }

  // What the first pass makes of it: one passed over stays as it was.
  ghost predicate Readied(r: Registry, q: Registry, id: string) {
    && Tended(r, q, id)
    && (id in q && TakenOver(q[id]) ==> TakenOver(r[id]))
    && (id in q && PassedOver(q[id]) ==> q[id] == r[id])
    && (id in r && PassedOver(r[id]) && TakenOver(r[id]) ==> id in q && q[id] == r[id])
  }

  // The second pass came to n: q is the registry now, which was start before it, and r
  // before the first.
  ghost predicate Midway(r: Registry, start: Registry, q: Registry, was: set<string>, waiting: set<string>, ids: seq<string>, n: int) {
    && (forall i :: 0 <= i < |ids| ==> Tended(r, q, ids[i]))
    && (forall i :: 0 <= n <= i < |ids| ==> Readied(r, q, ids[i]) && (ids[i] in waiting ==> ids[i] in was))
    && (forall id :: id !in ids ==> SameAt(start, q, id))
  }

  lemma MidwayOn(r: Registry, start: Registry, p: Registry, q: Registry, was: set<string>, due: set<string>, waiting: set<string>,
                 ids: seq<string>, n: nat)
    requires n < |ids| && Distinct(ids) && Midway(r, start, p, was, due, ids, n) && Tended(r, q, ids[n])
    requires forall j :: j != ids[n] ==> SameAt(p, q, j) && (j in waiting <==> j in due)
    ensures Midway(r, start, q, was, waiting, ids, n + 1)
  {
    forall i | 0 <= i < |ids| ensures Tended(r, q, ids[i]) {
      assert i != n ==> SameAt(p, q, ids[i]);
    }
    forall i | n + 1 <= i < |ids| ensures Readied(r, q, ids[i]) && (ids[i] in waiting ==> ids[i] in was) {
      assert SameAt(p, q, ids[i]);
    }
    forall id | id !in ids ensures SameAt(start, q, id) {
      assert SameAt(p, q, id);
    }
  }

  lemma PassesTend(r: Registry, p: Registry, q: Registry, ids: seq<string>, live: set<string>)
    requires forall id :: id in ids <==> id in r && id !in live
    requires forall id :: id in ids ==> Tended(r, q, id)
    requires forall id :: id !in ids ==> SameAt(r, p, id) && SameAt(p, q, id)
    ensures forall id :: id !in live ==> Tended(r, q, id)
    ensures forall id :: id in live ==> SameAt(r, q, id)
  {
    forall id | id !in ids ensures SameAt(r, q, id) {
      assert SameAt(r, p, id) && SameAt(p, q, id);
    }
    forall id | id !in live ensures Tended(r, q, id) {
      assert id !in ids ==> SameAt(r, q, id);
    }
  }

  class Host {
    var entries: Registry      // the registry
    var records: set<string>   // of exam and bench runs cut short
    var live: set<string>      // the attempts this process runs now
    var waiting: set<string>   // the attempts whose next try is not due
    var acts: seq<Act>         // what this process did

    constructor (entries: Registry, records: set<string>)
      ensures this.entries == entries && this.records == records && live == {} && waiting == {} && acts == []
    {
      this.entries, this.records, live, waiting, acts := entries, records, {}, {}, [];
    }

    // One look at a group, after ending it.
    method LookAt(id: string) returns (g: GroupState)
      modifies this`acts
      ensures acts == old(acts) + [Look(id)] && g != NotLooked
    {
      acts := acts + [Look(id)];
      g := *;
      if g == NotLooked {
        g := Cleared;
      }
    }

    // Ends what each record names; a record goes once nothing of its run is left.
    method EndRecords(left: seq<string>)
      modifies this`acts, this`records
      ensures acts == old(acts) + Ends(left) && records <= old(records)
    {
      for n := 0 to |left|
        invariant acts == old(acts) + Ends(left[..n]) && records <= old(records)
      {
        acts := acts + [Left(left[n])];
        assert Ends(left[..n+1]) == Ends(left[..n]) + [Left(left[n])];
        var gone: bool := *;
        if gone {
          records := records - {left[n]};
        }
      }
      assert left[..|left|] == left;
    }

    // One entry in the first pass; not ok: the registry cannot be used.
    method First(id: string) returns (ok: bool)
      requires id in entries
      modifies this`acts, this`entries
      ensures acts == old(acts) + if MayRun(old(entries)[id]) then [Look(id)] else []
      ensures forall j :: j != id ==> SameAt(old(entries), entries, j)
      ensures ok ==> Readied(old(entries), entries, id)
    {
      var e := entries[id];
      var swept: bool := *;
      ok := *;
      if !MayRun(e) {
        if e.phase.Unswept? && swept && ok {
          entries := entries - {id};
        }
        return;
      }
      var g := LookAt(id);
      if !ok {
        return;
      }
      if e.phase.Uncleared? && g == Cleared {
        entries := if swept then entries - {id} else entries[id := Held(Unswept, g, e.onlyEnds)];
      } else {
        entries := entries[id := Held(if e.phase.Early() then Restarted else e.phase, g, e.onlyEnds)];
      }
    }

    method FirstPass(ids: seq<string>) returns (ok: bool)
      requires Distinct(ids) && forall id :: id in ids ==> id in entries
      modifies this`acts, this`entries
      ensures old(acts) <= acts && acts[|old(acts)|..] <= FirstLooks(old(entries), ids)
      ensures ok ==> acts == old(acts) + FirstLooks(old(entries), ids)
      ensures ok ==> forall id :: id in ids ==> Readied(old(entries), entries, id)
      ensures forall id :: id !in ids ==> SameAt(old(entries), entries, id)
    {
      ok := true;
      for n := 0 to |ids|
        invariant ok && acts == old(acts) + FirstLooks(old(entries), ids[..n])
        invariant forall i :: 0 <= i < n ==> Readied(old(entries), entries, ids[i])
        invariant forall i :: n <= i < |ids| ==> SameAt(old(entries), entries, ids[i])
        invariant forall id :: id !in ids ==> SameAt(old(entries), entries, id)
      {
        assert ids[n] in ids && SameAt(old(entries), entries, ids[n]);
        ghost var before := entries;
        ok := First(ids[n]);
        assert ids[..n+1][..n] == ids[..n];
        FirstLooksPrefix(old(entries), ids, n + 1);
        forall id | id != ids[n] ensures SameAt(before, entries, id) && (SameAt(old(entries), before, id) ==> SameAt(old(entries), entries, id)) {
        }
        if !ok {
          return;
        }
        forall i | 0 <= i < n ensures Readied(old(entries), entries, ids[i]) {
          assert SameAt(before, entries, ids[i]);
        }
      }
      assert ids[..|ids|] == ids;
    }

    // One takeover: what it does it does to its own attempt. One that only ends it
    // looks first, where nobody has yet.
    method TakeOver(id: string) returns (ok: bool)
      requires id in entries && TakenOver(entries[id]) && !entries[id].phase.Early()
      modifies this`acts, this`entries
      ensures old(acts) <= acts && Part(old(entries), {}, id, acts[|old(acts)|..])
      ensures forall j :: j != id ==> SameAt(old(entries), entries, j)
      ensures Tended(old(entries), entries, id)
    {
      var looks: bool, more: nat, next: Held := *, *, *;
      var g := entries[id].group;
      if g == NotLooked && entries[id].onlyEnds {
        g := LookAt(id);
      }
      while more > 0
        invariant old(acts) <= acts && Part(old(entries), {}, id, acts[|old(acts)|..]) && entries == old(entries)
        invariant g != NotLooked || g == entries[id].group
      {
        if looks {
          g := LookAt(id);
        } else {
          acts := acts + [Send(id)];
        }
        looks, more := *, more - 1;
      }
      var kept: bool := *;
      if !kept {
        entries := entries - {id};
      } else if !next.phase.Early() {
        entries := entries[id := next.(group := g)];
      }
      ok := *;
    }

    // One attempt's turn in the second pass: skipped, or taken over.
    method Next(id: string, ghost r: Registry, ghost was: set<string>) returns (ok: bool, ghost part: seq<Act>)
      requires id in r && Readied(r, entries, id) && (id in waiting ==> id in was)
      modifies this`acts, this`entries, this`waiting
      ensures acts == old(acts) + part && Part(r, was, id, part)
      ensures Tended(r, entries, id)
      ensures forall j :: j != id ==> SameAt(old(entries), entries, j) && (j in waiting <==> j in old(waiting))
    {
      var due: bool := *;
      ok, part := true, [];
      if due {
        waiting := waiting - {id};
      }
      if id in entries && TakenOver(entries[id]) && id !in waiting {
        var failed: bool := *;
        ok := TakeOver(id);
        part := acts[|old(acts)|..];
        if failed {
          waiting := waiting + {id};
        }
      }
    }

    method SecondPass(ids: seq<string>, ghost r: Registry) returns (ok: bool)
      requires Distinct(ids) && forall id :: id in ids ==> id in r && Readied(r, entries, id)
      modifies this`acts, this`entries, this`waiting
      ensures old(acts) <= acts && Second(r, old(waiting), ids, acts[|old(acts)|..])
      ensures forall id :: id in ids ==> Tended(r, entries, id)
      ensures forall id :: id !in ids ==> SameAt(old(entries), entries, id)
    {
      ok := true;
      ghost var done: seq<Act> := [];
      for n := 0 to |ids|
        invariant acts == old(acts) + done && Through(r, old(waiting), ids[..n], done)
        invariant Midway(r, old(entries), entries, old(waiting), waiting, ids, n)
      {
        assert ids[n] in ids;
        ghost var before, due, part := entries, waiting, [];
        ok, part := Next(ids[n], r, old(waiting));
        MidwayOn(r, old(entries), before, entries, old(waiting), due, waiting, ids, n);
        ThroughNext(r, old(waiting), ids, n, done, part);
        var stopped: bool := *;
        if !ok || stopped {
          StoppedAfter(r, old(waiting), ids, n, done, part);
          assert acts[|old(acts)|..] == done + part;
          return;
        }
        done := done + part;
      }
      assert ids[..|ids|] == ids && acts[|old(acts)|..] == done;
    }

    /** One pass of the loop over records and entries, in the order of the relation
        above; not ok: the registry could not be used. */
    method Recover(left: seq<string>, ids: seq<string>) returns (ok: bool)
      requires Distinct(ids) && forall id :: id in ids <==> id in entries && id !in live
      requires forall x :: x in left <==> x in records
      modifies this`acts, this`entries, this`records, this`waiting
      ensures old(acts) <= acts && Pass(old(entries), old(waiting), left, ids, acts[|old(acts)|..])
      ensures ok ==> Ends(left) + FirstLooks(old(entries), ids) <= acts[|old(acts)|..]
      ensures ok ==> forall id :: id !in live ==> Tended(old(entries), entries, id)
      ensures forall id :: id in live ==> SameAt(old(entries), entries, id)
      ensures records <= old(records)
    {
      ok := *;
      ghost var done: seq<Act> := [];
      if ok {
        EndRecords(left);
        ok, done := Passes(ids, left);
        done := Ends(left) + done;
      }
      assert acts[|old(acts)|..] == done;
    }

    // Both passes, once what the records name was ended.
    method Passes(ids: seq<string>, ghost left: seq<string>) returns (ok: bool, ghost done: seq<Act>)
      requires Distinct(ids) && forall id :: id in ids <==> id in entries && id !in live
      modifies this`acts, this`entries, this`waiting
      ensures acts == old(acts) + done && Pass(old(entries), old(waiting), left, ids, Ends(left) + done)
      ensures ok ==> FirstLooks(old(entries), ids) <= done
      ensures ok ==> forall id :: id !in live ==> Tended(old(entries), entries, id)
      ensures forall id :: id in live ==> SameAt(old(entries), entries, id)
    {
      ghost var r := old(entries);
      ok := FirstPass(ids);
      done := acts[|old(acts)|..];
      if ok {
        ghost var pass, middle := acts, entries;
        ok := SecondPass(ids, r);
        ghost var second := acts[|pass|..];
        Passed(r, old(waiting), left, ids, Ends(left) + done, second);
        assert Ends(left) + (done + second) == Ends(left) + done + second;
        done := done + second;
        PassesTend(r, middle, entries, ids, live);
      }
    }

    /** Names an attempt whose group remains or is unknown, or else a record still
        there. */
    method Blocked() returns (what: string, blocked: bool)
      ensures blocked <==> Blocks(entries, records)
    {
      var left := entries.Keys;
      while left != {}
        invariant left <= entries.Keys
        invariant forall j :: j in entries && j !in left ==> entries[j].group != Remains && entries[j].group != Unknown
        decreases |left|
      {
        what :| what in left;
        if entries[what].group == Remains || entries[what].group == Unknown {
          return what, true;
        }
        left := left - {what};
      }
      if records != {} {
        what :| what in records;
        return what, true;
      }
      return "", false;
    }

    /** One turn of the daemon's loop, after which it may have claimed: then nothing
        blocked it, and of the attempts not running here none but one passed over
        before had a group not known to be gone. */
    method Turn(left: seq<string>, ids: seq<string>) returns (claimed: bool)
      requires Distinct(ids) && forall id :: id in ids <==> id in entries && id !in live
      requires forall x :: x in left <==> x in records
      modifies this`acts, this`entries, this`records, this`waiting
      ensures old(acts) <= acts
      ensures claimed <==> |acts| > |old(acts)| && acts[|acts|-1] == Claiming
      ensures claimed ==> !Blocks(entries, records)
      ensures claimed ==> forall id :: id in entries && id !in live ==>
                entries[id].group == Cleared || (PassedOver(entries[id]) && id in old(entries) && PassedOver(old(entries)[id]))
      ensures var done := acts[|old(acts)|..];
              Pass(old(entries), old(waiting), left, ids, if claimed then done[..|done|-1] else done)
    {
      claimed := false;
      var ok := Recover(left, ids);
      ghost var done := acts[|old(acts)|..];
      PassClaimsNothing(old(entries), old(waiting), left, ids, done);
      assert forall i :: |old(acts)| <= i < |acts| ==> acts[i] == done[i - |old(acts)|];
      if !ok {
        return;
      }
      var what, blocked := Blocked();
      var able: bool := *;
      if !blocked && able {
        ghost var recovered := acts;
        acts := acts + [Claiming];
        claimed := true;
        assert acts[|old(acts)|..] == done + [Claiming] && (done + [Claiming])[..|done|] == done;
        forall id | id in entries && id !in live
          ensures entries[id].group == Cleared || (PassedOver(entries[id]) && id in old(entries) && PassedOver(old(entries)[id]))
        {
          assert Tended(old(entries), entries, id);
        }
      }
    }

    // The attempts of the registry that this process does not run, and the records,
    // in some order.
    method Ids() returns (left: seq<string>, ids: seq<string>)
      ensures Distinct(ids) && forall id :: id in ids <==> id in entries && id !in live
      ensures forall x :: x in left <==> x in records
    {
      ids := Listed(entries.Keys - live);
      left := Listed(records);
    }

    /** From a restart to the first claim, or to where agentd stops: whatever the
        turns between do, no request goes out before every record's run and every
        group that may run was ended and looked at. */
    method Serve(turns: nat) returns (claimed: bool)
      requires live == {} && acts == []
      modifies this`acts, this`entries, this`records, this`waiting
      ensures forall m :: 0 <= m < |acts| && acts[m].Send? ==> AllBefore(old(entries), old(records), acts[..m])
      ensures claimed ==> AllBefore(old(entries), old(records), acts)
      ensures claimed ==> forall id :: id in entries ==> entries[id].group == Cleared || PassedOver(entries[id])
      ensures claimed ==> records == {}
    {
      claimed := false;
      var left, ids := Ids();
      var ok := Recover(left, ids);
      assert acts[0..] == acts;
      forall m | 0 <= m < |acts| && acts[m].Send? ensures AllBefore(old(entries), old(records), acts[..m]) {
        LooksFirst(old(entries), old(waiting), left, ids, acts, m);
      }
      if !ok {
        return;
      }
      FirstIsAll(old(entries), left, ids, acts);
      ghost var first := acts;
      var n := 0;
      while n < turns && !claimed
        invariant first <= acts && AllBefore(old(entries), old(records), acts)
        invariant forall m :: 0 <= m < |acts| && acts[m].Send? ==> AllBefore(old(entries), old(records), acts[..m])
        invariant claimed ==> records == {}
        invariant claimed ==> forall id :: id in entries ==> entries[id].group == Cleared || PassedOver(entries[id])
      {
        ghost var was := acts;
        left, ids := Ids();
        claimed := Turn(left, ids);
        AllBeforeOn(old(entries), old(records), was, acts);
        n := n + 1;
      }
    }
  }

  // All of them, where their run or group may still run, were ended and looked at.
  ghost predicate AllBefore(r: Registry, records: set<string>, acts: seq<Act>) {
    (forall x :: x in records ==> Left(x) in acts) && forall id :: id in r && AskedFor(r[id]) ==> Look(id) in acts
  }

  lemma AllBeforeOn(r: Registry, records: set<string>, a: seq<Act>, b: seq<Act>)
    requires a <= b && AllBefore(r, records, a)
    requires forall m :: 0 <= m < |a| && a[m].Send? ==> AllBefore(r, records, a[..m])
    ensures AllBefore(r, records, b)
    ensures forall m :: 0 <= m < |b| && b[m].Send? ==> AllBefore(r, records, b[..m])
  {
    MoreBefore(r, records, a, b);
    forall m | 0 <= m < |b| && b[m].Send? ensures AllBefore(r, records, b[..m]) {
      if m < |a| {
        assert b[..m] == a[..m];
      } else {
        MoreBefore(r, records, a, b[..m]);
      }
    }
  }

  lemma MoreBefore(r: Registry, records: set<string>, a: seq<Act>, b: seq<Act>)
    requires a <= b && AllBefore(r, records, a)
    ensures AllBefore(r, records, b)
  {
    forall x: Act | x in a ensures x in b {
      var i :| 0 <= i < |a| && a[i] == x;
      assert b[i] == x;
    }
  }

  lemma {:induction false} ThroughClaimsNothing(r: Registry, waiting: set<string>, order: seq<string>, acts: seq<Act>)
    requires Through(r, waiting, order, acts)
    ensures Unclaimed(acts)
  {
    if |order| > 0 {
      var l := |order| - 1;
      var n :| 0 <= n <= |acts| && Through(r, waiting, order[..l], acts[..n]) && Part(r, waiting, order[l], acts[n..]);
      ThroughClaimsNothing(r, waiting, order[..l], acts[..n]);
      BothUnclaimed(acts, n);
    }
  }

  lemma BothUnclaimed(acts: seq<Act>, n: nat)
    requires n <= |acts| && Unclaimed(acts[..n]) && Unclaimed(acts[n..])
    ensures Unclaimed(acts)
  {
    forall i | 0 <= i < |acts| ensures !acts[i].Claiming? {
      assert if i < n then acts[i] == acts[..n][i] else acts[i] == acts[n..][i - n];
    }
  }

  lemma PassClaimsNothing(r: Registry, waiting: set<string>, records: seq<string>, order: seq<string>, acts: seq<Act>)
    requires Pass(r, waiting, records, order, acts)
    ensures Unclaimed(acts)
  {
    var first := Ends(records) + FirstLooks(r, order);
    if acts <= first {
      forall m | 0 <= m < |acts| ensures !acts[m].Claiming? {
        FirstSendsNothing(r, records, order, acts, m);
      }
    } else {
      forall m | 0 <= m < |first| ensures !first[m].Claiming? {
        FirstSendsNothing(r, records, order, first, m);
      }
      var second := acts[|first|..];
      if Through(r, waiting, order, second) {
        ThroughClaimsNothing(r, waiting, order, second);
      } else {
        var k, n :| Stopped(r, waiting, order, second, k, n);
        ThroughClaimsNothing(r, waiting, order[..k], second[..n]);
        BothUnclaimed(second, n);
      }
      assert acts[..|first|] == first;
      BothUnclaimed(acts, |first|);
    }
  }

  // A set's elements, in some order.
  method Listed(s: set<string>) returns (ids: seq<string>)
    ensures Distinct(ids) && forall id :: id in ids <==> id in s
  {
    ids := [];
    var left := s;
    while left != {}
      invariant left <= s && Distinct(ids)
      invariant forall id :: id in ids <==> id in s - left
      decreases |left|
    {
      var id :| id in left;
      assert id !in ids;
      ids, left := ids + [id], left - {id};
    }
  }
}
