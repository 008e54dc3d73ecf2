/** When an attempt can be submitted and salvaged as well: once a submit the platform
    took, its answer lost, was sent again and refused, exactly when it was refused as
    fenced. Such a run is given; a platform that answers a submit it took again rules
    it out (`NeverBoth`). */
module BothTaken {
  import opened Common
  import opened Journal
  import opened JournalSafety
  import opened Runs
  import opened Steps

  // An implementation without a branch and without a repository.
  const TheClaim := Claim("a", true, false, false, false)

  lemma Computes(r: Run, d: Entry) returns (t: Run)
    requires Going(r) && r.s.disk == Some(d) && Known(r.s, d) && d.phase.Exited? && !d.exit.setupFailed && r.s.seen == SeenNothing(false)
    ensures Going(t) && t.s.disk == Some(d.(phase := Computed)) && t.s.seen == r.s.seen && t.s.gone == r.s.gone
  {
    var taken := Takes(r, Compute(d.exit.code, d.exit.how, d.exit.conclusion));
    ComputeOk(taken.s, d, d.(phase := Computed));
    t := Writes(taken, d, d.(phase := Computed));
  }

  // The log and the report are read: neither is there.
  const NothingThere := NoParts.(logRead := true, reportRead := true)

  lemma ReadsNothing(r: Run, d: Entry) returns (t: Run)
    requires Going(r) && r.s.disk == Some(d) && r.s.seen == SeenNothing(false)
    ensures Going(t) && t.s == WithParts(r.s, NothingThere)
  {
    var log := Then(r, ReadLog(true, false));
    ReadLogThen(r.s, true, false);
    Goes(r, ReadLog(true, false));
    t := Then(log, ReadReport(false));
    ReadReportThen(log.s, false);
    Goes(log, ReadReport(false));
  }

  // A process without a checkout that was refused nothing.
  ghost predicate Unhindered(n: Seen) {
    !n.checkout && n.refusals == NoRefusals
  }

  // The result is empty: there is no log, no report and no checkout.
  lemma Prepares(r: Run, d: Entry) returns (t: Run, e: Entry)
    requires Going(r) && r.s.disk == Some(d) && Known(r.s, d) && d.phase.Computed? && r.s.seen == SeenNothing(false).(parts := NothingThere)
    requires d.draft == Draft(false, false, false, Result("", [], "")) && !d.unaltered && d.group == Cleared
    ensures e == d.(draft := Draft(true, true, true, Result("", [], "")))
    ensures Going(t) && t.s.disk == Some(e) && t.s.seen == r.s.seen && t.s.gone == r.s.gone
  {
    var d1 := WithTail(d, "");
    TailFollows(r.s, d, d1);
    var r1 := Writes(r, d, d1);
    var d2 := WithReport(d1, "");
    ReportFollows(r1.s, d1, d2);
    var r2 := Writes(r1, d1, d2);
    e := WithCommit(d2, false, "");
    CommitFollows(r2.s, d2, e, "");
    t := Writes(r2, d2, e);
  }

  lemma Persists(r: Run, d: Entry) returns (t: Run, e: Entry)
    requires Going(r) && r.s.disk == Some(d) && Known(r.s, d) && d.phase.Computed? && Unhindered(r.s.seen)
    requires d.draft.prepared && !d.unaltered && d.group == Cleared
    ensures e == d.(phase := Submitting)
    ensures Going(t) && t.s.disk == Some(e) && t.s.seen == r.s.seen && t.s.gone == r.s.gone
  {
    var taken := Takes(r, Persist(d.draft.result));
    var d1 := d.(phase := Persisted);
    PersistOk(taken.s, d, d1);
    var persisted := Writes(taken, d, d1);
    KeptEntry(persisted.h, persisted.s, persisted.checkout, Anything);
    e := d1.(phase := Submitting);
    SubmittingFollows(persisted.s, d1, e);
    t := Writes(persisted, d1, e);
  }

  // The submit is taken and not learnt of, and refused as fenced the next time.
  lemma SubmitsTwice(r: Run, d: Entry) returns (t: Run, i: nat)
    requires Going(r) && r.s.disk == Some(d) && Known(r.s, d) && d.phase.Submitting? && Unhindered(r.s.seen)
    ensures Going(t) && t.s.disk == Some(d) && t.s.seen.refusals.submit == Some(Fenced) && !t.s.seen.checkout
    ensures i < |t.h| && t.h[i] == Took(Submit)
  {
    var taken := Takes(r, Submit);
    i := |taken.h| - 1;
    var sent := Then(taken, Sent(Submit));
    SentThen(taken.s, Submit);
    Goes(taken, Sent(Submit));
    t := Then(sent, Refused(Submit, Fenced));
    RefusedThen(taken.s, sent.s, Submit, Fenced);
    Goes(sent, Refused(Submit, Fenced));
    assert t.h == taken.h + [Sent(Submit), Refused(Submit, Fenced)];
  }

  // From n on no submit is refused as fenced.
  ghost predicate NoneFenced(h: seq<Event>, n: nat) {
    forall m :: n <= m < |h| ==> h[m] != Refused(Submit, Fenced)
  }

  // The branch is pushed first, where there is a commit and a checkout.
  lemma PushesFirst(r: Run, d: Entry) returns (t: Run)
    requires Going(r) && r.s.disk == Some(d) && d.phase.Lost? && d.draft.prepared && !d.unaltered
    ensures Going(t) && r.h <= t.h && t.s.disk == Some(d) && PushedFirst(t.s, d) && t.checkout == r.checkout
    ensures NoneFenced(t.h, |r.h|)
  {
    t := r;
    var c := d.draft.result.commit;
    if c != "" && r.s.seen.checkout {
      t := Then(r, Pushed(c, true));
      PushedThen(r.s, c, true);
      Goes(r, Pushed(c, true));
    }
  }

  // h goes on to a salvage that is taken, with no submit refused as fenced.
  ghost predicate ThenSalvaged(h: seq<Event>, g: seq<Event>) {
    h <= g && |h| < |g| && g[|g|-1].Took? && g[|g|-1].q.Salvage? && NoneFenced(g, |h|)
  }

  lemma SalvagedAfter(h: seq<Event>, ev: Event, g: seq<Event>, q: Request)
    requires !ev.Refused? && h + [ev] <= g && NoneFenced(g, |h| + 1) && q.Salvage?
    ensures ThenSalvaged(h, g + [Sent(q), Took(q)])
  {
    assert g[|h|] == ev;
  }

  // A submitting attempt whose submit is fenced is lost, and its salvage may be taken.
  lemma Salvages(r: Run, d: Entry) returns (t: Run)
    requires Going(r) && r.s.disk == Some(d) && Known(r.s, d) && d.phase.Submitting?
    requires r.s.seen.refusals.submit == Some(Fenced)
    ensures Going(t) && ThenSalvaged(r.h, t.h)
  {
    SubmitRefused(r.s, d, Fenced);
    var lost := Writes(r, d, Losing(d));
    var pushed := PushesFirst(lost, Losing(d));
    t := Takes(pushed, Salvage(d.draft.result));
    SalvagedAfter(r.h, Wrote(Losing(d)), pushed.h, Salvage(d.draft.result));
  }

  // Where a refused submit leaves the attempt.
  lemma RefusedSubmit(h: seq<Event>)
    requires Legal(h) && |h| > 0 && h[|h|-1] == Refused(Submit, Fenced)
    ensures var s := Fold(h);
            s.disk.Some? && Known(s, s.disk.value) && s.disk.value.phase.Submitting? && s.seen.refusals.submit == Some(Fenced)
  {
    LegalIsSound(h[..|h|-1]);
    LegalIsSound(h);
  }

  lemma RefusedRun(h: seq<Event>) returns (r: Run, d: Entry)
    requires Legal(h) && |h| > 0 && h[|h|-1] == Refused(Submit, Fenced)
    ensures Going(r) && r.h == h && r.s.disk == Some(d) && Known(r.s, d) && d.phase.Submitting?
    ensures r.s.seen.refusals.submit == Some(Fenced)
  {
    RefusedSubmit(h);
    r := RunOf(h);
    d := r.s.disk.value;
  }

  /** Wherever the platform refuses a submit as fenced, the run can go on to a salvage
      it takes. */
  lemma FencedCanBeSalvaged(h: seq<Event>) returns (g: seq<Event>)
    requires Legal(h) && |h| > 0 && h[|h|-1] == Refused(Submit, Fenced)
    ensures Legal(g) && ThenSalvaged(h, g)
  {
    var r, d := RefusedRun(h);
    var t := Salvages(r, d);
    RunIsLegal(t);
    g := t.h;
  }

  // A run that was both submitted and salvaged.
  ghost predicate Both(h: seq<Event>) {
    exists i, j :: 0 <= i < |h| && 0 <= j < |h| && h[i] == Took(Submit) && h[j].Took? && h[j].q.Salvage?
  }

  lemma BothOf(p: seq<Event>, g: seq<Event>, i: nat)
    requires p <= g && i < |p| && p[i] == Took(Submit) && g[|g|-1].Took? && g[|g|-1].q.Salvage?
    ensures Both(g)
  {
    assert g[i] == p[i];
  }

  // h goes on as g to be both, with no other submit refused as fenced.
  ghost predicate BecomesBoth(h: seq<Event>, g: seq<Event>) {
    h <= g && Legal(g) && Both(g) && NoneFenced(g, |h|)
  }

  // A submit that is refused was not lost before.
  lemma RefusedNotLost(h: seq<Event>, why: Why)
    requires Legal(h) && |h| > 0 && h[|h|-1] == Refused(Submit, why) && why != Fenced
    ensures NotLostOnceSubmitted(Fold(h))
  {
    LegalIsSound(h[..|h|-1]);
    LegalIsSound(h);
  }

  lemma {:induction false} NeverLostOn(h: seq<Event>, g: seq<Event>)
    requires h <= g && Legal(g) && NoneFenced(g, |h|) && NotLostOnceSubmitted(Fold(h))
    ensures NotLostOnceSubmitted(Fold(g))
  {
    if |g| == |h| {
      assert g == h;
    } else {
      var f := g[..|g|-1];
      NeverLostOn(h, f);
      LegalIsSound(f);
      NotLostStep(Fold(f), g[|g|-1]);
    }
  }

  lemma NotBoth(h: seq<Event>, why: Why, g: seq<Event>)
    requires Legal(h) && |h| > 0 && h[|h|-1] == Refused(Submit, why) && why != Fenced
    ensures !BecomesBoth(h, g)
  {
    if BecomesBoth(h, g) {
      RefusedNotLost(h, why);
      NeverLostOn(h, g);
      var i, j :| 0 <= i < |g| && 0 <= j < |g| && g[i] == Took(Submit) && g[j].Took? && g[j].q.Salvage?;
      TakenIsTold(g, i);
      TakenIsTold(g, j);
    }
  }

  /** A run whose submit was taken and then, sent again, refused can go on to be both,
      without another such refusal, exactly if it was refused as fenced. */
  lemma BothExactlyIfFenced(h: seq<Event>, why: Why)
    requires Legal(h) && |h| > 0 && h[|h|-1] == Refused(Submit, why) && Fold(h).taken.submit
    ensures (exists g :: BecomesBoth(h, g)) <==> why == Fenced
  {
    if why == Fenced {
      var g := FencedCanBeSalvaged(h);
      var i := TookWitness(h, Submit);
      BothOf(h, g, i);
      assert BecomesBoth(h, g);
    } else {
      forall g ensures !BecomesBoth(h, g) {
        NotBoth(h, why, g);
      }
    }
  }

  lemma ComesToSubmit() returns (r: Run, d: Entry)
    ensures Going(r) && r.s.disk == Some(d) && Known(r.s, d) && d.phase.Submitting? && Unhindered(r.s.seen)
  {
    var exited := Finishes(TheClaim);
    KeptEntry(exited.h, exited.s, exited.checkout, Anything);
    var computed := Computes(exited, exited.s.disk.value);
    var read := ReadsNothing(computed, computed.s.disk.value);
    KeptEntry(read.h, read.s, read.checkout, Anything);
    var prepared;
    prepared, d := Prepares(read, read.s.disk.value);
    KeptEntry(prepared.h, prepared.s, prepared.checkout, Anything);
    r, d := Persists(prepared, d);
    KeptEntry(r.h, r.s, r.checkout, Anything);
  }

  /** Without a promise of the platform, an attempt can be submitted and salvaged. */
  lemma BothCanBeTaken() returns (h: seq<Event>, i: nat, j: nat)
    ensures Legal(h) && i < j < |h| && h[i] == Took(Submit) && h[j].Took? && h[j].q.Salvage?
    ensures FencedAfterTaken(h)
  {
    var r, d := ComesToSubmit();
    var refused;
    refused, i := SubmitsTwice(r, d);
    KeptEntry(refused.h, refused.s, refused.checkout, Anything);
    var salvaged := Salvages(refused, d);
    KeptMeans(salvaged.h, salvaged.s, salvaged.checkout, Anything);
    h, j := salvaged.h, |salvaged.h| - 1;
    assert salvaged.h[i] == refused.h[i];
    BothOnlyIfFenced(h, i, j);
  }
}
