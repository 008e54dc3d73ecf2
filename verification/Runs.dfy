/** Runs built event by event, each event allowed when it comes: for showing what can
    happen. */
module Runs {
  import opened Common
  import opened Journal
  import opened JournalSafety
  import opened Steps

  datatype Run = Run(h: seq<Event>, s: State, checkout: bool)

  const Anything := Told(true, true)

  ghost predicate Going(r: Run) {
    Kept(r.h, r.s, r.checkout, Anything)
  }

  ghost function Then(r: Run, ev: Event): Run {
    Run(r.h + [ev], Apply(r.s, ev), r.checkout)
  }

  lemma Goes(r: Run, ev: Event)
    requires Going(r) && Allowed(r.s, ev) && Expected(ev, Anything)
    ensures Going(Then(r, ev))
  {
    KeptStep(r.h, r.s, r.checkout, Anything, ev);
  }

  lemma Writes(r: Run, d: Entry, e: Entry) returns (t: Run)
    requires Going(r) && r.s.disk == Some(d) && MayPut(r.s, e)
    ensures Going(t) && t.h == r.h + [Wrote(e)] && t.s == Written(r.s, e) && t.checkout == r.checkout
  {
    t := Then(r, Wrote(e));
    WrittenThen(r.s, e);
    Goes(r, Wrote(e));
  }

  // The platform takes what is sent, and says so.
  lemma Takes(r: Run, q: Request) returns (t: Run)
    requires Going(r) && Allowed(r.s, Sent(q))
    ensures Going(t) && t.h == r.h + [Sent(q), Took(q)] && Answered(r.s, t.s, q, Ok) && t.checkout == r.checkout
  {
    var sent := Then(r, Sent(q));
    SentThen(r.s, q);
    Goes(r, Sent(q));
    t := Then(sent, Took(q));
    TookThen(r.s, sent.s, q);
    Goes(sent, Took(q));
    assert r.h + [Sent(q), Took(q)] == sent.h + [Took(q)];
  }

  // The attempt's own process starts.
  lemma Opens() returns (t: Run)
    ensures Going(t) && t.s == Start && t.h == [Opened(false)]
  {
    t := Run([Opened(false)], Start, false);
    KeptOpened([], Start, false, Told(false, false), false);
    assert [] + [Opened(false)] == [Opened(false)];
    KeptTold(t.h, Start, false, Told(false, false), Anything);
  }

  lemma RunOf(h: seq<Event>) returns (r: Run)
    requires Legal(h)
    ensures Going(r) && r.h == h && r.s == Fold(h)
  {
    LegalIsSound(h);
    r := Run(h, Fold(h), Fold(h).seen.checkout);
  }

  lemma RunIsLegal(r: Run)
    requires Going(r)
    ensures Legal(r.h)
  {
    KeptMeans(r.h, r.s, r.checkout, Anything);
  }

  // ---------- an executor's run ----------

  ghost predicate NeverLooked(h: seq<Event>) {
    forall i :: 0 <= i < |h| ==> !h[i].Looked?
  }

  // A launch up to its group recorded.
  lemma Launched(claim: Claim) returns (t: Run)
    requires claim.Launches()
    ensures Going(t) && NeverLooked(t.h) && t.s.disk == Some(Recorded(claim)) && t.s.seen == SeenNothing(false)
  {
    var start := Opens();
    var d := Waiting(claim);
    var waiting := Then(start, Wrote(d));
    FirstWritten(start.s, d);
    WrittenThen(start.s, d);
    Goes(start, Wrote(d));
    RecordedFollows(waiting.s, d, Recorded(claim));
    t := Writes(waiting, d, Recorded(claim));
  }

  // What the registry holds of an executor that exited by itself, done.
  function Finished(claim: Claim): Entry {
    Blank(claim, Exited, true, Cleared).(exit := ExitInfo(Some(0), Exit, Done, false))
  }

  // One that ran without a checkout, for there was none to make.
  lemma Finishes(claim: Claim) returns (t: Run)
    requires claim.Launches() && !claim.based
    ensures Going(t) && t.s.disk == Some(Finished(claim)) && t.s.gone && t.s.seen == SeenNothing(false)
  {
    var e, exit := Recorded(claim), ExitInfo(Some(0), Exit, Done, false);
    var running := Launched(claim);
    var looked := Then(running, Looked(Cleared));
    LookedThen(running.s, Cleared);
    Goes(running, Looked(Cleared));
    NotAhead(looked.s, e);
    SupervisedExited(looked.s, e, e, Cleared, exit);
    t := Writes(looked, e, Finished(claim));
  }

  // A process takes the attempt up from the registry.
  lemma Reopens(r: Run, d: Entry) returns (t: Run)
    requires Going(r) && r.s.disk == Some(d)
    ensures Going(t) && t.h == r.h + [Opened(d.claim.repo)] && t.s.disk == Some(d) && t.s.seen == SeenNothing(d.claim.repo)
  {
    var has := d.claim.repo;
    KeptOpened(r.h, r.s, r.checkout, Anything, has);
    t := Run(r.h + [Opened(has)], Apply(r.s, Opened(has)), has);
    KeptTold(t.h, t.s, has, Told(false, false), Anything);
  }
}
