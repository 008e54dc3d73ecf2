/** agentd's hand-over of one attempt, as its daemon does it: the entry in memory,
    the registry behind it and the platform. Every method may be cut short by a
    crash at any event (`Life`), and every event it adds is one the journal allows. */
module HandOver {
  import opened Common
  import opened Journal
  import opened JournalSafety
  import opened Steps

  class Daemon {
    var e: Entry           // the entry in this process's memory
    var s: State           // what the registry, the platform and this host hold: Fold(world)
    var world: seq<Event>  // all that happened outside agentd's memory
    var checkout: bool     // this process has the attempt's checkout
    ghost var told: Told   // what this process was told, at most
    ghost var trouble: nat // how often something outside failed, refused or was cut short
    const keepWorkspaces: bool

    ghost predicate Valid()
      reads this
    {
      Kept(world, s, checkout, told)
    }

    // In step: the registry holds the very entry this process has.
    ghost predicate InStep()
      reads this
    {
      Valid() && s.disk == Some(e)
    }

    // The attempt is over here: forgotten, or kept for its group or its workspace.
    ghost predicate Over()
      reads this
    {
      s.taken.ended && (s.forgotten || (s.disk == Some(e) && ((e.phase.Uncleared? && e.group != NotLooked) || e.phase.Unswept?)))
    }

    // A step that did not come through met trouble since `was`.
    ghost predicate Excused(err: Err, was: nat)
      reads this
    {
      was <= trouble && (err != Ok ==> was < trouble)
    }

    // Where a hand-over leaves off: over, to be taken up again, or with the
    // registry not usable.
    ghost predicate Leaves(err: Err)
      reads this
    {
      Valid() && (err == Ok || err == Transient || err == RegistryErr) && (err == Ok ==> Over())
    }

    constructor (claim: Claim, keep: bool)
      ensures Valid() && world == [] && s == Start && e.claim == claim && keepWorkspaces == keep
    {
      e, s, world, keepWorkspaces := Blank(claim, Launching, false, Cleared), Start, [], keep;
      checkout, told, trouble := false, Told(false, false), 0;
    }

    method Record(ev: Event)
      requires Valid() && Allowed(s, ev) && Expected(ev, told)
      modifies this`s, this`world
      ensures Valid() && world == old(world) + [ev] && s == Apply(old(s), ev)
    {
      KeptStep(world, s, checkout, told, ev);
      s, world := Apply(s, ev), world + [ev];
    }

    // ---------- the registry ----------

    /** Writes the entry; a write that fails may still have been made. */
    method Put() returns (err: Err)
      requires Valid() && s.disk.Some? && MayPut(s, e)
      modifies this`s, this`world, this`trouble
      ensures Excused(err, old(trouble))
      ensures Valid() && old(world) <= world
      ensures s == Written(old(s), e) || (s == old(s) && err == RegistryErr)
      ensures err == Ok || err == RegistryErr
      ensures err == Ok ==> WroteSince(world, |old(world)|, e)
    {
      var written, reported := *, *;
      if written {
        WrittenThen(s, e);
        Record(Wrote(e));
        SinceAt(world, |old(world)|, Exactly(Wrote(e)), |old(world)|);
      }
      err := if written && reported then Ok else RegistryErr;
      trouble := trouble + if err == Ok then 0 else 1;
    }

    method Delete() returns (err: Err)
      requires Valid() && Allowed(s, Forgot)
      modifies this`s, this`world, this`trouble
      ensures Excused(err, old(trouble))
      ensures Valid() && old(world) <= world && s.taken.ended
      ensures err == Ok || err == RegistryErr
      ensures err == Ok ==> s.disk.None? && s.forgotten
    {
      var written, reported := *, *;
      if written {
        Record(Forgot);
      }
      err := if written && reported then Ok else RegistryErr;
      trouble := trouble + if err == Ok then 0 else 1;
    }

    // ---------- the platform ----------

    /** One send: the platform takes it and says so, takes it and its answer is
        lost, is away, or refuses it (a computed it took may read as refused). */
    method Send(q: Request) returns (err: Err)
      requires Valid() && Allowed(s, Sent(q)) && (q.Submit? ==> told.fenced)
      modifies this`s, this`world, this`trouble
      ensures Excused(err, old(trouble))
      ensures Valid() && old(world) <= world
      ensures Answered(old(s), s, q, err)
      ensures err == Ok ==> TookSince(world, |old(world)|, q)
      ensures Resent(world, |old(world)|, q, 1)
    {
      var took: bool, answered: bool, refused: bool, why: Why := *, *, *, *;
      err := if answered && refused then Refusal(why) else if answered && took then Ok else Transient;
      ghost var s0 := s;
      Reach(q, took && (!refused || q.Compute?));
      ghost var was := world;
      if err.Refusal? {
        RefusedThen(s0, s, q, why);
        ResentNext(world, |old(world)|, q, 1, Refused(q, why));
        Record(Refused(q, why));
      } else if err == Ok {
        SinceOn(old(world), was, world, Exactly(Took(q)));
      }
      trouble := trouble + if err == Ok then 0 else 1;
    }

    method Reach(q: Request, took: bool)
      requires Valid() && Allowed(s, Sent(q))
      modifies this`s, this`world
      ensures Valid() && old(world) <= world && s.out == Some(q)
      ensures Answered(old(s), s, q, Transient) && (took ==> Answered(old(s), s, q, Ok))
      ensures took ==> TookSince(world, |old(world)|, q)
      ensures Resent(world, |old(world)|, q, 1)
    {
      ghost var s0 := s;
      SentThen(s, q);
      ResentNext(world, |world|, q, 0, Sent(q));
      Record(Sent(q));
      if took {
        TookThen(s0, s, q);
        ResentNext(world, |old(world)|, q, 1, Took(q));
        Record(Took(q));
        SinceAt(world, |old(world)|, Exactly(Took(q)), |world| - 1);
      }
    }

    /** Up to five sends of the same request while the platform is away. */
    method Retry(q: Request) returns (err: Err)
      requires Valid() && s.disk.Some? && MaySend(s, s.disk.value, q) && (q.Submit? ==> told.fenced)
      modifies this`s, this`world, this`trouble
      ensures Excused(err, old(trouble))
      ensures Valid() && old(world) <= world
      ensures Answered(old(s), s, q, err)
      ensures err == Ok ==> TookSince(world, |old(world)|, q)
      ensures Resent(world, |old(world)|, q, 5)
    {
      err := Send(q);
      var i := 1;
      while i < 5 && err == Transient
        invariant Valid() && old(world) <= world && Excused(err, old(trouble))
        invariant Answered(old(s), s, q, err)
        invariant err == Ok ==> TookSince(world, |old(world)|, q)
        invariant i <= 5 && Resent(world, |old(world)|, q, i)
      {
        var stopped := *;
        if stopped {
          break;
        }
        ghost var t, was := s, world;
        err := Send(q);
        AnsweredAgain(old(s), t, s, q, err);
        if err == Ok {
          SinceOn(old(world), was, world, Exactly(Took(q)));
        }
        ResentOn(was, world, |old(world)|, q, i, 1);
        i := i + 1;
      }
      ResentMore(world, |old(world)|, q, i, 5);
    }

    /** Uploads one part: its id, or why not. */
    method PutArtifact(what: Upload) returns (err: Err, id: string)
      requires Valid() && s.disk.Some?
      modifies this`s, this`world, this`trouble
      ensures Excused(err, old(trouble))
      ensures Valid() && old(world) <= world
      ensures err == Ok || err == Transient || err == Refusal(RefusedOther)
      ensures err == Ok <==> id != ""
      ensures s == WithParts(old(s), PartsPut(old(s).seen.parts, what, err, id))
    {
      var taken: bool, refused: bool;
      id, taken, refused := *, *, *;
      if taken && id != "" {
        UploadedThen(s, what, id);
        Record(Uploaded(what, id));
        return Ok, id;
      }
      trouble := trouble + 1;
      if refused {
        UploadRefusedThen(s, what);
        Record(UploadRefused(what));
        return Refusal(RefusedOther), "";
      }
      return Transient, "";
    }

    // ---------- the check and the result ----------

    /** The verdict on the checkout goes into the entry, at most once: the conclusion
        becomes failed or none by it, and the mark unaltered may be set. */
    method CheckChanges() returns (err: Err)
      requires InStep() && e.phase.Exited?
      modifies this`e, this`s, this`world, this`trouble
      ensures Excused(err, old(trouble))
      ensures Valid() && old(world) <= world
      ensures err == Ok || err == Transient || err == RegistryErr
      ensures err != RegistryErr ==> InStep()
      ensures e.phase.Exited? && e.exit.how == old(e).exit.how
      ensures err == Ok ==> e.checked || !checkout || (e.exit.conclusion == NoConclusion && !e.Implementation())
    {
      if e.checked || !checkout || (e.exit.conclusion == NoConclusion && !e.Implementation()) {
        return Ok;
      }
      var cut: bool, bad: bool, same: bool := *, *, *;
      if cut {
        trouble := trouble + 1;
        return Transient;
      }
      err := Checked(bad, same);
    }

    method Checked(bad: bool, same: bool) returns (err: Err)
      requires InStep() && e.phase.Exited? && !e.checked && checkout
      modifies this`e, this`s, this`world, this`trouble
      ensures Excused(err, old(trouble))
      ensures Valid() && old(world) <= world && e == WithCheck(old(e), bad, same)
      ensures err == Ok || err == RegistryErr
      ensures err == Ok ==> InStep()
    {
      KeptEntry(world, s, checkout, told);
      KeptSeen(world, s, checkout, told);
      InspectedThen(s, bad, same);
      Record(Inspected(bad, same));
      ghost var d := e;
      e := Judged(bad, same);
      InspectedFollows(s, d, e, bad, same);
      err := Put();
    }

    method Judged(bad: bool, same: bool) returns (f: Entry)
      ensures f == WithCheck(e, bad, same)
    {
      var conclusion, unaltered := e.exit.conclusion, e.unaltered;
      if bad && conclusion != NoConclusion {
        conclusion := Failed;
      }
      if e.Implementation() && same {
        unaltered := true;
        if conclusion == Done {
          conclusion := NoConclusion;
        }
      }
      f := e.(checked := true, unaltered := unaltered, exit := e.exit.(conclusion := conclusion));
    }

    /** Fills the draft in part by part, the registry after each; what is there
        already is taken from the registry and not done again. */
    method Prepare() returns (err: Err)
      requires InStep() && e.phase.Preparing()
      modifies this`e, this`s, this`world, this`trouble
      ensures Excused(err, old(trouble))
      ensures Valid() && old(world) <= world
      ensures SamePlace(old(e), e)
      ensures err != RegistryErr ==> InStep()
      ensures err == Ok ==> e.draft.prepared
      ensures err.Refusal? ==> s.seen.commitRefused
    {
      if e.draft.prepared {
        return Ok;
      }
      var tail, report := ReadResults();
      if !e.draft.logTailDone {
        err := PrepareTail(tail);
        if err != Ok {
          return;
        }
      }
      if !e.draft.reportDone {
        err := PrepareReport(report);
        if err != Ok {
          return;
        }
      }
      err := PrepareCommit();
    }

    // What the executor left: the end of its log and its report, each there or not.
    method ReadResults() returns (tail: bool, report: bool)
      requires Valid() && s.disk.Some?
      modifies this`s, this`world
      ensures Valid() && old(world) <= world
      ensures s == WithParts(old(s), NoParts.(logRead := true, tail := tail, reportRead := true, report := report))
    {
      tail, report := *, *;
      BeganThen(s);
      Record(Began);
      ReadLogThen(s, true, tail);
      Record(ReadLog(true, tail));
      ReadReportThen(s, report);
      Record(ReadReport(report));
    }

    // Uploads the log tail or the report when it is there: its id, "" when there
    // is none or it is refused for good.
    method PutPart(what: Upload, there: bool) returns (err: Err, id: string)
      requires InStep() && !what.Patch?
      modifies this`s, this`world, this`trouble
      ensures Excused(err, old(trouble))
      ensures InStep() && old(world) <= world
      ensures err == Ok || err == Transient
      ensures s.gone == old(s).gone && s.seen.parts.tooLarge == old(s).seen.parts.tooLarge
      ensures var p, q := old(s).seen.parts, s.seen.parts;
              if what.LogTail? then
                && q.logRead == p.logRead && q.reportRead == p.reportRead && q.report == p.report && q.reportId == p.reportId && q.tail == p.tail
                && (p.tailId == "" && err == Ok ==> q.tailId == id && (there ==> id != "" || q.tailRefused))
              else
                && q.report == p.report && q.tailId == p.tailId && q.reportRead == p.reportRead
                && (p.reportId == "" && err == Ok ==> q.reportId == id && (there ==> id != "" || q.reportRefused))
      ensures trouble == old(trouble) ==> err == Ok && (there ==> id != "")
    {
      if !there {
        return Ok, "";
      }
      err, id := PutArtifact(what);
      if err.Refusal? {
        err := Ok;
      }
    }

    method PrepareTail(tail: bool) returns (err: Err)
      requires InStep() && !e.draft.prepared && !e.draft.logTailDone && e.phase.Preparing()
      requires s.seen.parts.tail == tail && s.seen.parts.tailId == "" && s.seen.parts.logRead
      modifies this`e, this`s, this`world, this`trouble
      ensures Excused(err, old(trouble))
      ensures Valid() && old(world) <= world
      ensures s.seen.parts.report == old(s).seen.parts.report && s.seen.parts.reportId == old(s).seen.parts.reportId
      ensures s.seen.parts.reportRead == old(s).seen.parts.reportRead
      ensures err == Ok || err == Transient || err == RegistryErr
      ensures SamePlace(old(e), e) && e.draft.prepared == old(e).draft.prepared && e.draft.reportDone == old(e).draft.reportDone
      ensures err == Ok ==> e.draft.logTailDone
      ensures err != RegistryErr ==> InStep()
    {
      var id;
      err, id := PutPart(LogTail, tail);
      if err == Ok {
        err := TailDone(id);
      }
    }

    method TailDone(id: string) returns (err: Err)
      requires InStep() && !e.draft.prepared && !e.draft.logTailDone && e.phase.Preparing()
      requires s.seen.parts.logRead && s.seen.parts.tailId == id && (s.seen.parts.tail ==> id != "" || s.seen.parts.tailRefused)
      modifies this`e, this`s, this`world, this`trouble
      ensures Excused(err, old(trouble))
      ensures Valid() && old(world) <= world && s.seen.parts == old(s).seen.parts && e == WithTail(old(e), id)
      ensures err == Ok || err == RegistryErr
      ensures err == Ok ==> InStep()
    {
      KeptEntry(world, s, checkout, told);
      ghost var d := e;
      e := WithTail(e, id);
      TailFollows(s, d, e);
      err := Put();
    }

    method PrepareReport(report: bool) returns (err: Err)
      requires InStep() && !e.draft.prepared && !e.draft.reportDone && e.phase.Preparing()
      requires s.seen.parts.report == report && s.seen.parts.reportId == "" && s.seen.parts.reportRead
      modifies this`e, this`s, this`world, this`trouble
      ensures Excused(err, old(trouble))
      ensures Valid() && old(world) <= world
      ensures err == Ok || err == Transient || err == RegistryErr
      ensures SamePlace(old(e), e) && e.draft.prepared == old(e).draft.prepared && e.draft.logTailDone == old(e).draft.logTailDone
      ensures err == Ok ==> e.draft.reportDone
      ensures err != RegistryErr ==> InStep()
    {
      var id;
      err, id := PutPart(Report, report);
      if err == Ok {
        err := ReportDone(id);
      }
    }

    method ReportDone(id: string) returns (err: Err)
      requires InStep() && !e.draft.prepared && !e.draft.reportDone && e.phase.Preparing()
      requires s.seen.parts.reportRead && s.seen.parts.reportId == id && (s.seen.parts.report ==> id != "" || s.seen.parts.reportRefused)
      modifies this`e, this`s, this`world, this`trouble
      ensures Excused(err, old(trouble))
      ensures Valid() && old(world) <= world && e == WithReport(old(e), id)
      ensures err == Ok || err == RegistryErr
      ensures err == Ok ==> InStep()
    {
      KeptEntry(world, s, checkout, told);
      ghost var d := e;
      e := WithReport(e, id);
      ReportFollows(s, d, e);
      err := Put();
    }

    method PrepareCommit() returns (err: Err)
      requires InStep() && !e.draft.prepared && e.draft.logTailDone && e.draft.reportDone && e.phase.Preparing()
      modifies this`e, this`s, this`world, this`trouble
      ensures Excused(err, old(trouble))
      ensures Valid() && old(world) <= world
      ensures SamePlace(old(e), e) && (err == Ok ==> e.draft.prepared)
      ensures err != RegistryErr ==> InStep()
      ensures err.Refusal? ==> s.seen.commitRefused
    {
      KeptSeen(world, s, checkout, told);
      var commit := "";
      if checkout && e.claim.branch {
        err, commit := Commit();
        if err != Ok {
          return;
        }
      }
      err := CommitDone(commit);
    }

    // The checkout's commit ("" when nothing changed), or why there is none.
    method Commit() returns (err: Err, commit: string)
      requires Valid() && s.disk.Some? && !s.disk.value.draft.prepared
      modifies this`s, this`world, this`trouble
      ensures Excused(err, old(trouble))
      ensures Valid() && old(world) <= world
      ensures err == Ok || err == Transient || err == Refusal(RefusedOther)
      ensures err == Ok ==> s == old(s).(seen := old(s).seen.(made := Some(commit)))
      ensures err == Transient ==> s == old(s)
      ensures err.Refusal? ==> s == old(s).(seen := old(s).seen.(commitRefused := true))
    {
      var cut: bool, refused: bool;
      cut, refused, commit := *, *, *;
      CommittedThen(s, commit);
      if cut {
        trouble := trouble + 1;
        return Transient, "";
      }
      if refused {
        trouble := trouble + 1;
        Record(CommitRefused);
        return Refusal(RefusedOther), "";
      }
      Record(Committed(commit));
      err := Ok;
    }

    method CommitDone(commit: string) returns (err: Err)
      requires InStep() && !e.draft.prepared && e.draft.logTailDone && e.draft.reportDone && e.phase.Preparing()
      requires s.seen.checkout == checkout
      requires if checkout && e.claim.branch then s.seen.made == Some(commit) else commit == ""
      modifies this`e, this`s, this`world, this`trouble
      ensures Excused(err, old(trouble))
      ensures Valid() && old(world) <= world && e == WithCommit(old(e), checkout, commit)
      ensures err == Ok || err == RegistryErr
      ensures err == Ok ==> InStep()
    {
      KeptEntry(world, s, checkout, told);
      ghost var d := e;
      e := e.(draft := e.draft.(prepared := true, result := e.draft.result.(commit := commit)));
      if checkout && e.claim.branch && commit == "" && e.claim.implement {
        e := e.(unaltered := true);
      }
      CommitFollows(s, d, e, commit);
      err := Put();
    }

    /** Brings the commit the registry names to its branch in up to five pushes; with
        none or without a checkout there is nothing to do. */
    method PushPrepared() returns (err: Err)
      requires InStep() && e.phase.Preparing() && e.draft.prepared && !e.unaltered
      modifies this`s, this`world, this`trouble
      ensures Excused(err, old(trouble))
      ensures InStep() && old(world) <= world
      ensures err == Ok || err == Transient
      ensures err == Ok ==> e.draft.result.commit == "" || !checkout || s.pushed == Some(e.draft.result.commit)
    {
      if !checkout || e.draft.result.commit == "" {
        return Ok;
      }
      var i := 0;
      while i < 5
        invariant 0 <= i <= 5 && InStep() && old(world) <= world && old(trouble) + i <= trouble
      {
        var arrived: bool, answered: bool, stopped: bool := *, *, *;
        PushedThen(s, e.draft.result.commit, arrived);
        Record(Pushed(e.draft.result.commit, arrived));
        if answered && arrived {
          return Ok;
        }
        trouble := trouble + 1;
        if answered || stopped {
          return Transient;
        }
        i := i + 1;
      }
      return Transient;
    }

    // ---------- the end ----------

    // One look at the entry's group, after ending it: what is seen.
    method Look() returns (g: GroupState)
      requires Valid() && s.disk.Some? && (s.disk.value.phase.Launching? || s.disk.value.group != Cleared)
      modifies this`s, this`world
      ensures Valid() && old(world) <= world
      ensures g != NotLooked && (!e.launched ==> g == Cleared)
      ensures s == old(s).(gone := g == Cleared)
      ensures world == old(world) + [Looked(g)] && Since(world, |old(world)|, AnyLook)
    {
      g := *;
      if !e.launched || g == NotLooked {
        g := Cleared;
      }
      LookedThen(s, g);
      Record(Looked(g));
      SinceAt(world, |old(world)|, AnyLook, |old(world)|);
    }

    /** The ended request: written with what a look at the group shows, sent as
        written until it is answered for good, and then settled. */
    method End(how: EndHow) returns (err: Err)
      requires Valid() && !told.unswept && ReadyToEnd(s, e, how)
      modifies this`e, this`s, this`world, this`told, this`trouble
      ensures Excused(err, old(trouble))
      ensures old(world) <= world && Leaves(err)
      ensures err == Transient ==> InStep() && e.phase.Ending?
      ensures e.unaltered == old(e).unaltered
      ensures err == RegistryErr || Since(world, |old(world)|, AnyEnding(old(e), how))
    {
      err := BeginEnd(how);
      if err == Ok {
        ghost var was := world;
        err := EndAgain();
        SinceOn(old(world), was, world, AnyEnding(old(e), how));
      }
    }

    // The end from its written request on, after a restart as well.
    method EndAgain() returns (err: Err)
      requires InStep() && e.phase.Ending? && !told.unswept
      modifies this`e, this`s, this`world, this`told, this`trouble
      ensures Excused(err, old(trouble))
      ensures old(world) <= world && Leaves(err)
      ensures err == Transient ==> InStep() && e.phase.Ending?
      ensures e.unaltered == old(e).unaltered
    {
      KeptEntry(world, s, checkout, told);
      err := SendEnd();
      if err == Ok {
        err := Settle();
      }
    }

    method BeginEnd(how: EndHow) returns (err: Err)
      requires Valid() && ReadyToEnd(s, e, how)
      modifies this`e, this`s, this`world, this`trouble
      ensures Excused(err, old(trouble))
      ensures Valid() && old(world) <= world
      ensures err == Ok || err == RegistryErr
      ensures err == Ok ==> Since(world, |old(world)|, AnyEnding(old(e), how))
      ensures e.phase.Ending? && (err == Ok ==> InStep())
      ensures e.unaltered == old(e).unaltered
      ensures e.group != NotLooked
    {
      var g := e.group;
      ReadyMeans(s, e, how, e.group);
      ghost var s0 := s;
      if e.group != Cleared {
        g := Look();
      }
      ReadyMeans(s0, e, how, g);
      e := e.(phase := Ending, group := g, endRequest := Some(EndRequest(if how == Unset then Exit else how, g == Cleared)));
      ghost var was := world;
      err := Put();
      Grown(old(world), was, world);
      if err == Ok {
        EndingTold(world, |was|, e, old(e), how);
        SinceOn(old(world), was, world, AnyEnding(old(e), how));
      }
    }

    method SendEnd() returns (err: Err)
      requires InStep() && e.phase.Ending? && e.endRequest.Some?
      modifies this`e, this`s, this`world, this`trouble
      ensures Excused(err, old(trouble))
      ensures Valid() && old(world) <= world
      ensures err == Ok || err == Transient || err == RegistryErr
      ensures err != RegistryErr ==> InStep() && e.phase.Ending?
      ensures err == Ok ==> s.taken.ended
      ensures e.unaltered == old(e).unaltered
    {
      err := SendEndOnce();
      if err == Refusal(OlderPlatform) && e.endRequest.value.endHow == PrepareFailed {
        err := EndAsExit();
        if err == Ok {
          err := SendEndOnce();
        }
      }
      if err.Refusal? {
        err := Ok; // refused for good: there is nothing more to say
      }
    }

    method SendEndOnce() returns (err: Err)
      requires InStep() && e.phase.Ending? && e.endRequest.Some?
      modifies this`s, this`world, this`trouble
      ensures Excused(err, old(trouble))
      ensures InStep() && old(world) <= world && err != RegistryErr
      ensures err == Ok || (err.Refusal? && Definite(Request.End(e.endRequest.value), err.why)) ==> s.taken.ended
      ensures err == Refusal(OlderPlatform) ==> s.seen.refusals.end == Some(OlderPlatform)
    {
      err := Retry(Request.End(e.endRequest.value));
    }

    // The ended request as a platform takes it that knows no prepare_failed.
    method EndAsExit() returns (err: Err)
      requires InStep() && e.phase.Ending? && e.endRequest.Some? && e.endRequest.value.endHow == PrepareFailed
      requires s.seen.refusals.end == Some(OlderPlatform)
      modifies this`e, this`s, this`world, this`trouble
      ensures Excused(err, old(trouble))
      ensures Valid() && old(world) <= world
      ensures e == old(e).(endRequest := Some(old(e).endRequest.value.(endHow := Exit)))
      ensures err == Ok || err == RegistryErr
      ensures err == Ok ==> InStep()
    {
      KeptEntry(world, s, checkout, told);
      ghost var d := e;
      e := e.(endRequest := Some(e.endRequest.value.(endHow := Exit)));
      OlderFollows(s, d, e);
      err := Put();
    }

    /** After the end is answered: the entry goes if a last look finds the group
        cleared, and stays as uncleared if not. */
    method Settle() returns (err: Err)
      requires InStep() && e.phase.Ending? && s.taken.ended && !told.unswept
      modifies this`e, this`s, this`world, this`told, this`trouble
      ensures Excused(err, old(trouble))
      ensures Valid() && old(world) <= world
      ensures err == Ok || err == RegistryErr
      ensures err == Ok ==> Over()
      ensures e.unaltered == old(e).unaltered
    {
      KeptEntry(world, s, checkout, told);
      ghost var d := e;
      if e.group != Cleared {
        var g := Look();
        e := e.(group := g);
      }
      if e.group == Cleared {
        err := Finish();
      } else {
        UnclearedFollows(s, d, e.group, e.(phase := Uncleared));
        e := e.(phase := Uncleared);
        err := Put();
      }
    }

    // With the group cleared: sweeps, then removes the entry or writes it as unswept.
    method Finish() returns (err: Err)
      requires Valid() && s.disk.Some? && e == s.disk.value.(group := Cleared) && (e.phase.Ending? || e.phase.Uncleared?)
      requires s.gone && s.taken.ended && !told.unswept
      modifies this`e, this`s, this`world, this`told, this`trouble
      ensures Excused(err, old(trouble))
      ensures Valid() && old(world) <= world
      ensures err == Ok || err == RegistryErr
      ensures err == Ok ==> Over()
      ensures e.unaltered == old(e).unaltered
    {
      KeptEntry(world, s, checkout, told);
      var unswept := SweepUp();
      if unswept {
        UnsweptFollows(s, s.disk.value, e.(phase := Unswept));
        e := e.(phase := Unswept);
        err := Put();
      } else {
        err := Delete();
      }
    }

    /** One sweep of a handed-over attempt's workspace, unless workspaces are kept;
        unswept: it failed. */
    method SweepUp() returns (unswept: bool)
      requires Valid() && s.disk.Some? && e.handedOver == s.disk.value.handedOver && s.gone && s.taken.ended && !told.unswept
      modifies this`s, this`world, this`told
      ensures Valid() && old(world) <= world
      ensures s == old(s).(seen := old(s).seen.(sweepFailed := unswept))
      ensures if e.handedOver && !keepWorkspaces then exists how :: world == old(world) + [Swept(how)] && unswept == (how == SweepFailed)
              else world == old(world) && !unswept
    {
      KeptSeen(world, s, checkout, told);
      if !e.handedOver || keepWorkspaces {
        return false;
      }
      var how: Sweep := *;
      SweptThen(s, how);
      KeptTold(world, s, checkout, told, told.(unswept := true));
      told := told.(unswept := true);
      Record(Swept(how));
      unswept := how == SweepFailed;
    }

    // ---------- samples ----------

    /** Takes a sample, unless one is still pending: that is sent then instead.
        `whole`: every part of the checkout and the log was read in this call and
        is held by the platform, under the very request it confirmed. */
    method TakeCheckpoint() returns (whole: bool)
      requires Valid() && Ahead(s, e) && (e.phase.Running? || e.phase.Restarted?)
      modifies this`e, this`s, this`world, this`trouble
      ensures old(trouble) <= trouble
      ensures Valid() && old(world) <= world && Ahead(s, e)
      ensures e == old(e).(samples := e.samples)
      ensures whole ==> s.seen.whole.Some? && s.seen.whole.value in s.confirmed
      ensures whole ==> checkout && TookWhole(world, |old(world)|, old(e).samples.issued + 1, s.seen.parts)
      ensures trouble == old(trouble) && old(e).samples.pending.None? ==> whole == (checkout && SampledWhole(s.seen.parts))
      ensures trouble == old(trouble) ==> exists p :: TookSince(world, |old(world)|, Request.Checkpoint(p))
    {
      if e.samples.pending.Some? {
        var sent := SendSample();
        return false;
      }
      whole := NextCheckpoint();
    }

    method NextCheckpoint() returns (whole: bool)
      requires Valid() && Ahead(s, e) && e.samples.pending.None? && (e.phase.Running? || e.phase.Restarted?)
      modifies this`e, this`s, this`world, this`trouble
      ensures old(trouble) <= trouble
      ensures Valid() && old(world) <= world && Ahead(s, e)
      ensures e == old(e).(samples := e.samples)
      ensures whole ==> s.seen.whole == Some(old(e).samples.issued + 1) && old(e).samples.issued + 1 in s.confirmed
      ensures whole ==> checkout && TookWhole(world, |old(world)|, old(e).samples.issued + 1, s.seen.parts)
      ensures trouble == old(trouble) ==> whole == (checkout && SampledWhole(s.seen.parts))
      ensures trouble == old(trouble) ==>
                TookSince(world, |old(world)|, Request.Checkpoint(SampleOf(old(e).samples.issued + 1, s.seen.parts)))
    {
      var taken;
      taken, whole := TakeSample();
      if taken {
        whole := SendTaken(whole, old(world));
      } else {
        whole := false;
      }
    }

    // Sends the sample just put together; its parts were read since start.
    method SendTaken(all: bool, ghost start: seq<Event>) returns (whole: bool)
      requires Valid() && Ahead(s, e) && (e.phase.Running? || e.phase.Restarted?)
      requires e.samples.pending == Some(SampleOf(e.samples.issued, s.seen.parts))
      requires start <= world && Since(world, |start|, Exactly(Began))
      requires all ==> s.seen.whole == Some(e.samples.issued) && checkout && SampledWhole(s.seen.parts)
      modifies this`e, this`s, this`world, this`trouble
      ensures old(trouble) <= trouble
      ensures Valid() && start <= world && Ahead(s, e)
      ensures e == old(e).(samples := e.samples) && s.seen.parts == old(s).seen.parts
      ensures whole ==> s.seen.whole == Some(old(e).samples.issued) && old(e).samples.issued in s.confirmed
      ensures whole ==> checkout && TookWhole(world, |start|, old(e).samples.issued, s.seen.parts)
      ensures trouble == old(trouble) ==>
                whole == all && TookSince(world, |start|, Request.Checkpoint(SampleOf(old(e).samples.issued, s.seen.parts)))
    {
      ghost var began := world;
      var sent := SendSample();
      whole := all && sent;
      Grown(start, began, world);
      if sent {
        TookWholeBy(start, began, world, old(e).samples.issued, s.seen.parts);
      }
    }

    // Puts the next sample together: the log's end, and the patch of a checkout.
    method TakeSample() returns (taken: bool, whole: bool)
      requires Valid() && Ahead(s, e) && e.samples.pending.None?
      modifies this`e, this`s, this`world, this`trouble
      ensures old(trouble) <= trouble
      ensures Valid() && old(world) <= world && Ahead(s, e)
      ensures e == if taken then WithSample(old(e), s.seen.parts) else old(e)
      ensures Since(world, |old(world)|, Exactly(Began))
      ensures taken && whole ==> s.seen.whole == Some(old(e).samples.issued + 1) && checkout && SampledWhole(s.seen.parts)
      ensures trouble == old(trouble) ==> taken && whole == (checkout && SampledWhole(s.seen.parts))
    {
      ghost var s0 := s;
      AheadMeans(s, e);
      taken, whole := TakeParts();
      ghost var began := world;
      if taken {
        Number(s0, whole);
        SinceOn(old(world), began, world, Exactly(Began));
      } else {
        StillAhead(s0, s, e);
      }
    }

    // whole: all parts are read and taken.
    method TakeParts() returns (taken: bool, whole: bool)
      requires Valid() && s.disk.Some?
      modifies this`s, this`world, this`trouble
      ensures old(trouble) <= trouble
      ensures Valid() && old(world) <= world
      ensures s.disk == old(s).disk && s.confirmed == old(s).confirmed && s.dropped == old(s).dropped
      ensures Since(world, |old(world)|, Exactly(Began))
      ensures taken && whole ==> checkout && SampledWhole(s.seen.parts)
      ensures trouble == old(trouble) ==> taken && whole == (checkout && SampledWhole(s.seen.parts))
    {
      taken, whole := SampleLog();
      ghost var began := world;
      if taken && checkout {
        var patched;
        taken, patched := SamplePatch();
        whole := whole && patched;
      } else {
        whole := false;
      }
      SinceOn(old(world), began, world, Exactly(Began));
    }

    // Gives the sample its number.
    method Number(ghost s0: State, whole: bool)
      requires Valid() && Ahead(s0, e) && e.samples.pending.None? && s.disk == s0.disk && s.confirmed == s0.confirmed
      requires whole ==> checkout && SampledWhole(s.seen.parts)
      modifies this`e, this`s, this`world
      ensures Valid() && old(world) <= world && Ahead(s, e)
      ensures e == WithSample(old(e), s.seen.parts)
      ensures whole ==> s.seen.whole == Some(old(e).samples.issued + 1)
      ensures s.seen.parts == old(s).seen.parts
    {
      KeptSeen(world, s, checkout, told);
      AheadMeans(s0, e);
      WholeThen(s, e.samples.issued + 1);
      Record(Sampled(e.samples.issued + 1));
      SampleAhead(s0, s, e);
      e := WithSample(e, s.seen.parts);
    }

    method SampleLog() returns (taken: bool, whole: bool)
      requires Valid() && s.disk.Some?
      modifies this`s, this`world, this`trouble
      ensures old(trouble) <= trouble
      ensures Valid() && old(world) <= world
      ensures s == WithParts(old(s), s.seen.parts) && Since(world, |old(world)|, Exactly(Began))
      ensures taken && whole ==> LogTaken(s.seen.parts)
      ensures trouble == old(trouble) ==> taken && whole == LogTaken(s.seen.parts)
    {
      var read: bool, some: bool := *, *;
      BeganThen(s);
      Record(Began);
      SinceAt(world, |old(world)|, Exactly(Began), |old(world)|);
      ghost var began := world;
      ReadLogThen(s, read, some);
      Record(ReadLog(read, some));
      taken, whole := true, read;
      if some {
        var err, id := PutArtifact(LogTail);
        taken, whole := err != Transient, whole && err == Ok;
      }
      SinceOn(old(world), began, world, Exactly(Began));
    }

    method SamplePatch() returns (taken: bool, whole: bool)
      requires Valid() && s.disk.Some?
      modifies this`s, this`world, this`trouble
      ensures old(trouble) <= trouble
      ensures Valid() && old(world) <= world
      ensures s == WithParts(old(s), s.seen.parts)
      ensures LogTaken(old(s).seen.parts) && taken && whole ==> SampledWhole(s.seen.parts)
      ensures trouble == old(trouble) ==> taken && (LogTaken(old(s).seen.parts) && whole) == SampledWhole(s.seen.parts)
    {
      var cut: bool, tooLarge: bool, some: bool := *, *, *;
      if cut {
        trouble := trouble + 1;
        return false, false;
      }
      DiffedThen(s, tooLarge, some);
      Record(Diffed(tooLarge, some));
      taken, whole := true, !tooLarge;
      if !tooLarge && some {
        var err, id := PutArtifact(Patch);
        taken, whole := err != Transient, err == Ok;
      }
    }

    // Writes the pending sample if a write of it failed before, then sends it once.
    method SendSample() returns (sent: bool)
      requires Valid() && Ahead(s, e) && e.samples.pending.Some? && (e.phase.Running? || e.phase.Restarted?)
      modifies this`e, this`s, this`world, this`trouble
      ensures old(trouble) <= trouble
      ensures Valid() && old(world) <= world && Ahead(s, e)
      ensures e == old(e).(samples := e.samples)
      ensures sent ==> old(e).samples.pending.value.number in s.confirmed
      ensures s.seen.whole == old(s).seen.whole
      ensures s.seen.parts == old(s).seen.parts && (trouble == old(trouble) ==> sent)
      ensures sent ==> TookSince(world, |old(world)|, Request.Checkpoint(old(e).samples.pending.value))
    {
      var err := PutAhead();
      if err != Ok {
        return false;
      }
      ghost var was := world;
      err := Send(Request.Checkpoint(e.samples.pending.value));
      if err != Ok {
        NotAhead(s, e);
        return false;
      }
      SinceOn(old(world), was, world, Exactly(Took(Request.Checkpoint(e.samples.pending.value))));
      was := world;
      Confirm();
      SinceOn(old(world), was, world, Exactly(Took(Request.Checkpoint(old(e).samples.pending.value))));
      sent := true;
    }

    method Confirm()
      requires InStep() && e.samples.pending.Some? && e.samples.pending.value.number in s.confirmed
      requires e.phase.Running? || e.phase.Restarted?
      modifies this`e, this`s, this`world, this`trouble
      ensures old(trouble) <= trouble
      ensures Valid() && old(world) <= world && Ahead(s, e)
      ensures e == Confirming(old(e)) && s.seen == old(s).seen && s.confirmed == old(s).confirmed
    {
      ConfirmedAhead(s, e);
      e := Confirming(e);
      var err := PutAhead();
    }

    method PutAhead() returns (err: Err)
      requires Valid() && Ahead(s, e) && (e.phase.Running? || e.phase.Restarted?)
      modifies this`s, this`world, this`trouble
      ensures Excused(err, old(trouble))
      ensures Valid() && old(world) <= world && Ahead(s, e)
      ensures s.seen == old(s).seen && s.confirmed == old(s).confirmed
      ensures err == Ok ==> InStep()
    {
      AheadMeans(s, e);
      KeptEntry(world, s, checkout, told);
      AheadFollows(s, e);
      ghost var s0 := s;
      err := Put();
      StillAheadPut(s0, s, e);
    }

    // ---------- the report of a failed preparation ----------

    // The report's checkpoint is pending, with all of it read and taken by this process.
    ghost predicate Numbered()
      reads this
    {
      && e.samples.pending == Some(SampleOf(e.reported.number, s.seen.parts)) && e.samples.confirmed < e.reported.number
      && s.seen.wholeReport == Some(e.reported.number) && ReportTaken(s.seen.parts)
    }

    // The platform took that checkpoint since.
    ghost predicate ReportedWhole(since: nat)
      reads this
    {
      && s.seen.wholeReport == Some(e.reported.number) && e.reported.number in s.confirmed
      && ReportTaken(s.seen.parts) && TookSince(world, since, Request.Checkpoint(SampleOf(e.reported.number, s.seen.parts)))
    }

    /** The report of a failed preparation and the end of its log become one
        checkpoint, made at most once. `whole`: both were read and taken in this
        call, and so was the request that names them. */
    method ReportPrepare() returns (whole: bool, err: Err)
      requires InStep() && (e.phase.Exited? || (e.phase.Launching? && s.gone))
      modifies this`e, this`s, this`world, this`trouble
      ensures Excused(err, old(trouble))
      ensures Valid() && old(world) <= world && Reporting(s, e) && s.gone == old(s).gone
      ensures e == old(e).(samples := e.samples, reported := e.reported)
      ensures err != RegistryErr ==> InStep()
      ensures err == Ok ==> e.reported.done
      ensures err.Refusal? ==> err.why == Fenced && s.seen.refusals.checkpoint == Some(Fenced)
      ensures whole ==> ReportedWhole(|old(world)|)
      ensures trouble == old(trouble) && !old(e).reported.done ==> e.reported.number != 0
    {
      err, whole := ReportBegun();
      if err == Ok && !e.reported.done {
        ghost var was := world;
        whole, err := FinishReport(whole);
        if whole {
          SinceOn(old(world), was, world, Exactly(Took(Request.Checkpoint(SampleOf(e.reported.number, s.seen.parts)))));
        }
      } else {
        whole := false;
      }
    }

    method FinishReport(all: bool) returns (whole: bool, err: Err)
      requires InStep() && (e.phase.Exited? || (e.phase.Launching? && s.gone)) && !e.reported.done
      requires all ==> Numbered()
      modifies this`e, this`s, this`world, this`trouble
      ensures Excused(err, old(trouble))
      ensures Valid() && old(world) <= world && Reporting(s, e) && s.gone == old(s).gone
      ensures e == old(e).(samples := e.samples, reported := e.reported)
      ensures err != RegistryErr ==> InStep()
      ensures err == Ok ==> e.reported.done
      ensures err.Refusal? ==> err.why == Fenced && s.seen.refusals.checkpoint == Some(Fenced)
      ensures whole ==> ReportedWhole(|old(world)|)
      ensures e.reported.number == old(e).reported.number
    {
      err := SendPending();
      if err != Ok {
        return false, err;
      }
      SettledMeans(world, |old(world)|, s, old(e), e);
      whole := all && e.samples.confirmed == e.reported.number;
      err := ReportOver(whole, old(world));
    }

    method ReportOver(whole: bool, ghost start: seq<Event>) returns (err: Err)
      requires InStep() && (e.phase.Exited? || (e.phase.Launching? && s.gone)) && e.samples.pending.None? && !e.reported.done
      requires start <= world && (whole ==> ReportedWhole(|start|))
      modifies this`e, this`s, this`world, this`trouble
      ensures Excused(err, old(trouble))
      ensures Valid() && start <= world && Reporting(s, e) && s.gone == old(s).gone && (whole ==> ReportedWhole(|start|))
      ensures e == old(e).(reported := old(e).reported.(done := true))
      ensures err == Ok || err == RegistryErr
      ensures err == Ok ==> InStep()
    {
      ghost var was := world;
      err := ReportGivenUp();
      Grown(start, was, world);
      if whole {
        SinceOn(start, was, world, Exactly(Took(Request.Checkpoint(SampleOf(e.reported.number, s.seen.parts)))));
      }
    }

    // The report's checkpoint is journalled, in this call or before, or given up.
    method ReportBegun() returns (err: Err, whole: bool)
      requires InStep() && (e.phase.Exited? || (e.phase.Launching? && s.gone))
      modifies this`e, this`s, this`world, this`trouble
      ensures Excused(err, old(trouble))
      ensures Valid() && old(world) <= world && Reporting(s, e) && s.gone == old(s).gone
      ensures e == old(e).(samples := e.samples, reported := e.reported)
      ensures err != RegistryErr ==> InStep()
      ensures err.Refusal? ==> err.why == Fenced && s.seen.refusals.checkpoint == Some(Fenced)
      ensures err == Ok && !e.reported.done && whole ==> Numbered()
      ensures trouble == old(trouble) && !old(e).reported.done ==> e.reported.number != 0
    {
      NotReporting(s, e);
      err, whole := Ok, false;
      if !e.reported.done && e.reported.number == 0 {
        err, whole := BeginReport();
      }
    }

    // Journals the report's checkpoint, or gives the report up: no part is taken.
    method BeginReport() returns (err: Err, whole: bool)
      requires InStep() && (e.phase.Exited? || (e.phase.Launching? && s.gone)) && e.reported == Reported(0, false)
      modifies this`e, this`s, this`world, this`trouble
      ensures Excused(err, old(trouble))
      ensures Valid() && old(world) <= world && Reporting(s, e) && s.gone == old(s).gone
      ensures e == old(e).(samples := e.samples, reported := e.reported)
      ensures err != RegistryErr ==> InStep()
      ensures err.Refusal? ==> err.why == Fenced && s.seen.refusals.checkpoint == Some(Fenced)
      ensures err == Ok && !e.reported.done && whole ==> Numbered()
      ensures trouble == old(trouble) ==> e.reported.number != 0
    {
      whole := false;
      err := SendPending();
      if err != Ok {
        return;
      }
      ghost var was := world;
      err, whole := JournalReport();
      Grown(old(world), was, world);
    }

    method JournalReport() returns (err: Err, whole: bool)
      requires InStep() && (e.phase.Exited? || (e.phase.Launching? && s.gone)) && e.reported == Reported(0, false)
      requires e.samples.pending.None?
      modifies this`e, this`s, this`world, this`trouble
      ensures Excused(err, old(trouble))
      ensures Valid() && old(world) <= world && Reporting(s, e) && s.gone == old(s).gone
      ensures e == old(e).(samples := e.samples, reported := e.reported)
      ensures err == Ok || err == Transient || err == RegistryErr
      ensures err != RegistryErr ==> InStep()
      ensures err == Ok && !e.reported.done && whole ==> Numbered()
      ensures trouble == old(trouble) ==> e.reported.number != 0
    {
      var some;
      err, some, whole := ReportParts();
      if err != Ok {
        NotReporting(s, e);
      } else if some {
        err := NumberReport(whole);
      } else {
        err := ReportGivenUp();
      }
    }

    // Uploads the report and the log's end: some of it taken, all of it taken.
    method ReportParts() returns (err: Err, some: bool, whole: bool)
      requires InStep()
      modifies this`s, this`world, this`trouble
      ensures Excused(err, old(trouble))
      ensures InStep() && old(world) <= world && s.gone == old(s).gone && !s.seen.parts.tooLarge
      ensures err == Ok || err == Transient
      ensures err == Ok && whole ==> s.seen.parts.reportId != "" && LogTaken(s.seen.parts)
      ensures trouble == old(trouble) ==> err == Ok && some
    {
      BeganThen(s);
      Record(Began);
      var report, tail: string;
      err, report := PutPart(Report, true);
      if err == Transient {
        return err, false, false;
      }
      var read;
      err, tail, read := ReportTail();
      some, whole := report != "" || tail != "", report != "" && read;
    }

    method ReportTail() returns (err: Err, id: string, whole: bool)
      requires InStep() && s.seen.parts.tailId == ""
      modifies this`s, this`world, this`trouble
      ensures Excused(err, old(trouble))
      ensures InStep() && old(world) <= world && s.gone == old(s).gone
      ensures s.seen.parts.tooLarge == old(s).seen.parts.tooLarge && s.seen.parts.reportId == old(s).seen.parts.reportId
      ensures err == Ok || err == Transient
      ensures err == Ok && whole ==> LogTaken(s.seen.parts)
    {
      var read: bool, some: bool := *, *;
      ReadLogThen(s, read, some);
      Record(ReadLog(read, some));
      err, id := PutPart(LogTail, some);
      whole := read && (some ==> id != "");
    }

    method NumberReport(whole: bool) returns (err: Err)
      requires InStep() && (e.phase.Exited? || (e.phase.Launching? && s.gone)) && e.reported == Reported(0, false)
      requires e.samples.pending.None? && !s.seen.parts.tooLarge
      requires whole ==> s.seen.parts.reportId != "" && LogTaken(s.seen.parts)
      modifies this`e, this`s, this`world, this`trouble
      ensures Excused(err, old(trouble))
      ensures Valid() && old(world) <= world && Reporting(s, e) && s.gone == old(s).gone
      ensures e == WithReportSample(old(e), old(s).seen.parts) && s.seen.parts == old(s).seen.parts
      ensures err == Ok || err == RegistryErr
      ensures err == Ok ==> InStep()
      ensures whole ==> Numbered()
    {
      KeptEntry(world, s, checkout, told);
      WholeThen(s, e.samples.issued + 1);
      Record(Sampled(e.samples.issued + 1));
      ReportSampleReporting(s, e);
      e := WithReportSample(e, s.seen.parts);
      err := PutReporting();
    }

    method ReportGivenUp() returns (err: Err)
      requires InStep() && (e.phase.Exited? || (e.phase.Launching? && s.gone)) && e.samples.pending.None? && !e.reported.done
      modifies this`e, this`s, this`world, this`trouble
      ensures Excused(err, old(trouble))
      ensures Valid() && old(world) <= world && Reporting(s, e) && s.gone == old(s).gone
      ensures e == old(e).(reported := old(e).reported.(done := true))
      ensures s.seen == old(s).seen && s.confirmed == old(s).confirmed
      ensures err == Ok || err == RegistryErr
      ensures err == Ok ==> InStep()
    {
      KeptReported(world, s, checkout, told);
      DoneReporting(s, e);
      e := e.(reported := e.reported.(done := true));
      err := PutReporting();
    }

    method PutReporting() returns (err: Err)
      requires Valid() && Reporting(s, e) && (e.phase.Exited? || (e.phase.Launching? && s.gone))
      modifies this`s, this`world, this`trouble
      ensures Excused(err, old(trouble))
      ensures Valid() && old(world) <= world && Reporting(s, e) && s.gone == old(s).gone
      ensures s.seen == old(s).seen && s.confirmed == old(s).confirmed && s.dropped == old(s).dropped
      ensures err == Ok || err == RegistryErr
      ensures err == Ok ==> InStep()
    {
      ReportingMeans(s, e);
      KeptEntry(world, s, checkout, told);
      ReportingFollows(s, e);
      ghost var s0 := s;
      err := Put();
      ReportingPut(s0, s, e);
    }

    /** Settles what is pending: confirmed when the platform has it, dropped on a
        refusal other than a fence; otherwise it stays as it is. */
    method SendPending() returns (err: Err)
      requires InStep() && (e.phase.Exited? || (e.phase.Launching? && s.gone))
      modifies this`e, this`s, this`world, this`trouble
      ensures Excused(err, old(trouble))
      ensures Valid() && old(world) <= world && Reporting(s, e) && s.gone == old(s).gone
      ensures s.seen.wholeReport == old(s).seen.wholeReport && s.seen.parts == old(s).seen.parts
      ensures e == old(e).(samples := e.samples)
      ensures err != RegistryErr ==> InStep()
      ensures err == Transient || err.Refusal? ==> e == old(e)
      ensures err == Ok || err == RegistryErr ==> Settled(world, |old(world)|, s, old(e), e)
      ensures err == Ok ==> e.samples.pending.None?
      ensures err.Refusal? ==> err.why == Fenced && s.seen.refusals.checkpoint == Some(Fenced)
    {
      NotReporting(s, e);
      if e.samples.pending.None? {
        return Ok;
      }
      err := SendOut();
      if err == Ok || (err.Refusal? && err.why != Fenced) {
        err := DropPending(err == Ok, old(world));
      } else {
        NotReporting(s, e);
      }
    }

    method SendOut() returns (err: Err)
      requires InStep() && (e.phase.Exited? || (e.phase.Launching? && s.gone)) && e.samples.pending.Some?
      modifies this`s, this`world, this`trouble
      ensures Excused(err, old(trouble))
      ensures InStep() && old(world) <= world && s.gone == old(s).gone && err != RegistryErr
      ensures s.seen.wholeReport == old(s).seen.wholeReport && s.seen.parts == old(s).seen.parts
      ensures var p := e.samples.pending.value;
              && (err == Ok ==> p.number in s.confirmed && TookSince(world, |old(world)|, Request.Checkpoint(p)))
              && (err.Refusal? && err.why != Fenced ==> p.number in s.dropped)
      ensures err == Refusal(Fenced) ==> s.seen.refusals.checkpoint == Some(Fenced)
    {
      err := Retry(Request.Checkpoint(e.samples.pending.value));
    }

    method DropPending(confirmed: bool, ghost start: seq<Event>) returns (err: Err)
      requires InStep() && (e.phase.Exited? || (e.phase.Launching? && s.gone)) && e.samples.pending.Some?
      requires e.samples.pending.value.number in if confirmed then s.confirmed else s.dropped
      requires start <= world && (confirmed ==> TookSince(world, |start|, Request.Checkpoint(e.samples.pending.value)))
      modifies this`e, this`s, this`world, this`trouble
      ensures Excused(err, old(trouble))
      ensures Valid() && start <= world && Reporting(s, e) && s.gone == old(s).gone && s.seen == old(s).seen
      ensures e == old(e).(samples := e.samples) && e.samples.pending.None? && Settled(world, |start|, s, old(e), e)
      ensures err == Ok || err == RegistryErr
      ensures err == Ok ==> InStep()
    {
      SettledReporting(s, e, confirmed);
      ghost var d, was := e, world;
      e := if confirmed then Confirming(e) else Dropping(e);
      err := PutReporting();
      Grown(start, was, world);
      if confirmed {
        SinceOn(start, was, world, Exactly(Took(Request.Checkpoint(d.samples.pending.value))));
      }
    }

    // ---------- the phases ----------

    // What a phase's step leaves: a further entry to write, or why not.
    ghost predicate Stepped(err: Err, rank: nat)
      reads this
    {
      && Valid()
      && (err != RegistryErr ==> s.disk.Some?)
      && (err == Ok ==> MayPut(s, e) && Rank(e) < rank)
      && (err == Transient ==> InStep())
      && (err == Refusal(Fenced) ==> !e.phase.Lost? && MayPut(s, Losing(e)))
      && (err.Refusal? && err.why != Fenced ==> ReadyToEnd(s, e, e.exit.how))
    }

    /** Goes from phase to phase while its steps come through; a step that does not
        ends the attempt, loses it, or leaves it as it stands. */
    method Deliver() returns (err: Err, submitted: bool)
      requires InStep() && Rank(e) > 0 && !told.fenced && !told.unswept
      modifies this`e, this`s, this`world, this`told, this`trouble
      ensures Excused(err, old(trouble))
      ensures old(world) <= world && Leaves(err)
      ensures err == Transient ==> InStep()
      ensures submitted ==> exists i :: 0 <= i < |world| && world[i] == Took(Submit)
      ensures trouble == old(trouble) ==> submitted || e.unaltered
    {
      submitted := false;
      var idle;
      while !e.phase.Submitted?
        invariant InStep() && old(world) <= world && Rank(e) > 0 && old(trouble) <= trouble
        invariant !told.unswept && (e.phase.Submitted? || !told.fenced)
        decreases Rank(e)
      {
        err, idle := Step();
        if err == Ok && !idle {
          err := Put();
          if err != Ok {
            return;
          }
        } else {
          err := GivenUp(err, idle);
          return;
        }
      }
      err, submitted := SubmittedStep();
    }

    // Where a step that did not go on leaves the hand-over.
    method GivenUp(step: Err, idle: bool) returns (err: Err)
      requires Valid() && !told.unswept && (step == Ok ==> idle)
      requires if idle then ReadyToEnd(s, e, e.exit.how) else exists rank :: Stepped(step, rank)
      modifies this`e, this`s, this`world, this`told, this`trouble
      ensures old(world) <= world && Leaves(err)
      ensures err == Transient ==> InStep()
      ensures Excused(err, old(trouble)) || (err == step && trouble == old(trouble))
      ensures idle ==> e.unaltered == old(e).unaltered
    {
      if idle || (step.Refusal? && step.why != Fenced) {
        err := End(e.exit.how);
      } else if step == Refusal(Fenced) {
        var salvaged;
        err, salvaged := Lose();
      } else {
        err := step;
      }
    }

    // The step of the phase the hand-over stands in. idle: there is nothing to
    // hand in, and the attempt is only ended.
    method Step() returns (err: Err, idle: bool)
      requires InStep() && Rank(e) > 1 && !told.fenced
      modifies this`e, this`s, this`world, this`told, this`trouble
      ensures Excused(err, old(trouble))
      ensures Valid() && old(world) <= world
      ensures idle ==> ReadyToEnd(s, e, e.exit.how)
      ensures !idle ==> Stepped(err, Rank(old(e)))
      ensures err == Ok && !idle ==> Rank(e) > 0
      ensures told.unswept == old(told).unswept && (!e.phase.Submitted? && err == Ok ==> !told.fenced)
      ensures idle ==> e.unaltered
    {
      idle := false;
      match e.phase {
        case Exited => err := ComputeStep();
        case Computed => err, idle := PersistStep();
        case Persisted => err := SubmittingStep();
        case Submitting => err := SubmitStep();
      }
    }

    method SubmittedStep() returns (err: Err, submitted: bool)
      requires InStep() && e.phase.Submitted? && !told.unswept
      modifies this`e, this`s, this`world, this`told, this`trouble
      ensures Excused(err, old(trouble))
      ensures old(world) <= world && Leaves(err)
      ensures err == Transient ==> InStep()
      ensures submitted && exists i :: 0 <= i < |world| && world[i] == Took(Submit)
    {
      KeptEntry(world, s, checkout, told);
      ghost var i := SubmitTaken(world, s, checkout, told);
      SubmittedEnds(s, e);
      err := End(e.exit.how);
      submitted := true;
    }

    method ComputeStep() returns (err: Err)
      requires InStep() && e.phase.Exited?
      modifies this`e, this`s, this`world, this`trouble
      ensures Excused(err, old(trouble))
      ensures old(world) <= world && Stepped(err, Rank(old(e)))
      ensures err == Ok ==> Rank(e) > 0 && !e.phase.Submitted?
    {
      err := CheckChanges();
      if err != Ok {
        return;
      }
      if e.exit.setupFailed {
        err := ReportFirst();
        if err != Ok {
          return;
        }
      }
      err := SendCompute();
    }

    // An attempt whose setup failed has its report settled before it computes.
    method ReportFirst() returns (err: Err)
      requires InStep() && e.phase.Exited?
      modifies this`e, this`s, this`world, this`trouble
      ensures Excused(err, old(trouble))
      ensures Valid() && old(world) <= world
      ensures e == old(e).(samples := e.samples, reported := e.reported)
      ensures err == Ok ==> e.reported.done
      ensures err != RegistryErr ==> InStep()
      ensures err.Refusal? ==> err.why == Fenced && MayPut(s, Losing(e))
    {
      var whole;
      whole, err := ReportPrepare();
      if err.Refusal? {
        KeptEntry(world, s, checkout, told);
        FencedSample(s, e);
      }
    }

    method SendCompute() returns (err: Err)
      requires InStep() && e.phase.Exited? && (e.exit.setupFailed ==> e.reported.done)
      requires e.checked || !checkout || (e.exit.conclusion == NoConclusion && !e.Implementation())
      modifies this`e, this`s, this`world, this`trouble
      ensures Excused(err, old(trouble))
      ensures old(world) <= world && Stepped(err, Rank(old(e)))
      ensures err == Ok ==> e.phase.Exited? || e.phase.Computed?
    {
      KeptSeen(world, s, checkout, told);
      var answer := Retry(Compute(e.exit.code, e.exit.how, e.exit.conclusion));
      err := AfterCompute(answer);
    }

    method AfterCompute(answer: Err) returns (err: Err)
      requires InStep() && e.phase.Exited? && answer != RegistryErr
      requires answer == Ok ==> s.taken.compute
      requires answer.Refusal? ==> s.seen.refusals.compute == Some(answer.why)
      modifies this`e
      ensures Stepped(err, Rank(old(e))) && (err != Ok ==> err == answer)
      ensures err == Ok ==> e.phase == (if answer == Ok then Computed else Exited)
    {
      KeptEntry(world, s, checkout, told);
      ghost var d := e;
      err := answer;
      if answer == Refusal(OlderPlatform) && e.exit.how == PrepareFailed {
        e := e.(exit := e.exit.(how := Exit)); // computed again, as an ordinary exit
        ComputeOlder(s, d, e);
        err := Ok;
      } else if answer == Ok {
        e := e.(phase := Computed);
        ComputeOk(s, d, e);
      } else if answer.Refusal? {
        ComputeRefused(s, e, answer.why);
      }
    }

    // idle: nothing to hand in, so the attempt is ended.
    method PersistStep() returns (err: Err, idle: bool)
      requires InStep() && e.phase.Computed?
      modifies this`e, this`s, this`world, this`trouble
      ensures Excused(err, old(trouble))
      ensures old(world) <= world
      ensures idle ==> Valid() && ReadyToEnd(s, e, e.exit.how)
      ensures !idle ==> Stepped(err, Rank(old(e)))
      ensures err == Ok && !idle ==> e.phase.Persisted?
      ensures idle ==> e.unaltered
    {
      err := Prepare();
      idle := false;
      if err == RegistryErr || err == Transient {
        return;
      }
      KeptEntry(world, s, checkout, told);
      if err.Refusal? {
        CommitRefusedEnds(s, e);
        err := Refusal(RefusedOther);
      } else if e.unaltered {
        UnalteredEnds(s, e);
        idle := true;
      } else {
        err := SendPersist();
      }
    }

    method SendPersist() returns (err: Err)
      requires InStep() && e.phase.Computed? && e.draft.prepared && !e.unaltered
      modifies this`e, this`s, this`world, this`trouble
      ensures Excused(err, old(trouble))
      ensures old(world) <= world && Stepped(err, Rank(old(e)))
      ensures err == Ok ==> e.phase.Persisted?
    {
      err := PushPrepared();
      if err != Ok {
        return;
      }
      KeptSeen(world, s, checkout, told);
      err := Retry(Persist(e.draft.result));
      KeptEntry(world, s, checkout, told);
      ghost var d := e;
      if err == Ok {
        e := e.(phase := Persisted);
        PersistOk(s, d, e);
      } else if err.Refusal? {
        PersistRefused(s, e, err.why);
      }
    }

    method SubmittingStep() returns (err: Err)
      requires InStep() && e.phase.Persisted?
      modifies this`e
      ensures Stepped(err, Rank(old(e))) && err == Ok && e == old(e).(phase := Submitting)
    {
      KeptEntry(world, s, checkout, told);
      ghost var d := e;
      e := e.(phase := Submitting);
      SubmittingFollows(s, d, e);
      err := Ok;
    }

    method SubmitStep() returns (err: Err)
      requires InStep() && e.phase.Submitting? && !told.fenced
      modifies this`e, this`s, this`world, this`told, this`trouble
      ensures Excused(err, old(trouble))
      ensures old(world) <= world && Stepped(err, Rank(old(e)))
      ensures err == Ok ==> e.phase.Submitted? && e.handedOver
      ensures told == old(told).(fenced := true)
    {
      KeptSeen(world, s, checkout, told);
      KeptTold(world, s, checkout, told, told.(fenced := true));
      told := told.(fenced := true);
      err := Retry(Submit);
      KeptEntry(world, s, checkout, told);
      ghost var d := e;
      if err == Ok {
        e := e.(phase := Submitted, handedOver := true);
        SubmitOk(s, d, e);
      } else if err.Refusal? {
        SubmitRefused(s, e, err.why);
      }
    }

    method Lose() returns (err: Err, salvaged: bool)
      requires Valid() && s.disk.Some? && !told.unswept
      requires !e.phase.Lost? && MayPut(s, Losing(e))
      modifies this`e, this`s, this`world, this`told, this`trouble
      ensures Excused(err, old(trouble))
      ensures old(world) <= world && Leaves(err)
      ensures err == Transient ==> InStep()
      ensures salvaged ==> exists i :: 0 <= i < |world| && world[i].Took? && world[i].q.Salvage?
      ensures trouble == old(trouble) ==> salvaged || e.unaltered
      ensures err == RegistryErr || WroteSince(world, |old(world)|, old(e).(phase := Lost, exit := old(e).exit.(how :=
                                                        if old(e).exit.how == Unset then LeaseLost else old(e).exit.how)))
    {
      e, salvaged := Losing(e), false;
      err := Put();
      if err == Ok {
        ghost var was := world;
        err, salvaged := LoseOn();
        SinceOn(old(world), was, world, Exactly(Wrote(Losing(old(e)))));
      }
    }

    /** Goes on from the phase lost: the result is prepared, its commit pushed and
        the salvage asked for; without a definite answer it stays lost. */
    method LoseOn() returns (err: Err, salvaged: bool)
      requires InStep() && e.phase.Lost? && !told.unswept
      modifies this`e, this`s, this`world, this`told, this`trouble
      ensures Excused(err, old(trouble))
      ensures old(world) <= world && Leaves(err)
      ensures err == Transient ==> InStep()
      ensures salvaged ==> exists i :: 0 <= i < |world| && world[i].Took? && world[i].q.Salvage?
      ensures trouble == old(trouble) ==> salvaged || e.unaltered
    {
      err := Ok;
      if !e.unaltered {
        err := Prepare();
      }
      if err != Ok {
        return if err == RegistryErr then RegistryErr else Transient, false;
      }
      err, salvaged := Salvaged();
      if err == Ok {
        err := End(LeaseLost);
      }
    }

    // Pushes the branch and asks for the salvage, unless nothing changed; Ok once
    // it is answered for good.
    method Salvaged() returns (err: Err, salvaged: bool)
      requires InStep() && e.phase.Lost? && (e.draft.prepared || e.unaltered)
      modifies this`e, this`s, this`world, this`trouble
      ensures Excused(err, old(trouble))
      ensures Valid() && old(world) <= world
      ensures err == Ok || err == Transient
      ensures err == Ok ==> ReadyToEnd(s, e, LeaseLost)
      ensures err == Transient ==> InStep()
      ensures salvaged ==> exists i :: 0 <= i < |world| && world[i].Took? && world[i].q.Salvage?
      ensures trouble == old(trouble) ==> salvaged || e.unaltered
    {
      if e.unaltered {
        KeptEntry(world, s, checkout, told);
        LostEnds(s, e, e);
        return Ok, false;
      }
      err := PushPrepared();
      if err != Ok {
        return err, false;
      }
      KeptSeen(world, s, checkout, told);
      err := Retry(Salvage(e.draft.result));
      err, salvaged := AfterSalvage(err);
    }

    method AfterSalvage(answer: Err) returns (err: Err, salvaged: bool)
      requires InStep() && e.phase.Lost? && answer != RegistryErr
      requires answer == Ok ==> s.taken.salvage
      requires answer.Refusal? ==> s.seen.refusals.salvage == Some(answer.why)
      modifies this`e
      ensures Valid() && (err == Ok || err == Transient) && (err != Ok ==> answer != Ok)
      ensures err == Ok ==> ReadyToEnd(s, e, LeaseLost)
      ensures err == Transient ==> InStep()
      ensures salvaged ==> e.handedOver && exists i :: 0 <= i < |world| && world[i].Took? && world[i].q.Salvage?
      ensures answer == Ok ==> salvaged
    {
      KeptEntry(world, s, checkout, told);
      ghost var d := e;
      if answer == Ok {
        ghost var i := SalvageTaken(world, s, checkout, told);
        e := e.(handedOver := true);
        LostEnds(s, d, e);
        return Ok, true;
      }
      if answer == Refusal(InGrace) || answer == Transient {
        return Transient, false;
      }
      LostEnds(s, d, e);
      return Ok, false;
    }

    // ---------- a restart ----------

    // A process takes the attempt up, with its checkout or without.
    method Open(has: bool)
      requires Valid() && has == (s.disk.Some? && s.disk.value.claim.repo)
      modifies this`s, this`world, this`checkout, this`told
      ensures Valid() && world == old(world) + [Opened(has)] && checkout == has && told == Told(false, false)
      ensures s == old(s).(out := None, seen := SeenNothing(has))
    {
      KeptOpened(world, s, checkout, told, has);
      s, world, checkout, told := Apply(s, Opened(has)), world + [Opened(has)], has, Told(false, false);
    }

    /** One takeover by a process that knows only the registry's entry: the first
        pass, and the second unless it is put off. */
    method Recover() returns (err: Err)
      requires Valid()
      modifies this`e, this`s, this`world, this`checkout, this`told, this`trouble
      ensures Excused(err, old(trouble))
      ensures Valid() && old(world) <= world
      ensures err == Ok || err == Transient || err == RegistryErr
      ensures err == Transient ==> InStep()
      ensures err == Ok ==> s.disk.None? || (InStep() && !e.phase.Early())
    {
      if s.disk.None? {
        return Ok;
      }
      e := s.disk.value;
      Open(e.claim.repo);
      var settled;
      err, settled := FirstPass();
      var later: bool := *;
      if err == Ok && !settled && !e.phase.Uncleared? && !later {
        err := TakeOver();
      }
      if s.disk.Some? {
        KeptEntry(world, s, checkout, told);
      }
    }

    // settled: there is nothing to hand over any more, or not now.
    method FirstPass() returns (err: Err, settled: bool)
      requires InStep() && !told.fenced && !told.unswept
      modifies this`e, this`s, this`world, this`told, this`trouble
      ensures Excused(err, old(trouble))
      ensures Valid() && old(world) <= world
      ensures err == Ok || err == RegistryErr
      ensures err == Ok && !settled ==> InStep() && !e.phase.Early() && !e.phase.Unswept? && !told.fenced && !told.unswept
      ensures err == Ok && settled ==> Over()
      ensures old(e).phase.Early() || (old(e).group != Cleared && old(e).group != NotLooked) ==> Since(world, |old(world)|, AnyLook)
      ensures err == Ok && !settled && !old(e).phase.Early() ==> e == old(e).(group := e.group)
      ensures err == Ok && !settled && old(e).phase.Early() ==>
                e == old(e).(group := e.group, phase := Restarted, exit := old(e).exit.(how := DaemonRestart))
      ensures !(old(e).phase.Early() || old(e).phase.Unswept?) && (old(e).group == Cleared || old(e).group == NotLooked) ==>
                err == Ok && !settled && e == old(e) && world == old(world)
      ensures err == Ok && !settled && old(e).phase.Early() ==> WroteSince(world, |old(world)|, e) && e.group != NotLooked
    {
      KeptEntry(world, s, checkout, told);
      if e.phase.Unswept? {
        err := SweepAgain();
        settled := true;
      } else if e.phase.Early() {
        err := Restart();
        settled := false;
      } else if e.group == Remains || e.group == Unknown {
        err, settled := LookAgain();
      } else {
        err, settled := Ok, false;
      }
    }

    method SweepAgain() returns (err: Err)
      requires InStep() && e.phase.Unswept? && !told.unswept
      modifies this`s, this`world, this`told, this`trouble
      ensures Excused(err, old(trouble))
      ensures Valid() && old(world) <= world
      ensures err == Ok || err == RegistryErr
      ensures err == Ok ==> Over()
    {
      KeptEntry(world, s, checkout, told);
      var unswept := SweepUp();
      err := Ok;
      if !unswept {
        err := Delete();
      }
    }

    method Restart() returns (err: Err)
      requires InStep() && e.phase.Early()
      modifies this`e, this`s, this`world, this`trouble
      ensures Excused(err, old(trouble))
      ensures Valid() && old(world) <= world
      ensures err == Ok || err == RegistryErr
      ensures Since(world, |old(world)|, AnyLook)
      ensures err == Ok ==> InStep() && e == AfterLook(old(e), e.group) && e.group != NotLooked && WroteSince(world, |old(world)|, e)
    {
      KeptEntry(world, s, checkout, told);
      ghost var d := e;
      var g := Look();
      ghost var was := world;
      e := e.(group := g, phase := Restarted, exit := e.exit.(how := DaemonRestart));
      RestartedFollows(s, d, e);
      err := Put();
      SinceOn(old(world), was, world, AnyLook);
      if err == Ok {
        SinceOn(old(world), was, world, Exactly(Wrote(e)));
      }
    }

    method LookAgain() returns (err: Err, settled: bool)
      requires InStep() && !e.phase.Early() && !e.phase.Unswept? && e.group != Cleared && !told.unswept
      requires e.phase.Uncleared? ==> s.taken.ended
      modifies this`e, this`s, this`world, this`told, this`trouble
      ensures Excused(err, old(trouble))
      ensures Valid() && old(world) <= world
      ensures err == Ok || err == RegistryErr
      ensures err == Ok && !settled ==> InStep() && e == old(e).(group := e.group) && e.group != NotLooked
      ensures Since(world, |old(world)|, AnyLook)
      ensures !settled ==> told == old(told)
      ensures err == Ok && settled ==> Over()
    {
      KeptEntry(world, s, checkout, told);
      ghost var d := e;
      var g := Look();
      ghost var was := world;
      e := e.(group := g);
      if e.phase.Uncleared? && g == Cleared {
        err := Finish();
        settled := true;
      } else {
        GroupFollows(s, d, e);
        err := Put();
        settled := false;
      }
      SinceOn(old(world), was, world, AnyLook);
    }

    /** Goes on with the hand-over from its journal. */
    method TakeOver() returns (err: Err)
      requires InStep() && !e.phase.Early() && !e.phase.Uncleared? && !e.phase.Unswept? && !told.fenced && !told.unswept
      modifies this`e, this`s, this`world, this`told, this`trouble
      ensures Excused(err, old(trouble))
      ensures old(world) <= world && Leaves(err)
      ensures err == Transient ==> InStep()
    {
      var done;
      if e.phase.Restarted? {
        err := EndRestarted();
      } else if e.phase.Lost? {
        err, done := LoseOn();
      } else if e.phase.Ending? {
        err := EndAgain();
      } else {
        err, done := Deliver();
      }
    }

    // A sample taken by this takeover, and the end as a restart's.
    method EndRestarted() returns (err: Err)
      requires InStep() && e.phase.Restarted? && !told.unswept
      modifies this`e, this`s, this`world, this`told, this`trouble
      ensures Excused(err, old(trouble))
      ensures old(world) <= world && Leaves(err)
      ensures err == Transient ==> InStep()
      ensures trouble == old(trouble) ==> exists p :: TookSince(world, |old(world)|, Request.Checkpoint(p))
    {
      NotAhead(s, e);
      var whole := TakeCheckpoint();
      ghost var was := world;
      AheadMeans(s, e);
      KeptEntry(world, s, checkout, told);
      RestartedEnds(s, s.disk.value, e, whole);
      e := e.(handedOver := whole);
      err := End(DaemonRestart);
      if p :| TookSince(was, |old(world)|, Request.Checkpoint(p)) {
        SinceOn(old(world), was, world, Exactly(Took(Request.Checkpoint(p))));
      }
    }

    // ---------- the attempt's own process ----------

    // The lease keeper gave the lease up.
    method LoseLease()
      requires Valid()
      modifies this`s, this`world
      ensures Valid() && old(world) <= world
      ensures s == old(s).(seen := old(s).seen.(leaseGone := true))
    {
      LeaseGoneThen(s);
      Record(LeaseGone);
    }

    method TakeCheckout()
      requires InStep() && e.claim.based && e.phase.Launching?
      modifies this`s, this`world, this`checkout
      ensures Valid() && world == old(world) + [CheckedOut] && checkout
      ensures s == old(s).(seen := old(s).seen.(checkout := true)) && InStep()
    {
      KeptCheckedOut(world, s, checkout, told);
      s, world, checkout := Apply(s, CheckedOut), world + [CheckedOut], true;
    }

    // Registers the attempt as launching, before anything of it starts.
    method Register(claim: Claim) returns (err: Err)
      requires Valid() && s.disk.None? && !s.forgotten
      modifies this`e, this`s, this`world, this`trouble
      ensures Excused(err, old(trouble))
      ensures Valid() && old(world) <= world && e == Waiting(claim)
      ensures err == Ok || err == RegistryErr
      ensures err == Ok ==> InStep() && s.gone
    {
      KeptNew(world, s, checkout, told);
      e := Waiting(claim);
      var written, reported := *, *;
      if written {
        FirstWritten(s, e);
        WrittenThen(s, e);
        Record(Wrote(e));
      }
      err := if written && reported then Ok else RegistryErr;
      trouble := trouble + if err == Ok then 0 else 1;
    }

    /** Before any launch: a failure is reported and ended as prepare_failed, but a
        lost lease, a stop or a shutdown meanwhile decides instead. */
    method FailBefore(earlierRuns: bool) returns (err: Err)
      requires InStep() && e == Waiting(e.claim) && s.gone && !told.fenced && !told.unswept
      modifies this`e, this`s, this`world, this`told, this`trouble
      ensures Excused(err, old(trouble))
      ensures old(world) <= world && Leaves(err)
    {
      var why: Interrupt := *;
      match why {
        case ShutDown =>
          err, trouble := Transient, trouble + 1;
        case LeaseLostNow =>
          LoseLease();
          err := LoseStarting();
        case StoppedNow =>
          err := Unlaunched();
        case Uninterrupted =>
          var whole, rerr := ReportPrepare();
          ReportingMeans(s, e);
          KeptEntry(world, s, checkout, told);
          BeforeEnds(s, s.disk.value, e, whole && !earlierRuns);
          e := e.(handedOver := whole && !earlierRuns);
          err := End(PrepareFailed);
      }
    }

    method LoseStarting() returns (err: Err)
      requires Valid() && Starting(s, e) && s.seen.leaseGone && !told.unswept
      modifies this`e, this`s, this`world, this`told, this`trouble
      ensures Excused(err, old(trouble))
      ensures old(world) <= world && Leaves(err)
    {
      StartingLost(s, e);
      var salvaged;
      err, salvaged := Lose();
    }

    // Stopped between registering and release: cancelled and delivered.
    method Unlaunched() returns (err: Err)
      requires Valid() && Starting(s, e) && !told.fenced && !told.unswept
      modifies this`e, this`s, this`world, this`told, this`trouble
      ensures Excused(err, old(trouble))
      ensures old(world) <= world && Leaves(err)
      ensures err == RegistryErr || WroteSince(world, |old(world)|, old(e).(phase := Exited, exit := old(e).exit.(
                                                        how := Cancelled, conclusion := NoConclusion)))
    {
      StartingCancelled(s, e);
      e := Cancelling(e);
      err := Put();
      if err == Ok {
        ghost var was := world;
        var submitted;
        err, submitted := Deliver();
        SinceOn(old(world), was, world, Exactly(Wrote(Cancelling(old(e)))));
      }
    }

    /** A claim from registering on: prepared, launched and supervised, or cut short
        at any of these. */
    method RunAttempt(claim: Claim) returns (err: Err)
      requires Valid() && s.disk.None? && !s.forgotten
      modifies this`e, this`s, this`world, this`checkout, this`told, this`trouble
      ensures Excused(err, old(trouble))
      ensures old(world) <= world && Leaves(err)
    {
      Open(false);
      err := Register(claim);
      if err != Ok {
        return;
      }
      var failed: bool, earlierRuns: bool := *, *;
      if claim.based && !failed {
        TakeCheckout();
      }
      var unprepared: bool := *;
      if failed || unprepared || (claim.branch && !claim.based) {
        err := FailBefore(earlierRuns);
        return;
      }
      err := LaunchAttempt();
    }

    method LaunchAttempt() returns (err: Err)
      requires InStep() && e == Waiting(e.claim) && s.gone && !told.fenced && !told.unswept
      requires checkout == e.claim.based && e.claim.Launches()
      modifies this`e, this`s, this`world, this`told, this`trouble
      ensures Excused(err, old(trouble))
      ensures old(world) <= world && Leaves(err)
    {
      e := Prepared(e.claim);
      var interrupt: Interrupt := *;
      if interrupt.Uninterrupted? {
        var started: bool := *;
        if !started {
          trouble := trouble + 1;
          return Transient; // no group to end: Recover ends the entry
        }
        RecordedFollows(s, s.disk.value, Recorded(e.claim));
        e := Recorded(e.claim);
        err := Put();
        interrupt := *;
        if err == Ok && interrupt.Uninterrupted? {
          err := Supervise();
          return;
        }
      }
      err := Interrupted(interrupt);
    }

    // The launch did not come to its release.
    method Interrupted(interrupt: Interrupt) returns (err: Err)
      requires Valid() && Starting(s, e) && !told.fenced && !told.unswept
      modifies this`e, this`s, this`world, this`told, this`trouble
      ensures Excused(err, old(trouble))
      ensures old(world) <= world && Leaves(err)
    {
      if interrupt.LeaseLostNow? {
        LoseLease();
        err := LoseStarting();
      } else if interrupt.StoppedNow? {
        err := Unlaunched();
      } else if e.phase.Running? {
        StartingEnds(s, e);
        err := End(Exit);
      } else {
        err, trouble := Transient, trouble + 1;
      }
    }

    // Samples the running executor until it exited, then hands over.
    method Supervise() returns (err: Err)
      requires checkout == e.claim.based && InStep() && e == Recorded(e.claim) && !told.fenced && !told.unswept
      modifies this`e, this`s, this`world, this`told, this`trouble
      ensures Excused(err, old(trouble))
      ensures old(world) <= world && Leaves(err)
      ensures Since(world, |old(world)|, AnyLook)
      ensures err == RegistryErr || Since(world, |old(world)|, AnyEnd(old(e).claim))
    {
      NotAhead(s, e);
      var ticks: nat := *;
      while ticks > 0
        invariant Valid() && old(world) <= world && Ahead(s, e) && e.phase.Running? && e.claim == old(e).claim
        invariant told == old(told) && old(trouble) <= trouble
      {
        var whole := TakeCheckpoint();
        ticks := ticks - 1;
      }
      ghost var was := world;
      var lost: bool := *;
      if lost {
        err := SupervisedLoss();
      } else {
        err := SupervisedExit();
      }
      SinceOn(old(world), was, world, AnyLook);
      if err != RegistryErr {
        SinceOn(old(world), was, world, AnyEnd(old(e).claim));
      }
    }

    method SupervisedLoss() returns (err: Err)
      requires Valid() && Ahead(s, e) && e.phase.Running? && !told.unswept
      modifies this`e, this`s, this`world, this`told, this`trouble
      ensures Excused(err, old(trouble))
      ensures old(world) <= world && Leaves(err)
      ensures Since(world, |old(world)|, AnyLook)
      ensures err == RegistryErr || Since(world, |old(world)|, AnyEnd(old(e).claim))
    {
      var g := EndGroup();
      ghost var looked := world;
      err := LoseRunning(g);
      SinceOn(old(world), looked, world, AnyLook);
      if err != RegistryErr {
        SinceOn(old(world), looked, world, AnyEnd(old(e).claim));
      }
    }

    method LoseRunning(g: GroupState) returns (err: Err)
      requires Valid() && Ahead(s, e) && e.phase.Running? && !told.unswept && g != NotLooked && (g == Cleared ==> s.gone)
      modifies this`e, this`s, this`world, this`told, this`trouble
      ensures Excused(err, old(trouble))
      ensures old(world) <= world && Leaves(err)
      ensures err == RegistryErr || Since(world, |old(world)|, AnyEnd(old(e).claim))
    {
      LeaseLostOn(g);
      ghost var was := world;
      err := LoseLooked();
      Grown(old(world), was, world);
      if err != RegistryErr {
        SinceOn(old(world), was, world, AnyEnd(old(e).claim));
      }
    }

    method LeaseLostOn(g: GroupState)
      requires Valid() && Ahead(s, e) && e.phase.Running? && (g == Cleared ==> s.gone)
      modifies this`e, this`s, this`world
      ensures Valid() && old(world) <= world && s.disk.Some?
      ensures e == old(e).(group := g) && MayPut(s, Losing(e)) && e.exit.how == Unset && !e.exit.setupFailed
    {
      ghost var s0 := s;
      LoseLease();
      StillAhead(s0, s, e);
      AheadMeans(s, e);
      KeptEntry(world, s, checkout, told);
      SupervisedLost(s, s.disk.value, e, g);
      e := e.(group := g);
    }

    method LoseLooked() returns (err: Err)
      requires Valid() && s.disk.Some? && !told.unswept && e.phase.Running? && e.group != NotLooked && MayPut(s, Losing(e))
      requires e.exit.how == Unset && !e.exit.setupFailed
      modifies this`e, this`s, this`world, this`told, this`trouble
      ensures Excused(err, old(trouble))
      ensures old(world) <= world && Leaves(err)
      ensures err == RegistryErr || Since(world, |old(world)|, AnyEnd(old(e).claim))
    {
      var salvaged;
      err, salvaged := Lose();
      if err != RegistryErr {
        EndTold(world, |old(world)|, Losing(old(e)));
      }
    }

    method SupervisedExit() returns (err: Err)
      requires checkout == e.claim.based
      requires Valid() && Ahead(s, e) && e.phase.Running? && !told.fenced && !told.unswept
      modifies this`e, this`s, this`world, this`told, this`trouble
      ensures Excused(err, old(trouble))
      ensures old(world) <= world && Leaves(err)
      ensures Since(world, |old(world)|, AnyLook)
      ensures err == RegistryErr || Since(world, |old(world)|, AnyEnd(old(e).claim))
    {
      var g := EndGroup();
      var exit := HowItExited();
      AheadMeans(s, e);
      KeptEntry(world, s, checkout, told);
      KeptSeen(world, s, checkout, told);
      SupervisedExited(s, s.disk.value, e, g, exit);
      ghost var looked := world;
      e := e.(group := g, phase := Exited, exit := exit);
      err := Put();
      ghost var was := world;
      if err == Ok {
        EndTold(world, |looked|, e);
        SinceOn(old(world), looked, world, AnyEnd(old(e).claim));
        var submitted;
        err, submitted := Deliver();
        SinceOn(old(world), was, world, AnyEnd(old(e).claim));
      }
      SinceOn(old(world), looked, world, AnyLook);
    }

    // How the executor ended: by itself, its setup failing, or stopped.
    method HowItExited() returns (exit: ExitInfo)
      ensures exit.how != Unset && exit.how != LeaseLost && exit.conclusion != NotYet
      ensures exit.setupFailed ==> exit.how == PrepareFailed
    {
      exit := *;
      if exit.conclusion == NotYet {
        exit := exit.(conclusion := Failed);
      }
      if exit.how == Unset || exit.how == LeaseLost {
        exit := exit.(how := Exit);
      }
      if exit.setupFailed {
        exit := exit.(how := PrepareFailed);
      }
    }

    // Ends what the executor left running; it goes into the entry later.
    method EndGroup() returns (g: GroupState)
      requires Valid() && Ahead(s, e) && e.phase.Running?
      modifies this`s, this`world
      ensures Valid() && old(world) <= world && Ahead(s, e)
      ensures g == Cleared ==> s.gone
      ensures g != NotLooked && Since(world, |old(world)|, AnyLook)
    {
      AheadMeans(s, e);
      KeptEntry(world, s, checkout, told);
      ghost var s0 := s;
      g := Look();
      StillAhead(s0, s, e);
    }

    // ---------- a whole life ----------

    // agentd dies: what was done is done, and memory is gone.
    method Crash(k: nat)
      requires Valid() && k <= |world|
      modifies this`e, this`s, this`world, this`checkout, this`told
      ensures Valid() && world == old(world)[..k]
    {
      KeptCrash(world, s, checkout, told, k);
      e, world := Waiting(e.claim), world[..k];
      s := Fold(world);
      checkout, told := s.seen.checkout, Told(true, true);
    }

    /** Any life of an attempt: its own run, then takeovers, each of them cut short
        by a crash at any event or not at all. Its history is one the journal allows. */
    method Life(claim: Claim)
      requires Valid() && world == []
      modifies this`e, this`s, this`world, this`checkout, this`told, this`trouble
      ensures Valid() && Legal(world)
    {
      KeptMeans(world, s, checkout, told);
      var err := RunAttempt(claim);
      Crashed(0);
      var restarts: nat := *;
      while restarts > 0
        invariant Valid()
      {
        var before := |world|;
        err := Recover();
        Crashed(before);
        restarts := restarts - 1;
      }
      KeptMeans(world, s, checkout, told);
    }

    // A crash at some event since before, or none.
    method Crashed(before: nat)
      requires Valid() && before <= |world|
      modifies this`e, this`s, this`world, this`checkout, this`told
      ensures Valid() && old(world)[..before] <= world <= old(world)
    {
      var crashed: bool, k: nat := *, *;
      if crashed && before <= k <= |world| {
        Crash(k);
      }
    }
  }
}
