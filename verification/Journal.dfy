/** The hand-over journal of one attempt: what agentd writes to its registry,
    what it sends to the platform, and which of these may follow which.

    A history is everything that happened to one attempt outside agentd's memory,
    oldest first: its registry entry written or removed, requests sent, and the
    platform's answers. `Fold` is what a history amounts to, `Allowed` says which
    event may come next, and `Legal` that every event of a history was allowed
    when it came. A crash is not an event: it only ends a history early, so what
    holds of every legal history holds at every point agentd can die. */
module Journal {

  import opened Common

  datatype Phase =
    | Launching | Running | Exited | Computed | Persisted | Submitting | Submitted
    | Lost | Restarted | Ending | Uncleared | Unswept
  {
    // The executor's end is not known to the platform yet.
    predicate Early() { Launching? || Running? }

    // The result is prepared here.
    predicate Preparing() { Computed? || Lost? }

    // Only prepared results are here.
    predicate HandedIn() { Persisted? || Submitting? || Submitted? }

    // The ended request is written.
    predicate Over() { Ending? || Uncleared? || Unswept? }
  }

  datatype EndHow = Unset | Exit | PrepareFailed | LeaseLost | DaemonRestart | Cancelled | HardLimit

  // The conclusion "none" is NoConclusion; NotYet is the empty one.
  datatype Conclusion = NotYet | NoConclusion | Failed | Done

  // What the claim says of the attempt; it never changes. `repo`: the registry's entry
  // names a repository, by which a later process takes the workspace for its checkout.
  // `based`: there is a repository and a base commit to make a checkout of. Neither
  // implies the other: a base commit may be missing, and a check has its own of both.
  datatype Claim = Claim(attempt: string, implement: bool, branch: bool, repo: bool, based: bool)
  {
    // An attempt that is to push a branch is not launched without a checkout.
    predicate Launches() { branch ==> based }
  }

  // What a checkpoint request carries.
  datatype Sample = Sample(number: nat, artifacts: seq<string>, tooLarge: bool)

  datatype EndRequest = EndRequest(endHow: EndHow, cleared: bool)

  // What persist and salvage carry.
  datatype Result = Result(report: string, artifacts: seq<string>, commit: string)

  // The checkpoints: the last number given out, the last one confirmed, and the
  // sample given out and not confirmed yet.
  datatype Samples = Samples(issued: nat, confirmed: nat, pending: Option<Sample>)

  datatype ExitInfo = ExitInfo(code: Option<int>, how: EndHow, conclusion: Conclusion, setupFailed: bool)

  // The result as far as it is prepared, and what of it is done.
  datatype Draft = Draft(logTailDone: bool, reportDone: bool, prepared: bool, result: Result)

  // The report of a failed preparation: its checkpoint's number (0: none yet), and
  // whether there is nothing more to do for it.
  datatype Reported = Reported(number: nat, done: bool)

  /** One attempt's entry in the registry. `launched` is whether it names a
      process group. */
  datatype Entry = Entry(
    claim: Claim, phase: Phase, launched: bool, group: GroupState,
    checked: bool, unaltered: bool, handedOver: bool,
    samples: Samples, exit: ExitInfo, draft: Draft, reported: Reported,
    endRequest: Option<EndRequest>)
  {
    predicate Implementation() {
      claim.implement && claim.branch
    }
  }

  // An entry with nothing of the hand-over in it yet.
  function Blank(claim: Claim, phase: Phase, launched: bool, group: GroupState): Entry {
    Entry(claim, phase, launched, group, false, false, false, Samples(0, 0, None), ExitInfo(None, Unset, NotYet, false),
          Draft(false, false, false, Result("", [], "")), Reported(0, false), None)
  }

  datatype Request =
    | Compute(code: Option<int>, how: EndHow, conclusion: Conclusion)
    | Persist(result: Result)
    | Submit
    | Salvage(result: Result)
    | Checkpoint(sample: Sample)
    | End(end: EndRequest)

  // Why the platform refused: the lease is another's, its grace is not over, the
  // kind of end is newer than the platform, or anything else.
  datatype Why = Fenced | InGrace | OlderPlatform | RefusedOther

  datatype Upload = LogTail | Report | Patch

  datatype Sweep = Emptied | NotAWorkspace | SweepFailed

  datatype Event =
    | Opened(checkout: bool)              // a process takes the attempt up, with a checkout by what the entry says
    | CheckedOut                          // this process has the checkout from here on
    | LeaseGone                           // the lease keeper gave the lease up
    | Wrote(entry: Entry)                 // the registry holds this entry now
    | Forgot                              // the registry holds none any more
    | Sent(q: Request)
    | Took(q: Request)                    // the platform has it, whether or not agentd learns so
    | Refused(q: Request, why: Why)       // the platform's definite no
    | Began                               // the parts of a sample or a result are read from here on
    | ReadLog(read: bool, some: bool)     // read, or not there; and not empty
    | ReadReport(some: bool)
    | Diffed(tooLarge: bool, some: bool)  // the checkout's patch was taken
    | Uploaded(what: Upload, id: string)
    | UploadRefused(what: Upload)         // for good
    | Sampled(number: nat)                // a sample's request was put together
    | Inspected(bad: bool, same: bool)    // what the executor changed: not allowed; nothing at all
    | Committed(commit: string)           // the checkout's commit, "" when there is nothing to commit
    | CommitRefused                       // the commit failed for good
    | Pushed(commit: string, arrived: bool)
    | Looked(group: GroupState)           // the group was ended and looked at
    | Swept(how: Sweep)

  /** The parts of a sample, or of a result, this process read since Began, and
      the ids of those the platform took ("" for none yet). */
  datatype Parts = Parts(
    logRead: bool, tail: bool, tailId: string, tailRefused: bool,
    reportRead: bool, report: bool, reportId: string, reportRefused: bool,
    diffed: bool, tooLarge: bool, patch: bool, patchId: string)
  {
    function Names(): seq<string> {
      (if reportId == "" then [] else [reportId]) + (if tailId == "" then [] else [tailId]) + (if patchId == "" then [] else [patchId])
    }
  }

  const NoParts := Parts(false, false, "", false, false, false, "", false, false, false, false, "")

  // The last refusal of each request this process got.
  datatype Refusals = Refusals(compute: Option<Why>, persist: Option<Why>, submit: Option<Why>,
                               salvage: Option<Why>, checkpoint: Option<Why>, end: Option<Why>)

  const NoRefusals := Refusals(None, None, None, None, None, None)

  /** What this process saw since it took the attempt up (Opened forgets it):
      the parts it read, the sample it put together with every part in it, what
      it found in the checkout, and the definite refusals. */
  datatype Seen = Seen(
    checkout: bool, parts: Parts, sampled: Option<Sample>, whole: Option<nat>, wholeReport: Option<nat>,
    inspected: Option<(bool, bool)>, made: Option<string>,
    leaseGone: bool, refusals: Refusals, commitRefused: bool, sweepFailed: bool)

  function SeenNothing(checkout: bool): Seen {
    Seen(checkout, NoParts, None, None, None, None, None, false, NoRefusals, false, false)
  }

  // Which requests the platform ever took (the ended one: or refused for good).
  datatype Taken = Taken(compute: bool, persist: bool, submit: bool, salvage: bool, ended: bool)

  /** What a history amounts to: the registry's entry now (`forgotten` once it
      was removed), whether its group is known gone, the request out, and what
      the platform has. */
  datatype State = State(
    disk: Option<Entry>, forgotten: bool, gone: bool, out: Option<Request>, taken: Taken,
    pushed: Option<string>, confirmed: set<nat>, dropped: set<nat>, seen: Seen)

  const Start := State(None, false, true, None, Taken(false, false, false, false, false), None, {}, {}, SeenNothing(false))

  // A sample holds all a sample takes: a checkout, the log read and its tail
  // taken, the patch there, not too large and taken.
  predicate Whole(n: Seen) {
    var p := n.parts;
    n.checkout && p.logRead && (p.tail ==> p.tailId != "") && p.diffed && !p.tooLarge && (p.patch ==> p.patchId != "")
  }

  // The report of a failed preparation holds all it takes.
  predicate WholeReport(n: Seen) {
    n.parts.reportId != "" && n.parts.logRead && (n.parts.tail ==> n.parts.tailId != "") && !n.parts.tooLarge
  }

  // An answer to an ended request after which it is not sent again: not the
  // refusal of an end an older platform does not have.
  predicate Definite(q: Request, why: Why) {
    !(why == OlderPlatform && q.End? && q.end.endHow == PrepareFailed)
  }

  function PartsAfter(p: Parts, ev: Event): Parts {
    if ev.Began? then NoParts
    else
      Parts(if ev.ReadLog? then ev.read else p.logRead,
            if ev.ReadLog? then ev.some else p.tail,
            if ev.Uploaded? && ev.what.LogTail? then ev.id else p.tailId,
            p.tailRefused || (ev.UploadRefused? && ev.what.LogTail?),
            p.reportRead || ev.ReadReport?,
            if ev.ReadReport? then ev.some else p.report,
            if ev.Uploaded? && ev.what.Report? then ev.id else p.reportId,
            p.reportRefused || (ev.UploadRefused? && ev.what.Report?),
            p.diffed || ev.Diffed?,
            if ev.Diffed? then ev.tooLarge else p.tooLarge,
            if ev.Diffed? then ev.some else p.patch,
            if ev.Uploaded? && ev.what.Patch? then ev.id else p.patchId)
  }

  function RefusalsAfter(r: Refusals, q: Request, why: Why): Refusals {
    Refusals(if q.Compute? then Some(why) else r.compute,
             if q.Persist? then Some(why) else r.persist,
             if q.Submit? then Some(why) else r.submit,
             if q.Salvage? then Some(why) else r.salvage,
             if q.Checkpoint? then Some(why) else r.checkpoint,
             if q.End? then Some(why) else r.end)
  }

  function SeenAfter(n: Seen, ev: Event): Seen {
    if ev.Opened? then SeenNothing(ev.checkout)
    else
      Seen(n.checkout || ev.CheckedOut?,
           PartsAfter(n.parts, ev),
           if ev.Sampled? then Some(Sample(ev.number, n.parts.Names(), n.parts.tooLarge)) else n.sampled,
           if ev.Sampled? then (if Whole(n) then Some(ev.number) else None) else n.whole,
           if ev.Sampled? then (if WholeReport(n) then Some(ev.number) else None) else n.wholeReport,
           if ev.Inspected? then Some((ev.bad, ev.same)) else n.inspected,
           if ev.Committed? then Some(ev.commit) else n.made,
           n.leaseGone || ev.LeaseGone?,
           if ev.Refused? then RefusalsAfter(n.refusals, ev.q, ev.why) else n.refusals,
           n.commitRefused || ev.CommitRefused?,
           if ev.Swept? then ev.how == SweepFailed else n.sweepFailed)
  }

  function TakenAfter(t: Taken, ev: Event): Taken {
    if ev.Took? then
      Taken(t.compute || ev.q.Compute?, t.persist || ev.q.Persist?, t.submit || ev.q.Submit?, t.salvage || ev.q.Salvage?,
            t.ended || ev.q.End?)
    else if ev.Refused? then t.(ended := t.ended || (ev.q.End? && Definite(ev.q, ev.why)))
    else t
  }

  // The entry names a process group now, one nobody has looked at yet.
  predicate LaunchesOver(disk: Option<Entry>, ev: Event) {
    ev.Wrote? && ev.entry.launched && ev.entry.group == NotLooked && (disk.None? || !disk.value.launched)
  }

  function Apply(s: State, ev: Event): State {
    State(
      if ev.Wrote? then Some(ev.entry) else if ev.Forgot? then None else s.disk,
      s.forgotten || ev.Forgot?,
      if ev.Looked? then ev.group == Cleared else s.gone && !LaunchesOver(s.disk, ev),
      if ev.Sent? then Some(ev.q) else if ev.Opened? || ev.Wrote? || ev.Forgot? || ev.Refused? then None else s.out,
      TakenAfter(s.taken, ev),
      if ev.Pushed? && ev.arrived then Some(ev.commit) else s.pushed,
      if ev.Took? && ev.q.Checkpoint? then s.confirmed + {ev.q.sample.number} else s.confirmed,
      if ev.Refused? && ev.q.Checkpoint? && ev.why != Fenced then s.dropped + {ev.q.sample.number} else s.dropped,
      SeenAfter(s.seen, ev))
  }

  function Fold(h: seq<Event>): State {
    if |h| == 0 then Start else Apply(Fold(h[..|h|-1]), h[|h|-1])
  }

  // ---------- what may be written over an entry ----------

  // The commit a result is prepared with: the checkout's, where there is one.
  function CommitMade(n: Seen, claim: Claim): string {
    if n.checkout && claim.branch && n.made.Some? then n.made.value else ""
  }

  // The check of what the executor changed: a result that is not allowed fails,
  // and an implementation that changed nothing concludes none.
  function Verdict(c: Conclusion, bad: bool, idle: bool): Conclusion {
    var after := if bad && c != NoConclusion then Failed else c;
    if idle && after == Done then NoConclusion else after
  }

  // The result is fixed once it is prepared; before that each part is fixed once
  // it is done: it was read, and what was there is uploaded, or refused for good.
  ghost predicate KeepsDraft(n: Seen, claim: Claim, phase: Phase, d: Draft, e: Draft) {
    || e == d
    || (phase.Preparing() && !d.prepared && !d.logTailDone && n.parts.logRead
        && (n.parts.tail ==> n.parts.tailId != "" || n.parts.tailRefused)
        && e == d.(logTailDone := true, result := d.result.(artifacts :=
                     if n.parts.tailId == "" then d.result.artifacts else d.result.artifacts + [n.parts.tailId])))
    || (phase.Preparing() && !d.prepared && !d.reportDone && n.parts.reportRead
        && (n.parts.report ==> n.parts.reportId != "" || n.parts.reportRefused)
        && e == d.(reportDone := true, result := d.result.(report :=
                     if n.parts.reportId == "" then d.result.report else n.parts.reportId)))
    || (phase.Preparing() && !d.prepared && d.logTailDone && d.reportDone
        && (n.checkout && claim.branch ==> n.made.Some?)
        && e == d.(prepared := true, result := d.result.(commit := CommitMade(n, claim))))
  }

  // The marks: unaltered stays, and is set by the check, or when the result is
  // prepared and there is nothing to commit; the check is made once.
  ghost predicate KeepsMark(n: Seen, d: Entry, e: Entry) {
    if e.checked != d.checked then
      && e.checked && d.phase.Exited? && e.phase.Exited? && n.inspected.Some? && e.draft == d.draft
      && e.unaltered == (d.unaltered || (d.Implementation() && n.inspected.value.1))
    else if e.draft.prepared && !d.draft.prepared then
      e.unaltered == (d.unaltered || (d.Implementation() && n.checkout && n.made == Some("")))
    else e.unaltered == d.unaltered
  }

  // How it exited and what it concluded: set when it is known to have ended, then
  // changed by the check only, or ended as an older platform knows. Only one that ran
  // concludes something, and its process has a checkout where there is one to make.
  ghost predicate KeepsExit(n: Seen, d: Entry, e: Entry) {
    if d.phase.Early() then
      match e.phase
      case Exited =>
        && e.exit.how != Unset && e.exit.conclusion != NotYet
        && (e.exit.conclusion == NoConclusion || (d.phase.Running? && n.checkout == d.claim.based))
      case Restarted => e.exit == d.exit.(how := DaemonRestart)
      case Lost => e.exit == d.exit.(how := LeaseLost)
      case _ => e.exit == d.exit
    else if e.checked && !d.checked && n.inspected.Some? then
      var (bad, same) := n.inspected.value;
      e.exit == d.exit.(conclusion := Verdict(d.exit.conclusion, bad, d.Implementation() && same))
    else
      || e.exit == d.exit
      || (d.exit.how == Unset && e.phase.Lost? && e.exit == d.exit.(how := LeaseLost))
      || (d.phase.Exited? && e.phase.Exited? && d.exit.how == PrepareFailed && e.exit == d.exit.(how := Exit)
          && n.refusals.compute == Some(OlderPlatform))
  }

  // The ended request is written once, with the group's state then; only an
  // older platform's refusal of prepare_failed turns it into exit.
  ghost predicate KeepsEnd(n: Seen, d: Entry, e: Entry) {
    match (d.endRequest, e.endRequest)
    case (None, None) => !e.phase.Over()
    case (None, Some(r)) => e.phase.Ending? && r.cleared == (e.group == Cleared)
    case (Some(_), None) => false
    case (Some(q), Some(r)) =>
      q == r || (q.endHow == PrepareFailed && r == q.(endHow := Exit) && n.refusals.end == Some(OlderPlatform))
  }

  // Checkpoint numbers go up by one; a sample stays pending until it was
  // confirmed or dropped, and only then may the next one be pending.
  ghost predicate KeepsSamples(s: State, d: Samples, e: Samples) {
    || e == d
    || (d.pending.Some? && e.pending.None? && e.issued == d.issued
        && ((e.confirmed == d.pending.value.number && e.confirmed in s.confirmed)
            || (e.confirmed == d.confirmed && d.pending.value.number in s.dropped)))
    || (e.issued == d.issued + 1 && e.pending.Some? && e.pending == s.seen.sampled && e.pending.value.number == e.issued
        && ((d.pending.None? && e.confirmed == d.confirmed)
            || (d.pending.Some? && e.confirmed == d.pending.value.number && e.confirmed in s.confirmed)))
  }

  ghost predicate KeepsReported(s: State, d: Entry, e: Entry) {
    || e.reported == d.reported
    || (d.reported == Reported(0, false) && d.samples.pending.None? && e.samples.pending.Some?
        && e.reported == Reported(e.samples.pending.value.number, false))
    || (!d.reported.done && e.reported == d.reported.(done := true) && e.samples.pending.None?
        && (e.reported.number == 0 || e.reported.number in s.confirmed || e.reported.number in s.dropped))
  }

  // The platform holds the attempt's work: by submit, by salvage, or by a sample (or
  // the report of a failed preparation) this process put together whole.
  ghost predicate MayHandOver(s: State, d: Entry, e: Entry) {
    || (e.phase.Submitted? && s.taken.submit)
    || (e.phase.Ending? && d.phase.Lost? && s.taken.salvage)
    || (e.phase.Ending? && d.phase.Restarted? && s.seen.whole.Some? && s.seen.whole.value in s.confirmed)
    || (e.phase.Ending? && d.phase.Launching? && s.seen.wholeReport.Some? && s.seen.wholeReport.value in s.confirmed)
  }

  ghost predicate KeepsHandedOver(s: State, d: Entry, e: Entry) {
    e.handedOver == d.handedOver || (e.handedOver && MayHandOver(s, d, e))
  }

  // The group is written as cleared only when it is known gone.
  ghost predicate KnowsGroup(s: State, d: Entry, e: Entry) {
    && (e.group == Cleared ==> s.gone)
    && (d.group == Cleared && !d.phase.Launching? ==> e.group == Cleared)
    && (e.launched == d.launched || (d.phase.Launching? && !e.phase.Launching? && e.launched))
    && (e.phase.Running? ==> e.group == NotLooked)
    && (e.phase.Running? && d.phase.Launching? ==> e == Blank(d.claim, Running, true, NotLooked))
  }

  // A refusal for good of this phase's own request, seen by this process.
  ghost predicate GaveUp(n: Seen, d: Entry) {
    match d.phase
    case Exited => n.refusals.compute.Some? && n.refusals.compute != Some(Fenced)
                   && !(n.refusals.compute == Some(OlderPlatform) && d.exit.how == PrepareFailed)
    case Computed => n.commitRefused || (n.refusals.persist.Some? && n.refusals.persist != Some(Fenced))
    case Submitting => n.refusals.submit.Some? && n.refusals.submit != Some(Fenced)
    case _ => false
  }

  ghost predicate MayLose(n: Seen, d: Entry) {
    match d.phase
    case Launching => n.leaseGone
    case Running => n.leaseGone
    case Exited => n.refusals.compute == Some(Fenced) || n.refusals.checkpoint == Some(Fenced)
    case Computed => n.refusals.persist == Some(Fenced)
    case Submitting => n.refusals.submit == Some(Fenced)
    case _ => false
  }

  function EndOf(how: EndHow): EndHow {
    if how == Unset then Exit else how
  }

  // Why the attempt may be ended from d's phase, and the end the request names.
  ghost predicate MayEnd(s: State, d: Entry, e: Entry) {
    e.endRequest.Some? &&
    var how, n := e.endRequest.value.endHow, s.seen;
    match d.phase
    case Launching => how == PrepareFailed || (how == Exit && e.launched)
    case Running => how == Exit
    case Exited => GaveUp(n, d) && how == EndOf(d.exit.how)
    case Computed => ((d.unaltered && d.draft.prepared) || GaveUp(n, d)) && how == EndOf(d.exit.how)
    case Submitting => GaveUp(n, d) && how == EndOf(d.exit.how)
    case Submitted => how == EndOf(d.exit.how)
    case Lost =>
      && how == LeaseLost
      && (d.unaltered || (s.taken.salvage && e.handedOver)
          || (n.refusals.salvage.Some? && n.refusals.salvage != Some(InGrace)))
    case Restarted => how == DaemonRestart
    case _ => false
  }

  ghost predicate Moves(s: State, d: Entry, e: Entry) {
    if d.phase == e.phase then true else
    match e.phase
    case Launching => false
    case Running => d.phase.Launching? && d.claim.Launches()
    case Exited => d.phase.Early()
    case Computed => d.phase.Exited? && s.taken.compute
    case Persisted => d.phase.Computed? && s.taken.persist
    case Submitting => d.phase.Persisted?
    case Submitted => d.phase.Submitting? && s.taken.submit && e.handedOver
    case Lost => MayLose(s.seen, d)
    case Restarted => d.phase.Early()
    case Ending => MayEnd(s, d, e)
    case Uncleared => d.phase.Ending? && s.taken.ended && e.group != Cleared
    case Unswept =>
      && (d.phase.Ending? || d.phase.Uncleared?) && s.taken.ended && e.group == Cleared && d.handedOver && s.seen.sweepFailed
  }

  ghost predicate Follows(s: State, d: Entry, e: Entry) {
    && e.claim == d.claim
    && Moves(s, d, e)
    && (e.draft != d.draft ==> e.phase == d.phase)
    && KeepsDraft(s.seen, d.claim, d.phase, d.draft, e.draft)
    && KeepsMark(s.seen, d, e)
    && KeepsExit(s.seen, d, e)
    && KeepsEnd(s.seen, d, e)
    && KeepsSamples(s, d.samples, e.samples)
    && KeepsReported(s, d, e)
    && KeepsHandedOver(s, d, e)
    && KnowsGroup(s, d, e)
  }

  // The entry e may be written over the one the registry holds. The verifier looks
  // inside only where Asks is asserted (MayPutMeans), which keeps other proofs small.
  ghost predicate MayPut(s: State, e: Entry) {
    forall u: int {:trigger Asks(s, e, u)} :: Asks(s, e, u) ==> s.disk.Some? && Follows(s, s.disk.value, e)
  }

  ghost predicate Asks(s: State, e: Entry, u: int) { true }

  lemma MayPutMeans(s: State, e: Entry)
    requires MayPut(s, e)
    ensures s.disk.Some? && Follows(s, s.disk.value, e)
  {
    assert Asks(s, e, 0);
  }

  // ---------- what may be sent ----------

  // The commit the journal names is on its branch; an attempt with no checkout
  // here, or with nothing committed, has none to push.
  ghost predicate PushedFirst(s: State, d: Entry) {
    d.draft.result.commit == "" || !s.seen.checkout || s.pushed == Some(d.draft.result.commit)
  }

  // What the executor changed was checked: not asked of an attempt with no
  // checkout here, or of one concluding nothing that is no implementation.
  ghost predicate CheckedFirst(s: State, d: Entry) {
    d.checked || !s.seen.checkout || (d.exit.conclusion == NoConclusion && !d.Implementation())
  }

  // Every request is the one the registry's entry says, in its phase.
  ghost predicate MaySend(s: State, d: Entry, q: Request) {
    match q
    case Compute(code, how, conclusion) =>
      && d.phase.Exited? && code == d.exit.code && how == d.exit.how && conclusion == d.exit.conclusion
      && CheckedFirst(s, d) && (d.exit.setupFailed ==> d.reported.done)
    case Persist(r) => d.phase.Computed? && d.draft.prepared && !d.unaltered && r == d.draft.result && PushedFirst(s, d)
    case Submit => d.phase.Submitting? && s.seen.refusals.submit != Some(Fenced)
    case Salvage(r) => d.phase.Lost? && d.draft.prepared && !d.unaltered && r == d.draft.result && PushedFirst(s, d)
    case Checkpoint(p) => d.samples.pending == Some(p) && (d.phase.Early() || d.phase.Exited? || d.phase.Restarted?)
    case End(r) => d.endRequest == Some(r) && d.phase.Ending?
  }

  ghost predicate Allowed(s: State, ev: Event) {
    match ev
    case Opened(has) => has == (s.disk.Some? && s.disk.value.claim.repo)
    case CheckedOut => s.disk.Some? && s.disk.value.claim.based && s.disk.value.phase.Launching?
    case Inspected(_, _) => s.disk.Some? && s.seen.checkout
    case Wrote(e) =>
      if s.disk.None? then !s.forgotten && e == Blank(e.claim, Launching, false, Cleared)
      else MayPut(s, e)
    case Forgot => s.disk.Some? && s.disk.value.phase.Over() && s.gone && s.taken.ended
                   && !(s.disk.value.handedOver && s.seen.sweepFailed)
    case Sent(q) => s.disk.Some? && MaySend(s, s.disk.value, q)
    case Took(q) => s.out == Some(q)
    case Refused(q, _) => s.out == Some(q)
    case Uploaded(_, id) => id != ""
    case Sampled(n) => s.disk.Some? && n > s.disk.value.samples.issued
    case Committed(_) => s.disk.Some? && !s.disk.value.draft.prepared
    case CommitRefused => s.disk.Some? && !s.disk.value.draft.prepared
    case Pushed(c, _) =>
      && s.disk.Some? && s.disk.value.draft.prepared && !s.disk.value.unaltered && s.disk.value.phase.Preparing()
      && c == s.disk.value.draft.result.commit && c != ""
    case Looked(g) => s.disk.Some? && (s.disk.value.group == Cleared && !s.disk.value.phase.Launching? ==> g == Cleared)
    case Swept(_) => s.disk.Some? && s.disk.value.handedOver && s.gone && s.taken.ended
    case _ => true // what the process reads and learns, and a process starting
  }

  ghost predicate Legal(h: seq<Event>) {
    |h| == 0 || (Legal(h[..|h|-1]) && Allowed(Fold(h[..|h|-1]), h[|h|-1]))
  }

  // The entry the registry holds after h: what a process takes up.
  function Disk(h: seq<Event>): Option<Entry> {
    Fold(h).disk
  }
}
