/** What the requests of an attempt tell: how its end is named, what a check of its
    changes makes of its conclusion, and of what a result and a sample are put together.
    All of it is told of the events of a history, not of the rules that allow them. */
module Telling {
  import opened Common
  import opened Journal
  import opened JournalSafety

  // ---------- the end ----------

  // The end told of an attempt whose entry was d when its end was begun.
  predicate EndTells(d: Entry, how: EndHow) {
    match d.phase
    case Exited => how == d.exit.how || (how == Exit && d.exit.how == Unset)
    case Computed => how == d.exit.how || (how == Exit && d.exit.how == Unset)
    case Submitting => how == d.exit.how || (how == Exit && d.exit.how == Unset)
    case Submitted => how == d.exit.how || (how == Exit && d.exit.how == Unset)
    case Lost => how == LeaseLost
    case Restarted => how == DaemonRestart
    case Running => how == Exit
    case Launching => how == PrepareFailed || how == Exit
    case _ => false
  }

  // At j the entry is written whose end is told as how, and its group's state.
  ghost predicate EndBegun(h: seq<Event>, j: nat, how: EndHow, cleared: bool) {
    && j < |h| && h[j].Wrote? && h[j].entry.endRequest.Some? && h[j].entry.phase.Ending?
    && Disk(h[..j]).Some? && Disk(h[..j]).value.endRequest.None? && EndTells(Disk(h[..j]).value, how) && how != Unset
    && cleared == (h[j].entry.group == Cleared)
  }

  // At m the platform refuses prepare_failed as an older one does.
  ghost predicate RefusedOlder(h: seq<Event>, m: nat) {
    m < |h| && h[m].Refused? && h[m].q.End? && h[m].why == OlderPlatform
  }

  lemma BegunThen(s: State, d: Entry, e: Entry)
    requires s.disk == Some(d) && SoundEntry(d) && Follows(s, d, e) && d.endRequest.None? && e.endRequest.Some?
    ensures e.phase.Ending? && EndTells(d, e.endRequest.value.endHow) && e.endRequest.value.endHow != Unset
    ensures e.endRequest.value.cleared == (e.group == Cleared)
  {
  }

  lemma AgainThen(s: State, d: Entry, e: Entry)
    requires s.disk == Some(d) && Follows(s, d, e) && d.endRequest.Some?
    ensures e.endRequest.Some?
    ensures || e.endRequest == d.endRequest
            || (d.endRequest.value.endHow == PrepareFailed && e.endRequest == Some(d.endRequest.value.(endHow := Exit))
                && s.seen.refusals.end == Some(OlderPlatform))
  {
  }

  lemma {:induction false} OlderWitness(h: seq<Event>) returns (m: nat)
    requires Legal(h) && Fold(h).seen.refusals.end == Some(OlderPlatform)
    ensures RefusedOlder(h, m) && Disk(h[..m]).Some? && Disk(h[..m]).value.endRequest.Some?
  {
    var g, ev := h[..|h|-1], h[|h|-1];
    if ev.Refused? && ev.q.End? {
      m := |g|;
      LegalIsSound(g);
    } else {
      m := OlderWitness(g);
      assert g[..m] == h[..m];
    }
  }

  // How the end was begun, and whether prepare_failed was refused since.
  ghost predicate EndFrom(h: seq<Event>, j: nat, how: EndHow, q: EndRequest) {
    && EndBegun(h, j, how, q.cleared)
    && (q.endHow == how || (how == PrepareFailed && q.endHow == Exit && exists m: nat :: j < m && RefusedOlder(h, m)))
  }

  lemma EndFromStill(h: seq<Event>, j: nat, how: EndHow, q: EndRequest)
    requires |h| > 0 && EndFrom(h[..|h|-1], j, how, q)
    ensures EndFrom(h, j, how, q)
  {
    var g := h[..|h|-1];
    assert g[..j] == h[..j];
    if q.endHow != how {
      var m: nat :| j < m && RefusedOlder(g, m);
      assert RefusedOlder(h, m);
    }
  }

  lemma BegunBefore(h: seq<Event>, j: nat, m: nat, how: EndHow, cleared: bool)
    requires Legal(h) && EndBegun(h, j, how, cleared) && m < |h| && Disk(h[..m]).Some? && Disk(h[..m]).value.endRequest.Some?
    ensures j < m
  {
    if m <= j {
      Evolves(h, m, j);
    }
  }

  lemma EndTurns(h: seq<Event>, j: nat, how: EndHow, q: EndRequest)
    requires |h| > 0 && Legal(h) && EndFrom(h[..|h|-1], j, how, q) && q.endHow == PrepareFailed
    requires Fold(h[..|h|-1]).seen.refusals.end == Some(OlderPlatform)
    ensures EndFrom(h, j, how, q.(endHow := Exit))
  {
    var g := h[..|h|-1];
    var m := OlderWitness(g);
    BegunBefore(g, j, m, how, q.cleared);
    assert g[..j] == h[..j] && RefusedOlder(h, m);
  }

  lemma {:induction false} BegunWitness(h: seq<Event>) returns (j: nat, how: EndHow)
    requires Legal(h) && Disk(h).Some? && Disk(h).value.endRequest.Some?
    ensures EndFrom(h, j, how, Disk(h).value.endRequest.value)
  {
    var g, ev := h[..|h|-1], h[|h|-1];
    if Disk(g).Some? && Disk(g).value.endRequest.Some? {
      j, how := BegunWitness(g);
      var q := Disk(g).value.endRequest.value;
      if ev.Wrote? {
        MayPutMeans(Fold(g), ev.entry);
        AgainThen(Fold(g), Disk(g).value, ev.entry);
      }
      if Disk(h).value.endRequest == Some(q) {
        EndFromStill(h, j, how, q);
      } else {
        EndTurns(h, j, how, q);
      }
    } else {
      if Disk(g).Some? {
        LegalIsSound(g);
        MayPutMeans(Fold(g), ev.entry);
        BegunThen(Fold(g), Disk(g).value, ev.entry);
      }
      j, how := |g|, ev.entry.endRequest.value.endHow;
    }
  }

  /** Every ended request tells how the attempt ended: from the hand-over's phases as its
      entry says the executor did, lost as lease_lost, restarted as daemon_restart; and
      what was seen of its group. Only prepare_failed, refused by an older platform,
      is told as an exit then. */
  lemma EndSays(h: seq<Event>, i: nat) returns (j: nat, how: EndHow)
    requires Legal(h) && i < |h| && h[i].Sent? && h[i].q.End?
    ensures j < i && EndFrom(h[..i], j, how, h[i].q.end)
  {
    CrashIsLegal(h, i);
    EndAt(h, i);
    j, how := BegunWitness(h[..i]);
  }

  // ---------- the check ----------

  // The last that this process found in the checkout.
  ghost predicate LastInspected(h: seq<Event>, m: nat, bad: bool, same: bool) {
    m < |h| && h[m] == Inspected(bad, same) && forall k :: m < k < |h| ==> !h[k].Inspected? && !h[k].Opened?
  }

  lemma {:induction false} InspectedWitness(h: seq<Event>) returns (m: nat)
    requires Fold(h).seen.inspected.Some?
    ensures LastInspected(h, m, Fold(h).seen.inspected.value.0, Fold(h).seen.inspected.value.1)
  {
    var g, ev := h[..|h|-1], h[|h|-1];
    if ev.Inspected? {
      m := |g|;
    } else {
      m := InspectedWitness(g);
      forall k | m < k < |h| ensures !h[k].Inspected? && !h[k].Opened? {
        assert k < |g| ==> h[k] == g[k];
      }
    }
  }

  // What a check that found this makes of an entry.
  predicate CheckMakes(d: Entry, bad: bool, same: bool, e: Entry) {
    && (d.exit.conclusion == NoConclusion ==> e.exit.conclusion == NoConclusion)
    && (d.exit.conclusion != NoConclusion && bad ==> e.exit.conclusion == Failed)
    && (!bad && !(d.claim.implement && d.claim.branch && same) ==> e.exit.conclusion == d.exit.conclusion)
    && (!bad && d.claim.implement && d.claim.branch && same ==>
          e.exit.conclusion == if d.exit.conclusion == Done then NoConclusion else d.exit.conclusion)
    && (e.unaltered <==> d.unaltered || (d.claim.implement && d.claim.branch && same))
  }

  lemma CheckThen(s: State, d: Entry, e: Entry)
    requires s.disk == Some(d) && Follows(s, d, e) && e.checked && !d.checked
    ensures s.seen.inspected.Some? && CheckMakes(d, s.seen.inspected.value.0, s.seen.inspected.value.1, e)
  {
  }

  /** A check is made of what this process found last: what is not allowed fails a
      result, and an implementation without a change is marked and not done. */
  lemma CheckTells(h: seq<Event>, i: nat) returns (m: nat, bad: bool, same: bool)
    requires Legal(h) && i < |h| && h[i].Wrote? && Disk(h[..i]).Some? && h[i].entry.checked && !Disk(h[..i]).value.checked
    ensures LastInspected(h[..i], m, bad, same) && CheckMakes(Disk(h[..i]).value, bad, same, h[i].entry)
  {
    CrashIsLegal(h, i);
    MayPutMeans(Fold(h[..i]), h[i].entry);
    CheckThen(Fold(h[..i]), Disk(h[..i]).value, h[i].entry);
    m := InspectedWitness(h[..i]);
    bad, same := Fold(h[..i]).seen.inspected.value.0, Fold(h[..i]).seen.inspected.value.1;
  }

  // What is marked as unaltered before it is computed was checked, and is not done.
  ghost predicate Marked(d: Entry) {
    && (d.phase.Early() ==> !d.unaltered && !d.checked)
    && (d.phase.Exited? && d.unaltered ==> d.checked && d.exit.conclusion != Done)
  }

  lemma MarkedThen(s: State, d: Entry, e: Entry)
    requires s.disk == Some(d) && Marked(d) && Grounded(s) && Follows(s, d, e)
    ensures Marked(e)
  {
  }

  lemma {:induction false} LegalIsMarked(h: seq<Event>)
    requires Legal(h) && Disk(h).Some?
    ensures Marked(Disk(h).value)
  {
    var g, ev := h[..|h|-1], h[|h|-1];
    if Disk(g).Some? {
      LegalIsMarked(g);
      LegalIsGrounded(g);
      if ev.Wrote? {
        MayPutMeans(Fold(g), ev.entry);
        MarkedThen(Fold(g), Disk(g).value, ev.entry);
      }
    }
  }

  lemma ComputedMarked(s: State, d: Entry, q: Request)
    requires s.disk == Some(d) && Marked(d) && d.unaltered && MaySend(s, d, q) && q.Compute?
    ensures q.conclusion != Done
  {
  }

  /** Once an attempt is marked as having changed nothing, done is never computed. */
  lemma UnchangedNotDone(h: seq<Event>, i: nat, j: nat)
    requires Legal(h) && i < j < |h| && h[i].Wrote? && h[i].entry.unaltered && h[j].Sent? && h[j].q.Compute?
    ensures h[j].q.conclusion != Done
  {
    CrashIsLegal(h, j);
    WroteAt(h, i);
    Evolves(h, i + 1, j);
    LegalIsMarked(h[..j]);
    ComputedMarked(Fold(h[..j]), Disk(h[..j]).value, h[j].q);
  }

  // ---------- what is handed in ----------

  // What this process read and uploaded is in the history.
  ghost predicate PartsTold(h: seq<Event>, n: Seen) {
    var p := n.parts;
    && (p.tailId != "" ==> Uploaded(LogTail, p.tailId) in h)
    && (p.reportId != "" ==> Uploaded(Report, p.reportId) in h)
    && (p.patchId != "" ==> Uploaded(Patch, p.patchId) in h)
    && (p.tailRefused ==> UploadRefused(LogTail) in h)
    && (p.reportRefused ==> UploadRefused(Report) in h)
    && (p.logRead && !p.tail ==> ReadLog(true, false) in h)
    && (p.reportRead && !p.report ==> ReadReport(false) in h)
    && (n.made.Some? ==> Committed(n.made.value) in h)
  }

  lemma PartsTell(g: seq<Event>, n: Seen, ev: Event)
    requires PartsTold(g, n)
    ensures PartsTold(g + [ev], SeenAfter(n, ev))
  {
    assert ev in [ev];
  }

  lemma {:induction false} AllPartsTold(h: seq<Event>)
    ensures PartsTold(h, Fold(h).seen)
  {
    if |h| > 0 {
      var g, ev := h[..|h|-1], h[|h|-1];
      AllPartsTold(g);
      assert g + [ev] == h;
      PartsTell(g, Fold(g).seen, ev);
    }
  }

  // At some point a process without a checkout had the result to prepare.
  ghost predicate PreparedWithout(h: seq<Event>) {
    exists k :: 0 <= k <= |h| && Disk(h[..k]).Some? && Disk(h[..k]).value.phase.Preparing() && !Fold(h[..k]).seen.checkout
  }

  // The log tail, the report and the commit are what was uploaded and made; what is
  // not among them was not there, or refused for good, or is not asked for.
  ghost predicate TailTold(h: seq<Event>, artifacts: seq<string>) {
    || (|artifacts| == 1 && artifacts[0] != "" && Uploaded(LogTail, artifacts[0]) in h)
    || (artifacts == [] && (ReadLog(true, false) in h || UploadRefused(LogTail) in h))
  }

  ghost predicate ReportTold(h: seq<Event>, report: string) {
    if report != "" then Uploaded(Report, report) in h else ReadReport(false) in h || UploadRefused(Report) in h
  }

  ghost predicate CommitTold(h: seq<Event>, branch: bool, commit: string) {
    Committed(commit) in h || (commit == "" && (!branch || PreparedWithout(h)))
  }

  ghost predicate DraftTold(h: seq<Event>, claim: Claim, d: Draft) {
    && (if d.logTailDone then TailTold(h, d.result.artifacts) else d.result.artifacts == [])
    && (if d.reportDone then ReportTold(h, d.result.report) else d.result.report == "")
    && (d.prepared ==> d.logTailDone && d.reportDone && CommitTold(h, claim.branch, d.result.commit))
  }

  lemma WithoutStill(h: seq<Event>)
    requires |h| > 0 && PreparedWithout(h[..|h|-1])
    ensures PreparedWithout(h)
  {
    var g := h[..|h|-1];
    var k :| 0 <= k <= |g| && Disk(g[..k]).Some? && Disk(g[..k]).value.phase.Preparing() && !Fold(g[..k]).seen.checkout;
    assert g[..k] == h[..k];
  }

  lemma DraftStill(h: seq<Event>, claim: Claim, d: Draft)
    requires |h| > 0 && DraftTold(h[..|h|-1], claim, d)
    ensures DraftTold(h, claim, d)
  {
    var g := h[..|h|-1];
    assert forall x :: x in g ==> x in h;
    if PreparedWithout(g) {
      WithoutStill(h);
    }
  }

  // What a write makes of the draft, told by what the process read and made.
  lemma DraftThen(h: seq<Event>, s: State, d: Entry, e: Entry)
    requires s == Fold(h) && s.disk == Some(d) && PartsTold(h, s.seen) && DraftTold(h, d.claim, d.draft)
    requires Follows(s, d, e) && SoundEntry(d)
    ensures DraftTold(h, d.claim, e.draft)
  {
    if e.draft != d.draft && !s.seen.checkout {
      assert h[..|h|] == h;
      assert PreparedWithout(h);
    }
  }

  lemma {:induction false} LegalIsTold(h: seq<Event>)
    requires Legal(h) && Disk(h).Some?
    ensures DraftTold(h, Disk(h).value.claim, Disk(h).value.draft)
  {
    var g, ev := h[..|h|-1], h[|h|-1];
    if Disk(g).Some? {
      LegalIsTold(g);
      if ev.Wrote? {
        AllPartsTold(g);
        LegalIsSound(g);
        MayPutMeans(Fold(g), ev.entry);
        DraftThen(g, Fold(g), Disk(g).value, ev.entry);
      }
      DraftStill(h, Disk(h).value.claim, Disk(h).value.draft);
    }
  }

  /** What is persisted or salvaged is what was uploaded and committed before: the log's
      tail, the report and the commit. A part is left out only if it was not there, was
      refused for good, or, the commit, is asked of no branch or made in no checkout. */
  lemma ResultIsMade(h: seq<Event>, i: nat)
    requires Legal(h) && i < |h| && HandsIn(h[i])
    ensures TailTold(h[..i], h[i].q.result.artifacts) && ReportTold(h[..i], h[i].q.result.report)
    ensures Disk(h[..i]).Some? && CommitTold(h[..i], Disk(h[..i]).value.claim.branch, h[i].q.result.commit)
  {
    HandsInAt(h, i);
    CrashIsLegal(h, i);
    LegalIsTold(h[..i]);
  }

  // ---------- what a sample names ----------

  // None, or one that was uploaded.
  ghost predicate OneUploaded(h: seq<Event>, what: Upload, ids: seq<string>) {
    |ids| <= 1 && (|ids| == 1 ==> Uploaded(what, ids[0]) in h)
  }

  ghost predicate InOrder(h: seq<Event>, ids: seq<string>, report: seq<string>, tail: seq<string>, patch: seq<string>) {
    ids == report + tail + patch && OneUploaded(h, Report, report) && OneUploaded(h, LogTail, tail) && OneUploaded(h, Patch, patch)
  }

  // A report, the log's tail and a patch, each uploaded before, or not there.
  ghost predicate AreParts(h: seq<Event>, ids: seq<string>) {
    exists report, tail, patch :: InOrder(h, ids, report, tail, patch)
  }

  // What is put together at a names such parts alone.
  lemma SampleIsMade(h: seq<Event>, a: nat)
    requires Legal(h) && a < |h| && h[a].Sampled?
    ensures AreParts(h[..a], SampleAt(h, a).artifacts)
  {
    AllPartsTold(h[..a]);
    NamesAreParts(h[..a], Fold(h[..a]).seen);
  }

  lemma NamesAreParts(h: seq<Event>, n: Seen)
    requires PartsTold(h, n)
    ensures AreParts(h, n.parts.Names())
  {
    var p := n.parts;
    assert InOrder(h, p.Names(), if p.reportId == "" then [] else [p.reportId], if p.tailId == "" then [] else [p.tailId],
                   if p.patchId == "" then [] else [p.patchId]);
  }

  ghost predicate PutTogether(h: seq<Event>, a: nat, p: Sample) {
    a < |h| && h[a].Sampled? && SampleAt(h, a) == p
  }

  lemma PutTogetherStill(h: seq<Event>, a: nat, p: Sample)
    requires |h| > 0 && PutTogether(h[..|h|-1], a, p)
    ensures PutTogether(h, a, p)
  {
    assert h[..|h|-1][..a] == h[..a];
  }

  lemma {:induction false} SampledWitness(h: seq<Event>) returns (a: nat)
    requires Fold(h).seen.sampled.Some?
    ensures PutTogether(h, a, Fold(h).seen.sampled.value)
  {
    var g, ev := h[..|h|-1], h[|h|-1];
    if ev.Sampled? {
      a := |g|;
    } else {
      a := SampledWitness(g);
      PutTogetherStill(h, a, Fold(h).seen.sampled.value);
    }
  }

  // A sample newly pending is the one this process put together.
  lemma NewlyPending(s: State, d: Entry, e: Entry)
    requires s.disk == Some(d) && Follows(s, d, e) && e.samples.pending.Some? && e.samples.pending != d.samples.pending
    ensures s.seen.sampled == e.samples.pending
  {
  }

  lemma {:induction false} PendingWitness(h: seq<Event>) returns (a: nat)
    requires Legal(h) && Disk(h).Some? && Disk(h).value.samples.pending.Some?
    ensures PutTogether(h, a, Disk(h).value.samples.pending.value)
  {
    var g, ev := h[..|h|-1], h[|h|-1];
    if Disk(g).Some? && Disk(g).value.samples.pending == Disk(h).value.samples.pending {
      a := PendingWitness(g);
    } else {
      MayPutMeans(Fold(g), ev.entry);
      NewlyPending(Fold(g), Disk(g).value, ev.entry);
      a := SampledWitness(g);
    }
    PutTogetherStill(h, a, Disk(h).value.samples.pending.value);
  }

  lemma PendingIsMade(h: seq<Event>) returns (a: nat)
    requires Legal(h) && Disk(h).Some? && Disk(h).value.samples.pending.Some?
    ensures var p := Disk(h).value.samples.pending.value;
            a < |h| && h[a].Sampled? && h[a].number == p.number && AreParts(h[..a], p.artifacts)
  {
    a := PendingWitness(h);
    SampleIsMade(h, a);
  }

  /** Every checkpoint request is a sample that was put together before, and names
      nothing but a report, the log's tail and a patch, in this order, each uploaded
      before that. */
  lemma CheckpointIsMade(h: seq<Event>, i: nat) returns (a: nat)
    requires Legal(h) && i < |h| && h[i].Sent? && h[i].q.Checkpoint?
    ensures a < i && h[a].Sampled? && h[a].number == h[i].q.sample.number
    ensures AreParts(h[..a], h[i].q.sample.artifacts)
  {
    var g := h[..i];
    PendingSent(h, i);
    a := PendingIsMade(g);
    assert g[..a] == h[..a];
  }

  lemma PendingSent(h: seq<Event>, i: nat)
    requires Legal(h) && i < |h| && h[i].Sent? && h[i].q.Checkpoint?
    ensures Legal(h[..i]) && Disk(h[..i]).Some? && Disk(h[..i]).value.samples.pending == Some(h[i].q.sample)
  {
    CrashIsLegal(h, i);
    CheckpointAt(h, i);
  }
}
