/** What each step of the hand-over makes of the state, and why the entry it
    writes may follow the one the registry holds: one small lemma a step. */
module Steps {
  import opened Common
  import opened Journal
  import opened JournalSafety

  // What a step comes back with: nil, the platform's refusal, the registry not
  // usable, or a step that may succeed later.
  datatype Err = Ok | Refusal(why: Why) | RegistryErr | Transient

  // What a process may have been told: its submit is fenced, its sweep failed.
  datatype Told = Told(fenced: bool, unswept: bool)

  // A history the journal allows, and what it comes to (closed as MayPut is).
  ghost predicate Kept(h: seq<Event>, s: State, checkout: bool, told: Told) {
    forall u: int {:trigger AsksOf(h, s, checkout, told, u)} :: AsksOf(h, s, checkout, told, u) ==>
      && Legal(h) && s == Fold(h) && Sound(s) && s.seen.checkout == checkout
      && (s.seen.refusals.submit == Some(Fenced) ==> told.fenced) && (s.seen.sweepFailed ==> told.unswept)
  }

  ghost predicate AsksOf(h: seq<Event>, s: State, checkout: bool, told: Told, u: int) { true }

  lemma KeptMeans(h: seq<Event>, s: State, checkout: bool, told: Told)
    requires Kept(h, s, checkout, told)
    ensures Legal(h) && s == Fold(h) && Sound(s) && s.seen.checkout == checkout
    ensures s.seen.refusals.submit == Some(Fenced) ==> told.fenced
    ensures s.seen.sweepFailed ==> told.unswept
  {
    assert AsksOf(h, s, checkout, told, 0);
  }

  // An event that tells the process nothing it does not expect.
  predicate Expected(ev: Event, told: Told) {
    && !ev.Opened? && !ev.CheckedOut?
    && (ev == Refused(Submit, Fenced) ==> told.fenced)
    && (ev == Swept(SweepFailed) ==> told.unswept)
  }

  lemma KeptStep(h: seq<Event>, s: State, checkout: bool, told: Told, ev: Event)
    requires Kept(h, s, checkout, told) && Allowed(s, ev) && Expected(ev, told)
    ensures Kept(h + [ev], Apply(s, ev), checkout, told)
  {
    KeptMeans(h, s, checkout, told);
    SoundStep(s, ev);
    assert (h + [ev])[..|h|] == h;
  }

  // The entry d the registry holds, and what is known of it.
  ghost predicate Known(s: State, d: Entry) {
    && s.disk == Some(d) && SoundEntry(d)
    && (d.group == Cleared && !d.phase.Launching? ==> s.gone)
    && (d.phase.Uncleared? || d.phase.Unswept? ==> s.taken.ended)
  }

  lemma KeptEntry(h: seq<Event>, s: State, checkout: bool, told: Told)
    requires Kept(h, s, checkout, told) && s.disk.Some?
    ensures Known(s, s.disk.value) && !s.forgotten
  {
    KeptMeans(h, s, checkout, told);
  }

  lemma KeptSeen(h: seq<Event>, s: State, checkout: bool, told: Told)
    requires Kept(h, s, checkout, told)
    ensures s.seen.checkout == checkout
    ensures s.seen.refusals.submit == Some(Fenced) ==> told.fenced
    ensures s.seen.sweepFailed ==> told.unswept
  {
    KeptMeans(h, s, checkout, told);
  }

  lemma KeptTold(h: seq<Event>, s: State, checkout: bool, told: Told, more: Told)
    requires Kept(h, s, checkout, told) && (told.fenced ==> more.fenced) && (told.unswept ==> more.unswept)
    ensures Kept(h, s, checkout, more)
  {
    KeptMeans(h, s, checkout, told);
  }

  // The same attempt, where its hand-over stands.
  predicate SamePlace(d: Entry, e: Entry) {
    e.claim == d.claim && e.phase == d.phase && e.exit == d.exit
  }

  // What the request q, sent until it was answered or given up, came to.
  ghost predicate Answered(s: State, t: State, q: Request, err: Err) {
    && err != RegistryErr
    && t.disk == s.disk && t.gone == s.gone && t.pushed == s.pushed
    && s.confirmed <= t.confirmed && s.dropped <= t.dropped
    && (s.taken.submit ==> t.taken.submit) && (s.taken.salvage ==> t.taken.salvage) && (s.taken.ended ==> t.taken.ended)
    && t.seen == s.seen.(refusals := if err.Refusal? then RefusalsAfter(s.seen.refusals, q, err.why) else s.seen.refusals)
    && (match q
        case Compute(_, _, _) => err == Ok ==> t.taken.compute
        case Persist(_) => err == Ok ==> t.taken.persist
        case Submit => err == Ok ==> t.taken.submit
        case Salvage(_) => err == Ok ==> t.taken.salvage
        case Checkpoint(p) =>
          && (err == Ok ==> p.number in t.confirmed)
          && (err.Refusal? && err.why != Fenced ==> p.number in t.dropped)
        case End(_) => err == Ok || (err.Refusal? && Definite(q, err.why)) ==> t.taken.ended)
  }

  // What to look for in a history: an event, any look at the group, an entry that
  // tells how the attempt's executor ended, its group looked at, or one that has e
  // ended: as how, or as an exit where that is not set.
  datatype Mark = Exactly(ev: Event) | AnyLook | AnyEnd(claim: Claim) | AnyEnding(e: Entry, how: EndHow)

  predicate Shows(ev: Event, m: Mark) {
    match m
    case Exactly(x) => ev == x
    case AnyLook => ev.Looked?
    case AnyEnd(claim) =>
      && ev.Wrote? && ev.entry.claim == claim && (ev.entry.phase.Exited? || ev.entry.phase.Lost?)
      && ev.entry.exit.how != Unset && ev.entry.group != NotLooked
      && (ev.entry.phase.Lost? ==> ev.entry.exit.how == LeaseLost)
      && (ev.entry.exit.setupFailed ==> ev.entry.exit.how == PrepareFailed)
    case AnyEnding(e, how) =>
      && ev.Wrote? && ev.entry.group != NotLooked && ev.entry.endRequest.Some?
      && ev.entry == e.(phase := Ending, group := ev.entry.group, endRequest := ev.entry.endRequest)
      && (how != Unset ==> ev.entry.endRequest.value.endHow == how) && (how == Unset ==> ev.entry.endRequest.value.endHow == Exit)
      && (ev.entry.endRequest.value.cleared <==> ev.entry.group == Cleared)
  }

  // It is there from n on (closed as MayPut is).
  ghost predicate Since(h: seq<Event>, n: nat, m: Mark) {
    forall u: int {:trigger AsksSince(h, n, m, u)} :: AsksSince(h, n, m, u) ==> exists i :: n <= i < |h| && Shows(h[i], m)
  }

  ghost predicate AsksSince(h: seq<Event>, n: nat, m: Mark, u: int) { true }

  lemma SinceMeans(h: seq<Event>, n: nat, m: Mark) returns (i: nat)
    requires Since(h, n, m)
    ensures n <= i < |h| && Shows(h[i], m)
  {
    assert AsksSince(h, n, m, 0);
    i :| n <= i < |h| && Shows(h[i], m);
  }

  lemma SinceAt(h: seq<Event>, n: nat, m: Mark, i: nat)
    requires n <= i < |h| && Shows(h[i], m)
    ensures Since(h, n, m)
  {
  }

  lemma SinceOn(f: seq<Event>, g: seq<Event>, h: seq<Event>, m: Mark)
    requires f <= g <= h && (Since(g, |f|, m) || Since(h, |g|, m))
    ensures f <= h && Since(h, |f|, m)
  {
    if Since(g, |f|, m) {
      var i := SinceMeans(g, |f|, m);
      SinceAt(h, |f|, m, i);
    } else {
      var i := SinceMeans(h, |g|, m);
      SinceAt(h, |f|, m, i);
    }
  }

  lemma EndTold(h: seq<Event>, n: nat, e: Entry)
    requires Since(h, n, Exactly(Wrote(e))) && Shows(Wrote(e), AnyEnd(e.claim))
    ensures Since(h, n, AnyEnd(e.claim))
  {
    var i := SinceMeans(h, n, Exactly(Wrote(e)));
    SinceAt(h, n, AnyEnd(e.claim), i);
  }

  lemma EndingTold(h: seq<Event>, n: nat, x: Entry, e: Entry, how: EndHow)
    requires Since(h, n, Exactly(Wrote(x))) && Shows(Wrote(x), AnyEnding(e, how))
    ensures Since(h, n, AnyEnding(e, how))
  {
    var i := SinceMeans(h, n, Exactly(Wrote(x)));
    SinceAt(h, n, AnyEnding(e, how), i);
  }

  // The platform took the request, or the registry was told the entry.
  ghost predicate TookSince(h: seq<Event>, n: nat, q: Request) {
    Since(h, n, Exactly(Took(q)))
  }

  ghost predicate WroteSince(h: seq<Event>, n: nat, e: Entry) {
    Since(h, n, Exactly(Wrote(e)))
  }

  // One history grown into the next, and that into a third.
  lemma Grown(f: seq<Event>, g: seq<Event>, h: seq<Event>)
    requires f <= g <= h
    ensures f <= h
  {
  }

  // From n on no request was sent but q, and that at most k times.
  ghost predicate Resent(h: seq<Event>, n: nat, q: Request, k: nat) {
    if |h| <= n then true
    else if h[|h|-1].Sent? then h[|h|-1] == Sent(q) && k > 0 && Resent(h[..|h|-1], n, q, k - 1)
    else Resent(h[..|h|-1], n, q, k)
  }

  lemma ResentNext(h: seq<Event>, n: nat, q: Request, k: nat, ev: Event)
    requires n <= |h| && Resent(h, n, q, k)
    ensures !ev.Sent? ==> Resent(h + [ev], n, q, k)
    ensures ev == Sent(q) ==> Resent(h + [ev], n, q, k + 1)
  {
    assert (h + [ev])[..|h|] == h;
  }

  lemma {:induction false} ResentMore(h: seq<Event>, n: nat, q: Request, j: nat, k: nat)
    requires Resent(h, n, q, j) && j <= k
    ensures Resent(h, n, q, k)
  {
    if |h| > n {
      ResentMore(h[..|h|-1], n, q, if h[|h|-1].Sent? then j - 1 else j, if h[|h|-1].Sent? then k - 1 else k);
    }
  }

  lemma {:induction false} ResentOn(g: seq<Event>, h: seq<Event>, n: nat, q: Request, j: nat, k: nat)
    requires n <= |g| && g <= h && Resent(g, n, q, j) && Resent(h, |g|, q, k)
    ensures Resent(h, n, q, j + k)
  {
    if |h| == |g| {
      assert h == g;
      ResentMore(g, n, q, j, j + k);
    } else {
      ResentOn(g, h[..|h|-1], n, q, j, if h[|h|-1].Sent? then k - 1 else k);
    }
  }

  // ---------- what one event makes of the state ----------

  function Written(s: State, e: Entry): State {
    s.(disk := Some(e), out := None, gone := s.gone && !LaunchesOver(s.disk, Wrote(e)))
  }

  function WithParts(s: State, p: Parts): State {
    s.(seen := s.seen.(parts := p))
  }

  // What an upload makes of the parts.
  function PartsPut(p: Parts, what: Upload, err: Err, id: string): Parts {
    if err.Ok? then match what case LogTail => p.(tailId := id) case Report => p.(reportId := id) case Patch => p.(patchId := id)
    else if err.Refusal? then match what case LogTail => p.(tailRefused := true) case Report => p.(reportRefused := true) case Patch => p
    else p
  }

  lemma WrittenThen(s: State, e: Entry)
    ensures Apply(s, Wrote(e)) == Written(s, e)
  {
  }

  lemma UploadedThen(s: State, what: Upload, id: string)
    ensures Apply(s, Uploaded(what, id)) == WithParts(s, PartsPut(s.seen.parts, what, Ok, id))
  {
  }

  lemma UploadRefusedThen(s: State, what: Upload)
    ensures Apply(s, UploadRefused(what)) == WithParts(s, PartsPut(s.seen.parts, what, Refusal(RefusedOther), ""))
  {
  }

  lemma BeganThen(s: State)
    ensures Apply(s, Began) == WithParts(s, NoParts)
  {
  }

  lemma ReadLogThen(s: State, read: bool, some: bool)
    ensures Apply(s, ReadLog(read, some)) == WithParts(s, s.seen.parts.(logRead := read, tail := some))
  {
  }

  lemma ReadReportThen(s: State, some: bool)
    ensures Apply(s, ReadReport(some)) == WithParts(s, s.seen.parts.(reportRead := true, report := some))
  {
  }

  lemma DiffedThen(s: State, large: bool, some: bool)
    ensures Apply(s, Diffed(large, some)) == WithParts(s, s.seen.parts.(diffed := true, tooLarge := large, patch := some))
  {
  }

  lemma InspectedThen(s: State, bad: bool, same: bool)
    ensures Apply(s, Inspected(bad, same)) == s.(seen := s.seen.(inspected := Some((bad, same))))
  {
  }

  lemma CommittedThen(s: State, c: string)
    ensures Apply(s, Committed(c)) == s.(seen := s.seen.(made := Some(c)))
    ensures Apply(s, CommitRefused) == s.(seen := s.seen.(commitRefused := true))
  {
  }

  lemma PushedThen(s: State, c: string, arrived: bool)
    ensures Apply(s, Pushed(c, arrived)) == s.(pushed := if arrived then Some(c) else s.pushed)
  {
  }

  lemma LeaseGoneThen(s: State)
    ensures Apply(s, LeaseGone) == s.(seen := s.seen.(leaseGone := true))
  {
  }

  lemma LookedThen(s: State, g: GroupState)
    ensures Apply(s, Looked(g)) == s.(gone := g == Cleared)
  {
  }

  lemma SweptThen(s: State, how: Sweep)
    ensures Apply(s, Swept(how)) == s.(seen := s.seen.(sweepFailed := how == SweepFailed))
  {
  }

  lemma SentThen(s: State, q: Request)
    ensures Answered(s, Apply(s, Sent(q)), q, Transient) && Apply(s, Sent(q)).out == Some(q)
  {
  }

  lemma TookThen(s: State, t: State, q: Request)
    requires Answered(s, t, q, Transient) && t.out == Some(q)
    ensures Allowed(t, Took(q))
    ensures Answered(s, Apply(t, Took(q)), q, Transient) && Answered(s, Apply(t, Took(q)), q, Ok)
    ensures Apply(t, Took(q)).out == Some(q)
  {
  }

  lemma RefusedThen(s: State, t: State, q: Request, why: Why)
    requires Answered(s, t, q, Transient) && t.out == Some(q)
    ensures Allowed(t, Refused(q, why))
    ensures Answered(s, Apply(t, Refused(q, why)), q, Refusal(why))
  {
  }

  lemma AnsweredAgain(s: State, t: State, u: State, q: Request, err: Err)
    requires Answered(s, t, q, Transient) && Answered(t, u, q, err)
    ensures Answered(s, u, q, err)
  {
  }

  // ---------- the entries the steps write ----------

  // The entry once what it changed is checked, and once its log tail, its report
  // ("" for none) and its commit are done.
  function WithCheck(d: Entry, bad: bool, same: bool): Entry {
    var idle := d.Implementation() && same;
    d.(checked := true, unaltered := d.unaltered || idle, exit := d.exit.(conclusion := Verdict(d.exit.conclusion, bad, idle)))
  }

  function WithTail(d: Entry, id: string): Entry {
    var r := d.draft.result;
    d.(draft := d.draft.(logTailDone := true, result := r.(artifacts := if id == "" then r.artifacts else r.artifacts + [id])))
  }

  function WithReport(d: Entry, id: string): Entry {
    var r := d.draft.result;
    d.(draft := d.draft.(reportDone := true, result := r.(report := if id == "" then r.report else id)))
  }

  function WithCommit(d: Entry, checkout: bool, commit: string): Entry {
    d.(draft := d.draft.(prepared := true, result := d.draft.result.(commit := commit)),
       unaltered := d.unaltered || (checkout && d.Implementation() && commit == ""))
  }

  function Losing(e: Entry): Entry {
    e.(phase := Lost, exit := e.exit.(how := if e.exit.how == Unset then LeaseLost else e.exit.how))
  }

  function Ended(e: Entry, how: EndHow, g: GroupState): Entry {
    e.(phase := Ending, group := g, endRequest := Some(EndRequest(EndOf(how), g == Cleared)))
  }

  // e, in memory, may be ended as how, whatever its group is seen to be.
  ghost predicate ReadyToEnd(s: State, e: Entry, how: EndHow) {
    forall u: int {:trigger AsksEnd(s, e, how, u)} :: AsksEnd(s, e, how, u) ==>
      && s.disk.Some?
      && e.endRequest.None?
      && (e.group == Cleared ==> s.gone)
      && (forall g: GroupState :: (e.group == Cleared ==> g == Cleared) ==> EndsWith(s, e, how, g))
  }

  ghost predicate AsksEnd(s: State, e: Entry, how: EndHow, u: int) { true }

  ghost predicate EndsWith(s: State, e: Entry, how: EndHow, g: GroupState) {
    s.disk.Some? && Follows(s.(gone := g == Cleared), s.disk.value, Ended(e, how, g))
  }

  lemma InspectedFollows(s: State, d: Entry, e: Entry, bad: bool, same: bool)
    requires Known(s, d) && d.phase.Exited? && !d.checked && s.seen.inspected == Some((bad, same))
    requires e == WithCheck(d, bad, same)
    ensures MayPut(s, e)
  {
    assert Follows(s, d, e);
  }

  lemma TailFollows(s: State, d: Entry, e: Entry)
    requires Known(s, d) && d.phase.Preparing() && !d.draft.prepared && !d.draft.logTailDone && s.seen.parts.logRead
    requires s.seen.parts.tail ==> s.seen.parts.tailId != "" || s.seen.parts.tailRefused
    requires e == WithTail(d, s.seen.parts.tailId)
    ensures MayPut(s, e)
  {
  }

  lemma ReportFollows(s: State, d: Entry, e: Entry)
    requires Known(s, d) && d.phase.Preparing() && !d.draft.prepared && !d.draft.reportDone && s.seen.parts.reportRead
    requires s.seen.parts.report ==> s.seen.parts.reportId != "" || s.seen.parts.reportRefused
    requires e == WithReport(d, s.seen.parts.reportId)
    ensures MayPut(s, e)
  {
  }

  lemma CommitFollows(s: State, d: Entry, e: Entry, commit: string)
    requires Known(s, d) && d.phase.Preparing() && !d.draft.prepared && d.draft.logTailDone && d.draft.reportDone
    requires if s.seen.checkout && d.claim.branch then s.seen.made == Some(commit) else commit == ""
    requires e == WithCommit(d, s.seen.checkout, commit)
    ensures MayPut(s, e)
  {
  }

  // ---------- the end ----------

  lemma ReadyMeans(s: State, e: Entry, how: EndHow, g: GroupState)
    requires ReadyToEnd(s, e, how) && (e.group == Cleared ==> g == Cleared)
    ensures s.disk.Some? && e.endRequest.None?
    ensures MayPut(s.(gone := g == Cleared), Ended(e, how, g))
    ensures e.group == Cleared ==> s == s.(gone := g == Cleared)
    ensures e.group != Cleared ==> s.disk.value.phase.Launching? || s.disk.value.group != Cleared
  {
    assert AsksEnd(s, e, how, 0);
    assert EndsWith(s, e, how, g);
    if e.group != Cleared {
      assert EndsWith(s, e, how, Remains);
    }
  }

  // It is enough to see each group's state by itself.
  lemma ReadyBy(s: State, e: Entry, how: EndHow)
    requires s.disk.Some? && e.endRequest.None? && (e.group == Cleared ==> s.gone)
    requires forall g: GroupState :: (e.group == Cleared ==> g == Cleared) ==> EndsWith(s, e, how, g)
    ensures ReadyToEnd(s, e, how)
  {
  }

  lemma OlderFollows(s: State, d: Entry, e: Entry)
    requires Known(s, d) && d.phase.Ending? && d.endRequest.Some? && d.endRequest.value.endHow == PrepareFailed
    requires s.seen.refusals.end == Some(OlderPlatform)
    requires e == d.(endRequest := Some(d.endRequest.value.(endHow := Exit)))
    ensures MayPut(s, e)
  {
  }

  lemma UnclearedFollows(s: State, d: Entry, g: GroupState, e: Entry)
    requires s.disk == Some(d) && SoundEntry(d) && d.phase.Ending? && s.taken.ended && g != Cleared && d.group != Cleared
    requires e == d.(group := g, phase := Uncleared)
    ensures MayPut(s, e)
  {
  }

  lemma UnsweptFollows(s: State, d: Entry, e: Entry)
    requires s.disk == Some(d) && SoundEntry(d) && (d.phase.Ending? || d.phase.Uncleared?)
    requires s.taken.ended && s.gone && d.handedOver && s.seen.sweepFailed
    requires e == d.(group := Cleared, phase := Unswept)
    ensures MayPut(s, e)
  {
  }

  // ---------- samples ----------

  // e, in memory, is what the registry holds but for the samples: a write failed.
  ghost predicate Ahead(s: State, e: Entry) {
    forall u: int {:trigger AsksAhead(s, e, u)} :: AsksAhead(s, e, u) ==>
      && s.disk.Some?
      && e == s.disk.value.(samples := e.samples)
      && KeepsSamples(s, s.disk.value.samples, e.samples)
      && (s.disk.value.samples.pending.Some? && e.samples.pending.None? ==>
            e.samples.confirmed == s.disk.value.samples.pending.value.number && e.samples.confirmed in s.confirmed)
  }

  ghost predicate AsksAhead(s: State, e: Entry, u: int) { true }

  lemma AheadMeans(s: State, e: Entry)
    requires Ahead(s, e)
    ensures s.disk.Some? && e == s.disk.value.(samples := e.samples)
    ensures KeepsSamples(s, s.disk.value.samples, e.samples)
    ensures s.disk.value.samples.pending.Some? && e.samples.pending.None? ==>
              e.samples.confirmed == s.disk.value.samples.pending.value.number && e.samples.confirmed in s.confirmed
    ensures s.disk.value.samples.issued <= e.samples.issued
  {
    assert AsksAhead(s, e, 0);
  }

  lemma NotAhead(s: State, e: Entry)
    requires s.disk == Some(e)
    ensures Ahead(s, e)
  {
  }

  lemma AheadFollows(s: State, e: Entry)
    requires s.disk.Some? && Known(s, s.disk.value) && Ahead(s, e) && (e.phase.Running? || e.phase.Restarted?)
    ensures MayPut(s, e)
  {
    AheadMeans(s, e);
  }

  // What is ahead stays so, but for a sample put together anew.
  lemma StillAhead(s: State, t: State, e: Entry)
    requires Ahead(s, e) && t.disk == s.disk && (e.samples.pending.None? || t.seen.sampled == s.seen.sampled)
    requires s.confirmed <= t.confirmed && s.dropped <= t.dropped
    ensures Ahead(t, e)
  {
    AheadMeans(s, e);
  }

  lemma StillAheadPut(s: State, t: State, e: Entry)
    requires Ahead(s, e) && (t == s || t == Written(s, e))
    ensures Ahead(t, e)
  {
  }

  // The log was read, and its end taken; and the patch as well, not too large.
  predicate LogTaken(p: Parts) {
    p.logRead && (p.tail ==> p.tailId != "")
  }

  predicate SampledWhole(p: Parts) {
    LogTaken(p) && p.diffed && !p.tooLarge && (p.patch ==> p.patchId != "")
  }

  predicate ReportTaken(p: Parts) {
    p.reportId != "" && LogTaken(p) && !p.tooLarge
  }

  // The sample put together: its number, and the parts the platform took.
  function SampleOf(n: nat, p: Parts): Sample {
    Sample(n, p.Names(), p.tooLarge)
  }

  // From since on every part of a sample was read and taken, and the request with
  // the number n that names them.
  ghost predicate TookWhole(h: seq<Event>, since: nat, n: nat, p: Parts) {
    SampledWhole(p) && Since(h, since, Exactly(Began)) && TookSince(h, since, Request.Checkpoint(SampleOf(n, p)))
  }

  lemma TookWholeBy(f: seq<Event>, g: seq<Event>, h: seq<Event>, n: nat, p: Parts)
    requires f <= g <= h
    requires Since(g, |f|, Exactly(Began)) && TookSince(h, |g|, Request.Checkpoint(SampleOf(n, p)))
    ensures TookSince(h, |f|, Request.Checkpoint(SampleOf(n, p))) && (SampledWhole(p) ==> TookWhole(h, |f|, n, p))
  {
    SinceOn(f, g, h, Exactly(Began));
    SinceOn(f, g, h, Exactly(Took(Request.Checkpoint(SampleOf(n, p)))));
  }

  // The entry with the next sample.
  function WithSample(e: Entry, p: Parts): Entry {
    var n := e.samples.issued + 1;
    e.(samples := Samples(n, e.samples.confirmed, Some(SampleOf(n, p))))
  }

  lemma SampleAhead(s: State, t: State, e: Entry)
    requires Ahead(s, e) && e.samples.pending.None?
    requires t.disk == s.disk && s.confirmed <= t.confirmed
    requires t.seen.sampled == Some(SampleOf(e.samples.issued + 1, t.seen.parts))
    ensures Ahead(t, WithSample(e, t.seen.parts))
  {
    AheadMeans(s, e);
  }

  // The sample confirmed, or dropped.
  function Confirming(e: Entry): Entry
    requires e.samples.pending.Some?
  {
    e.(samples := Samples(e.samples.issued, e.samples.pending.value.number, None))
  }

  function Dropping(e: Entry): Entry {
    e.(samples := e.samples.(pending := None))
  }

  lemma ConfirmedAhead(s: State, e: Entry)
    requires s.disk == Some(e) && e.samples.pending.Some?
    requires e.samples.pending.value.number in s.confirmed
    ensures Ahead(s, Confirming(e))
  {
  }

  lemma WholeThen(s: State, n: nat)
    ensures Apply(s, Sampled(n)) == s.(seen := Apply(s, Sampled(n)).seen) && Apply(s, Sampled(n)).seen.parts == s.seen.parts
    ensures Apply(s, Sampled(n)).seen.sampled == Some(SampleOf(n, s.seen.parts))
    ensures Whole(s.seen) ==> Apply(s, Sampled(n)).seen.whole == Some(n)
    ensures WholeReport(s.seen) ==> Apply(s, Sampled(n)).seen.wholeReport == Some(n)
  {
  }

  // ---------- the report of a failed preparation ----------

  // e, in memory, is what the registry holds but for the samples and the report
  // of a failed preparation.
  ghost predicate Reporting(s: State, e: Entry) {
    forall u: int {:trigger AsksReporting(s, e, u)} :: AsksReporting(s, e, u) ==>
      && s.disk.Some?
      && e == s.disk.value.(samples := e.samples, reported := e.reported)
      && KeepsSamples(s, s.disk.value.samples, e.samples) && KeepsReported(s, s.disk.value, e)
  }

  ghost predicate AsksReporting(s: State, e: Entry, u: int) { true }

  lemma ReportingMeans(s: State, e: Entry)
    requires Reporting(s, e)
    ensures s.disk.Some? && e == s.disk.value.(samples := e.samples, reported := e.reported)
    ensures KeepsSamples(s, s.disk.value.samples, e.samples) && KeepsReported(s, s.disk.value, e)
  {
    assert AsksReporting(s, e, 0);
  }

  lemma NotReporting(s: State, e: Entry)
    requires s.disk == Some(e)
    ensures Reporting(s, e)
  {
  }

  lemma ReportingFollows(s: State, e: Entry)
    requires s.disk.Some? && Known(s, s.disk.value) && Reporting(s, e) && (e.phase.Exited? || (e.phase.Launching? && s.gone))
    ensures MayPut(s, e)
  {
    ReportingMeans(s, e);
  }

  lemma ReportingPut(s: State, t: State, e: Entry)
    requires Reporting(s, e) && (t == s || t == Written(s, e))
    ensures Reporting(t, e)
  {
  }

  lemma SettledReporting(s: State, e: Entry, confirmed: bool)
    requires s.disk == Some(e) && e.samples.pending.Some?
    requires e.samples.pending.value.number in if confirmed then s.confirmed else s.dropped
    ensures Reporting(s, if confirmed then Confirming(e) else Dropping(e))
  {
  }

  // From n on what was pending in d was settled, as e has it: the platform took it,
  // or refused it for good (closed as MayPut is).
  ghost predicate Settled(h: seq<Event>, n: nat, s: State, d: Entry, e: Entry) {
    forall u: int {:trigger AsksSettled(h, n, s, d, e, u)} :: AsksSettled(h, n, s, d, e, u) ==>
      if d.samples.pending.None? then e == d
      else
        var p := d.samples.pending.value;
        || (e == Confirming(d) && p.number in s.confirmed && TookSince(h, n, Request.Checkpoint(p)))
        || (e == Dropping(d) && p.number in s.dropped)
  }

  ghost predicate AsksSettled(h: seq<Event>, n: nat, s: State, d: Entry, e: Entry, u: int) { true }

  lemma SettledMeans(h: seq<Event>, n: nat, s: State, d: Entry, e: Entry)
    requires Settled(h, n, s, d, e)
    ensures d.samples.pending.None? ==> e == d
    ensures d.samples.pending.Some? && e.samples.confirmed != d.samples.confirmed ==>
              TookSince(h, n, Request.Checkpoint(d.samples.pending.value)) && d.samples.pending.value.number in s.confirmed
  {
    assert AsksSettled(h, n, s, d, e, 0);
  }

  // The report's own checkpoint.
  function WithReportSample(e: Entry, p: Parts): Entry {
    WithSample(e, p).(reported := Reported(e.samples.issued + 1, false))
  }

  lemma ReportSampleReporting(s: State, e: Entry)
    requires s.disk == Some(e) && e.samples.pending.None? && e.reported == Reported(0, false)
    requires s.seen.sampled == Some(SampleOf(e.samples.issued + 1, s.seen.parts))
    ensures Reporting(s, WithReportSample(e, s.seen.parts))
  {
  }

  lemma DoneReporting(s: State, e: Entry)
    requires s.disk == Some(e) && e.samples.pending.None? && !e.reported.done
    requires e.reported.number == 0 || e.reported.number in s.confirmed || e.reported.number in s.dropped
    ensures Reporting(s, e.(reported := e.reported.(done := true)))
  {
  }

  lemma KeptReported(h: seq<Event>, s: State, checkout: bool, told: Told)
    requires Kept(h, s, checkout, told) && s.disk.Some? && s.disk.value.samples.pending.None?
    ensures var n := s.disk.value.reported.number; n == 0 || n in s.confirmed || n in s.dropped
  {
    KeptMeans(h, s, checkout, told);
  }

  // ---------- from one phase to the next ----------

  // How far the hand-over still has to go; 0: it is not in the hand-over.
  function Rank(e: Entry): nat {
    match e.phase
    case Exited => if e.exit.how == PrepareFailed then 6 else 5
    case Computed => 4
    case Persisted => 3
    case Submitting => 2
    case Submitted => 1
    case _ => 0
  }

  lemma SubmitTaken(h: seq<Event>, s: State, checkout: bool, told: Told) returns (i: nat)
    requires Kept(h, s, checkout, told) && s.disk.Some? && s.disk.value.phase.Submitted?
    ensures i < |h| && h[i] == Took(Submit)
  {
    KeptMeans(h, s, checkout, told);
    i := TookWitness(h, Submit);
  }

  lemma SalvageTaken(h: seq<Event>, s: State, checkout: bool, told: Told) returns (i: nat)
    requires Kept(h, s, checkout, told) && s.taken.salvage
    ensures i < |h| && h[i].Took? && h[i].q.Salvage?
  {
    KeptMeans(h, s, checkout, told);
    i := TookWitness(h, Salvage(Result("", [], "")));
  }

  lemma FencedSample(s: State, d: Entry)
    requires Known(s, d) && d.phase.Exited? && s.seen.refusals.checkpoint == Some(Fenced)
    ensures MayPut(s, Losing(d))
  {
  }

  lemma ComputeOk(s: State, d: Entry, e: Entry)
    requires Known(s, d) && d.phase.Exited? && s.taken.compute && e == d.(phase := Computed)
    ensures MayPut(s, e)
  {
  }

  lemma ComputeOlder(s: State, d: Entry, e: Entry)
    requires Known(s, d) && d.phase.Exited? && s.seen.refusals.compute == Some(OlderPlatform) && d.exit.how == PrepareFailed
    requires e == d.(exit := d.exit.(how := Exit))
    ensures MayPut(s, e)
  {
  }

  lemma ComputeFenced(s: State, d: Entry)
    requires Known(s, d) && d.phase.Exited? && s.seen.refusals.compute == Some(Fenced)
    ensures MayPut(s, Losing(d))
  {
  }

  lemma ComputeRefusedAs(s: State, d: Entry, why: Why, g: GroupState)
    requires Known(s, d) && d.phase.Exited? && s.seen.refusals.compute == Some(why)
    requires !(why == OlderPlatform && d.exit.how == PrepareFailed)
    requires why != Fenced && (d.group == Cleared ==> g == Cleared)
    ensures EndsWith(s, d, d.exit.how, g)
  {
  }

  lemma ComputeRefused(s: State, d: Entry, why: Why)
    requires Known(s, d) && d.phase.Exited? && s.seen.refusals.compute == Some(why)
    requires !(why == OlderPlatform && d.exit.how == PrepareFailed)
    ensures if why == Fenced then MayPut(s, Losing(d)) else ReadyToEnd(s, d, d.exit.how)
  {
    if why == Fenced {
      ComputeFenced(s, d);
    } else {
      forall g: GroupState | d.group == Cleared ==> g == Cleared ensures EndsWith(s, d, d.exit.how, g) {
        ComputeRefusedAs(s, d, why, g);
      }
      ReadyBy(s, d, d.exit.how);
    }
  }

  lemma CommitRefusedEndsAs(s: State, d: Entry, g: GroupState)
    requires Known(s, d) && d.phase.Computed? && s.seen.commitRefused
    requires d.group == Cleared ==> g == Cleared
    ensures EndsWith(s, d, d.exit.how, g)
  {
  }

  lemma CommitRefusedEnds(s: State, d: Entry)
    requires Known(s, d) && d.phase.Computed? && s.seen.commitRefused
    ensures ReadyToEnd(s, d, d.exit.how)
  {
    forall g: GroupState | d.group == Cleared ==> g == Cleared ensures EndsWith(s, d, d.exit.how, g) {
      CommitRefusedEndsAs(s, d, g);
    }
    ReadyBy(s, d, d.exit.how);
  }

  lemma UnalteredEndsAs(s: State, d: Entry, g: GroupState)
    requires Known(s, d) && d.phase.Computed? && d.draft.prepared && d.unaltered
    requires d.group == Cleared ==> g == Cleared
    ensures EndsWith(s, d, d.exit.how, g)
  {
  }

  lemma UnalteredEnds(s: State, d: Entry)
    requires Known(s, d) && d.phase.Computed? && d.draft.prepared && d.unaltered
    ensures ReadyToEnd(s, d, d.exit.how)
  {
    forall g: GroupState | d.group == Cleared ==> g == Cleared ensures EndsWith(s, d, d.exit.how, g) {
      UnalteredEndsAs(s, d, g);
    }
    ReadyBy(s, d, d.exit.how);
  }

  lemma PersistOk(s: State, d: Entry, e: Entry)
    requires Known(s, d) && d.phase.Computed? && s.taken.persist && e == d.(phase := Persisted)
    ensures MayPut(s, e)
  {
  }

  lemma PersistFenced(s: State, d: Entry)
    requires Known(s, d) && d.phase.Computed? && s.seen.refusals.persist == Some(Fenced)
    ensures MayPut(s, Losing(d))
  {
  }

  lemma PersistRefusedAs(s: State, d: Entry, why: Why, g: GroupState)
    requires Known(s, d) && d.phase.Computed? && s.seen.refusals.persist == Some(why)
    requires why != Fenced && (d.group == Cleared ==> g == Cleared)
    ensures EndsWith(s, d, d.exit.how, g)
  {
  }

  lemma PersistRefused(s: State, d: Entry, why: Why)
    requires Known(s, d) && d.phase.Computed? && s.seen.refusals.persist == Some(why)
    ensures if why == Fenced then MayPut(s, Losing(d)) else ReadyToEnd(s, d, d.exit.how)
  {
    if why == Fenced {
      PersistFenced(s, d);
    } else {
      forall g: GroupState | d.group == Cleared ==> g == Cleared ensures EndsWith(s, d, d.exit.how, g) {
        PersistRefusedAs(s, d, why, g);
      }
      ReadyBy(s, d, d.exit.how);
    }
  }

  lemma SubmittingFollows(s: State, d: Entry, e: Entry)
    requires Known(s, d) && d.phase.Persisted? && e == d.(phase := Submitting)
    ensures MayPut(s, e)
  {
  }

  lemma SubmitOk(s: State, d: Entry, e: Entry)
    requires Known(s, d) && d.phase.Submitting? && s.taken.submit && e == d.(phase := Submitted, handedOver := true)
    ensures MayPut(s, e)
  {
  }

  lemma SubmitFenced(s: State, d: Entry)
    requires Known(s, d) && d.phase.Submitting? && s.seen.refusals.submit == Some(Fenced)
    ensures MayPut(s, Losing(d))
  {
  }

  lemma SubmitRefusedAs(s: State, d: Entry, why: Why, g: GroupState)
    requires Known(s, d) && d.phase.Submitting? && s.seen.refusals.submit == Some(why)
    requires why != Fenced && (d.group == Cleared ==> g == Cleared)
    ensures EndsWith(s, d, d.exit.how, g)
  {
  }

  lemma SubmitRefused(s: State, d: Entry, why: Why)
    requires Known(s, d) && d.phase.Submitting? && s.seen.refusals.submit == Some(why)
    ensures if why == Fenced then MayPut(s, Losing(d)) else ReadyToEnd(s, d, d.exit.how)
  {
    if why == Fenced {
      SubmitFenced(s, d);
    } else {
      forall g: GroupState | d.group == Cleared ==> g == Cleared ensures EndsWith(s, d, d.exit.how, g) {
        SubmitRefusedAs(s, d, why, g);
      }
      ReadyBy(s, d, d.exit.how);
    }
  }

  lemma SubmittedEndsAs(s: State, d: Entry, g: GroupState)
    requires Known(s, d) && d.phase.Submitted?
    requires d.group == Cleared ==> g == Cleared
    ensures EndsWith(s, d, d.exit.how, g)
  {
  }

  lemma SubmittedEnds(s: State, d: Entry)
    requires Known(s, d) && d.phase.Submitted?
    ensures ReadyToEnd(s, d, d.exit.how)
  {
    forall g: GroupState | d.group == Cleared ==> g == Cleared ensures EndsWith(s, d, d.exit.how, g) {
      SubmittedEndsAs(s, d, g);
    }
    ReadyBy(s, d, d.exit.how);
  }

  lemma LostEndsAs(s: State, d: Entry, e: Entry, g: GroupState)
    requires Known(s, d) && d.phase.Lost?
    requires || (e == d && d.unaltered)
             || (e == d.(handedOver := true) && s.taken.salvage)
             || (e == d && s.seen.refusals.salvage.Some? && s.seen.refusals.salvage != Some(InGrace))
    requires e.group == Cleared ==> g == Cleared
    ensures EndsWith(s, e, LeaseLost, g)
  {
  }

  lemma LostEnds(s: State, d: Entry, e: Entry)
    requires Known(s, d) && d.phase.Lost?
    requires || (e == d && d.unaltered)
             || (e == d.(handedOver := true) && s.taken.salvage)
             || (e == d && s.seen.refusals.salvage.Some? && s.seen.refusals.salvage != Some(InGrace))
    ensures ReadyToEnd(s, e, LeaseLost)
  {
    forall g: GroupState | e.group == Cleared ==> g == Cleared ensures EndsWith(s, e, LeaseLost, g) {
      LostEndsAs(s, d, e, g);
    }
    ReadyBy(s, e, LeaseLost);
  }

  lemma RestartedEndsAs(s: State, d: Entry, e: Entry, whole: bool, g: GroupState)
    requires Known(s, d) && Ahead(s, e) && e.phase.Restarted?
    requires whole ==> s.seen.whole.Some? && s.seen.whole.value in s.confirmed
    requires e.(handedOver := whole).group == Cleared ==> g == Cleared
    ensures EndsWith(s, e.(handedOver := whole), DaemonRestart, g)
  {
    AheadMeans(s, e);
  }

  lemma RestartedEnds(s: State, d: Entry, e: Entry, whole: bool)
    requires Known(s, d) && Ahead(s, e) && e.phase.Restarted?
    requires whole ==> s.seen.whole.Some? && s.seen.whole.value in s.confirmed
    ensures ReadyToEnd(s, e.(handedOver := whole), DaemonRestart)
  {
    AheadMeans(s, e);
    forall g: GroupState | e.(handedOver := whole).group == Cleared ==> g == Cleared ensures EndsWith(s, e.(handedOver := whole), DaemonRestart, g) {
      RestartedEndsAs(s, d, e, whole, g);
    }
    ReadyBy(s, e.(handedOver := whole), DaemonRestart);
  }

  lemma BeforeEndsAs(s: State, d: Entry, e: Entry, whole: bool, g: GroupState)
    requires Known(s, d) && Reporting(s, e) && e.phase.Launching? && s.gone
    requires whole ==> s.seen.wholeReport.Some? && s.seen.wholeReport.value in s.confirmed
    requires e.(handedOver := whole).group == Cleared ==> g == Cleared
    ensures EndsWith(s, e.(handedOver := whole), PrepareFailed, g)
  {
    ReportingMeans(s, e);
  }

  lemma BeforeEnds(s: State, d: Entry, e: Entry, whole: bool)
    requires Known(s, d) && Reporting(s, e) && e.phase.Launching? && s.gone
    requires whole ==> s.seen.wholeReport.Some? && s.seen.wholeReport.value in s.confirmed
    ensures ReadyToEnd(s, e.(handedOver := whole), PrepareFailed)
  {
    ReportingMeans(s, e);
    forall g: GroupState | e.(handedOver := whole).group == Cleared ==> g == Cleared ensures EndsWith(s, e.(handedOver := whole), PrepareFailed, g) {
      BeforeEndsAs(s, d, e, whole, g);
    }
    ReadyBy(s, e.(handedOver := whole), PrepareFailed);
  }

  // ---------- a restart ----------

  // What the first pass makes of an entry once its group was looked at.
  function AfterLook(d: Entry, g: GroupState): Entry {
    if d.phase.Early() then d.(group := g, phase := Restarted, exit := d.exit.(how := DaemonRestart)) else d.(group := g)
  }

  lemma GroupFollows(s: State, d: Entry, e: Entry)
    requires s.disk == Some(d) && SoundEntry(d) && !d.phase.Early() && d.group != Cleared
    requires e == d.(group := e.group) && (e.group == Cleared ==> s.gone) && !d.phase.Unswept?
    ensures MayPut(s, e)
  {
  }

  lemma RestartedFollows(s: State, d: Entry, e: Entry)
    requires s.disk == Some(d) && SoundEntry(d) && d.phase.Early() && (e.group == Cleared ==> s.gone)
    requires e == d.(group := e.group, phase := Restarted, exit := d.exit.(how := DaemonRestart))
    ensures MayPut(s, e)
  {
  }

  lemma KeptOpened(h: seq<Event>, s: State, checkout: bool, told: Told, has: bool)
    requires Kept(h, s, checkout, told) && has == (s.disk.Some? && s.disk.value.claim.repo)
    ensures Allowed(s, Opened(has))
    ensures Kept(h + [Opened(has)], Apply(s, Opened(has)), has, Told(false, false))
    ensures Apply(s, Opened(has)) == s.(out := None, seen := SeenNothing(has))
  {
    KeptMeans(h, s, checkout, told);
    SoundStep(s, Opened(has));
    assert (h + [Opened(has)])[..|h|] == h;
  }

  lemma KeptCheckedOut(h: seq<Event>, s: State, checkout: bool, told: Told)
    requires Kept(h, s, checkout, told) && s.disk.Some? && s.disk.value.claim.based && s.disk.value.phase.Launching?
    ensures Kept(h + [CheckedOut], Apply(s, CheckedOut), true, told)
    ensures Apply(s, CheckedOut) == s.(seen := s.seen.(checkout := true))
  {
    KeptMeans(h, s, checkout, told);
    SoundStep(s, CheckedOut);
    assert (h + [CheckedOut])[..|h|] == h;
  }

  // ---------- the attempt's own process ----------

  // What cuts an attempt short before its executor is released.
  datatype Interrupt = Uninterrupted | ShutDown | LeaseLostNow | StoppedNow

  // What the registry may hold, and what memory, while the executor is launched.
  function Waiting(claim: Claim): Entry {
    Blank(claim, Launching, false, Cleared)
  }

  function Prepared(claim: Claim): Entry {
    Blank(claim, Launching, false, NotLooked)
  }

  function Recorded(claim: Claim): Entry {
    Blank(claim, Running, true, NotLooked)
  }

  ghost predicate Starting(s: State, e: Entry) {
    || (s.gone && s.disk == Some(Waiting(e.claim)) && (e == Waiting(e.claim) || e == Prepared(e.claim) || e == Recorded(e.claim)))
    || (e == Recorded(e.claim) && (s.disk == Some(e) || s.disk == Some(Waiting(e.claim))))
  }

  lemma KeptNew(h: seq<Event>, s: State, checkout: bool, told: Told)
    requires Kept(h, s, checkout, told) && s.disk.None? && !s.forgotten
    ensures s.gone
  {
    KeptMeans(h, s, checkout, told);
  }

  lemma KeptCrash(h: seq<Event>, s: State, checkout: bool, told: Told, k: nat)
    requires Kept(h, s, checkout, told) && k <= |h|
    ensures Kept(h[..k], Fold(h[..k]), Fold(h[..k]).seen.checkout, Told(true, true))
  {
    KeptMeans(h, s, checkout, told);
    CrashIsLegal(h, k);
    LegalIsSound(h[..k]);
  }

  lemma FirstWritten(s: State, e: Entry)
    requires s.disk.None? && !s.forgotten && e == Waiting(e.claim)
    ensures Allowed(s, Wrote(e))
  {
  }

  lemma RecordedFollows(s: State, d: Entry, e: Entry)
    requires s.disk == Some(d) && d == Waiting(e.claim) && e == Recorded(e.claim) && e.claim.Launches()
    ensures MayPut(s, e)
  {
  }

  lemma StartingLost(s: State, e: Entry)
    requires Starting(s, e) && s.seen.leaseGone
    ensures MayPut(s, Losing(e))
  {
  }

  function Cancelling(e: Entry): Entry {
    e.(phase := Exited, exit := e.exit.(how := Cancelled, conclusion := NoConclusion))
  }

  lemma StartingCancelled(s: State, e: Entry)
    requires Starting(s, e)
    ensures MayPut(s, Cancelling(e))
  {
  }

  lemma StartingEnds(s: State, e: Entry)
    requires Starting(s, e) && e.phase.Running?
    ensures ReadyToEnd(s, e, Exit)
  {
  }

  lemma SupervisedLost(s: State, d: Entry, e: Entry, g: GroupState)
    requires Known(s, d) && Ahead(s, e) && e.phase.Running? && (g == Cleared ==> s.gone) && s.seen.leaseGone
    ensures MayPut(s, Losing(e.(group := g)))
  {
    AheadMeans(s, e);
  }

  lemma SupervisedExited(s: State, d: Entry, e: Entry, g: GroupState, exit: ExitInfo)
    requires Known(s, d) && Ahead(s, e) && e.phase.Running? && (g == Cleared ==> s.gone) && exit.how != Unset
    requires exit.conclusion != NotYet && (exit.conclusion == NoConclusion || s.seen.checkout == e.claim.based)
    ensures MayPut(s, e.(group := g, phase := Exited, exit := exit))
  {
    AheadMeans(s, e);
  }
}
