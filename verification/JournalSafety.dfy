/** What holds of every legal history, so of every run with a crash, a restart
    or a lost answer at any point. */
module JournalSafety {
  import opened Common
  import opened Journal

  // ---------- what every legal history comes to ----------

  ghost predicate SoundEntry(d: Entry) {
    && (d.draft.prepared ==> d.phase.Preparing() || d.phase.HandedIn() || d.phase.Over())
    && (!d.draft.prepared ==> d.draft.result.commit == "")
    && (d.phase.HandedIn() ==> d.draft.prepared && !d.unaltered)
    && (d.endRequest.Some? <==> d.phase.Over())
    && (d.phase.Running? ==> d.group == NotLooked)
    && (d.phase.Launching? ==> !d.launched)
    && d.samples.confirmed <= d.samples.issued
    && (d.samples.pending.Some? ==> d.samples.confirmed < d.samples.issued == d.samples.pending.value.number)
    && (d.handedOver ==> d.phase.Submitted? || d.phase.Over())
    && (d.phase.Over() && d.endRequest.value.cleared ==> d.group == Cleared)
    && (d.phase.Unswept? ==> d.group == Cleared)
    && (d.phase.Early() ==> d.exit == ExitInfo(None, Unset, NotYet, false))
  }

  ghost predicate SoundTaken(s: State, d: Entry) {
    && (d.phase.Computed? || d.phase.HandedIn() ==> s.taken.compute)
    && (d.phase.HandedIn() ==> s.taken.persist)
    && (d.phase.Submitted? ==> s.taken.submit)
    && (s.taken.persist ==> d.draft.prepared && !d.unaltered)
    && (s.taken.submit ==> d.phase.Submitting? || d.phase.Submitted? || d.phase.Lost? || d.phase.Over())
    && (s.taken.salvage ==> d.phase.Lost? || d.phase.Over())
    && (d.phase.Uncleared? || d.phase.Unswept? ==> s.taken.ended)
    && (d.group == Cleared && !d.phase.Launching? ==> s.gone)
  }

  ghost predicate SoundNumbers(s: State, d: Entry) {
    && (forall n :: n in s.confirmed || n in s.dropped ==> n <= d.samples.issued)
    && d.reported.number <= d.samples.issued
    && (d.reported.number != 0 ==>
          || (d.samples.pending.Some? && d.samples.pending.value.number == d.reported.number)
          || d.reported.number in s.confirmed || d.reported.number in s.dropped)
  }

  // The request out is the one the entry names, and the entry did not move since.
  ghost predicate SoundOut(s: State, d: Entry) {
    s.out.Some? ==>
      match s.out.value
      case Compute(_, _, _) => d.phase.Exited?
      case Persist(r) => d.phase.Computed? && r == d.draft.result && d.draft.prepared && !d.unaltered
      case Submit => d.phase.Submitting? && s.seen.refusals.submit != Some(Fenced)
      case Salvage(r) => d.phase.Lost? && r == d.draft.result && d.draft.prepared && !d.unaltered
      case Checkpoint(p) => d.samples.pending == Some(p)
      case End(r) => d.endRequest == Some(r)
  }

  ghost predicate Sound(s: State) {
    if s.disk.Some? then
      && !s.forgotten
      && SoundEntry(s.disk.value) && SoundTaken(s, s.disk.value)
      && SoundNumbers(s, s.disk.value) && SoundOut(s, s.disk.value)
    else
      && s.out.None?
      && (!s.forgotten ==> s.gone && s.taken == Start.taken && s.confirmed == {} && s.dropped == {})
  }

  lemma SoundWroteEntry(s: State, d: Entry, e: Entry)
    requires SoundEntry(d) && SoundTaken(s, d) && Follows(s, d, e)
    ensures SoundEntry(e)
  {
  }

  lemma SoundWroteTaken(s: State, d: Entry, e: Entry)
    requires s.disk == Some(d) && SoundEntry(d) && SoundTaken(s, d) && Follows(s, d, e)
    ensures SoundTaken(Apply(s, Wrote(e)), e)
  {
  }

  lemma SoundWroteNumbers(s: State, d: Entry, e: Entry)
    requires SoundEntry(d) && SoundNumbers(s, d) && KeepsSamples(s, d.samples, e.samples) && KeepsReported(s, d, e)
    ensures SoundNumbers(Apply(s, Wrote(e)), e)
  {
  }

  lemma SoundWrote(s: State, e: Entry)
    requires Sound(s) && Allowed(s, Wrote(e))
    ensures Sound(Apply(s, Wrote(e)))
  {
    if s.disk.Some? {
      MayPutMeans(s, e);
      SoundWroteEntry(s, s.disk.value, e);
      SoundWroteTaken(s, s.disk.value, e);
      SoundWroteNumbers(s, s.disk.value, e);
    }
  }

  lemma SoundSent(s: State, q: Request)
    requires Sound(s) && Allowed(s, Sent(q))
    ensures Sound(Apply(s, Sent(q)))
  {
  }

  lemma SoundAnswer(s: State, ev: Event)
    requires Sound(s) && Allowed(s, ev) && (ev.Took? || ev.Refused?)
    ensures Sound(Apply(s, ev))
  {
  }

  lemma SoundRest(s: State, ev: Event)
    requires Sound(s) && !ev.Wrote? && !ev.Sent? && !ev.Took? && !ev.Refused?
    requires Allowed(s, ev)
    ensures Sound(Apply(s, ev))
  {
  }

  lemma SoundStep(s: State, ev: Event)
    requires Sound(s) && Allowed(s, ev)
    ensures Sound(Apply(s, ev))
  {
    if ev.Wrote? {
      SoundWrote(s, ev.entry);
    } else if ev.Sent? {
      SoundSent(s, ev.q);
    } else if ev.Took? || ev.Refused? {
      SoundAnswer(s, ev);
    } else {
      SoundRest(s, ev);
    }
  }

  lemma {:induction false} LegalIsSound(h: seq<Event>)
    requires Legal(h)
    ensures Sound(Fold(h))
  {
    if |h| > 0 {
      LegalIsSound(h[..|h|-1]);
      SoundStep(Fold(h[..|h|-1]), h[|h|-1]);
    }
  }

  // A crash ends a history early: what is left is legal as well.
  lemma {:induction false} CrashIsLegal(h: seq<Event>, k: nat)
    requires Legal(h) && k <= |h|
    ensures Legal(h[..k])
    ensures k < |h| ==> Allowed(Fold(h[..k]), h[k])
    ensures k < |h| ==> Fold(h[..k+1]) == Apply(Fold(h[..k]), h[k])
  {
    if k == |h| {
      assert h[..k] == h;
    } else {
      var g := h[..|h|-1];
      if k < |g| {
        CrashIsLegal(g, k);
        assert g[..k] == h[..k] && g[..k+1] == h[..k+1];
      } else {
        assert g[..k] == g == h[..k];
        assert h[..k+1] == h;
      }
    }
  }

  // ---------- what stays, from any point of a history to any later one ----------

  ghost predicate LaterEnd(q: EndRequest, r: EndRequest) {
    r == q || (q.endHow == PrepareFailed && r == q.(endHow := Exit))
  }

  ghost predicate LaterEntry(d: Entry, e: Entry) {
    && e.claim == d.claim
    && (d.draft.prepared ==> e.draft == d.draft && e.unaltered == d.unaltered)
    && (d.unaltered ==> e.unaltered)
    && (d.endRequest.Some? ==> e.endRequest.Some? && LaterEnd(d.endRequest.value, e.endRequest.value))
    && d.samples.issued <= e.samples.issued
    && (d.samples.issued == e.samples.issued ==> e.samples.pending == d.samples.pending || e.samples.pending.None?)
    && (d.handedOver ==> e.handedOver)
  }

  ghost predicate Later(s: State, t: State) {
    && (s.disk.Some? && t.disk.Some? ==> LaterEntry(s.disk.value, t.disk.value))
    && (s.disk.Some? && t.disk.None? ==> t.forgotten)
    && (s.forgotten ==> t.forgotten)
    && (s.taken.submit ==> t.taken.submit) && (s.taken.salvage ==> t.taken.salvage)
    && s.confirmed <= t.confirmed && s.dropped <= t.dropped
  }

  lemma LaterStep(s: State, ev: Event)
    requires Sound(s) && Allowed(s, ev)
    ensures Later(s, Apply(s, ev))
  {
    if ev.Wrote? && s.disk.Some? {
      MayPutMeans(s, ev.entry);
    }
  }

  lemma LaterTransitive(s: State, t: State, u: State)
    requires Sound(t) && Sound(u) && Later(s, t) && Later(t, u)
    ensures Later(s, u)
  {
  }

  lemma LaterLast(h: seq<Event>, j: nat)
    requires Legal(h) && 0 < j <= |h|
    ensures Sound(Fold(h[..j-1])) && Sound(Fold(h[..j])) && Later(Fold(h[..j-1]), Fold(h[..j]))
  {
    CrashIsLegal(h, j - 1);
    CrashIsLegal(h, j);
    LegalIsSound(h[..j-1]);
    LegalIsSound(h[..j]);
    LaterStep(Fold(h[..j-1]), h[j-1]);
  }

  lemma {:induction false} Evolves(h: seq<Event>, i: nat, j: nat)
    requires Legal(h) && i <= j <= |h|
    ensures Later(Fold(h[..i]), Fold(h[..j]))
    decreases j
  {
    if i < j {
      Evolves(h, i, j - 1);
      LaterLast(h, j);
      LaterTransitive(Fold(h[..i]), Fold(h[..j-1]), Fold(h[..j]));
    }
  }

  // ---------- the one result ----------

  ghost predicate HandsIn(ev: Event) {
    ev.Sent? && (ev.q.Persist? || ev.q.Salvage?)
  }

  // What the registry says when a result, a push, a submit or a commit goes out.
  lemma HandsInAt(h: seq<Event>, i: nat)
    requires Legal(h) && i < |h| && HandsIn(h[i])
    ensures Disk(h[..i]).Some?
    ensures var d := Disk(h[..i]).value; d.draft.prepared && !d.unaltered && d.draft.result == h[i].q.result
  {
    CrashIsLegal(h, i);
  }

  lemma PushedAt(h: seq<Event>, i: nat)
    requires Legal(h) && i < |h| && h[i].Pushed?
    ensures Disk(h[..i]).Some?
    ensures var d := Disk(h[..i]).value; d.draft.prepared && !d.unaltered && d.draft.result.commit == h[i].commit
  {
    CrashIsLegal(h, i);
  }

  lemma SubmitAt(h: seq<Event>, i: nat)
    requires Legal(h) && i < |h| && h[i] == Sent(Submit)
    ensures Disk(h[..i]).Some? && Disk(h[..i]).value.phase.Submitting?
    ensures var d := Disk(h[..i]).value; d.draft.prepared && !d.unaltered && Fold(h[..i]).taken.persist
  {
    CrashIsLegal(h, i);
    LegalIsSound(h[..i]);
  }

  lemma CommittedAt(h: seq<Event>, i: nat)
    requires Legal(h) && i < |h| && h[i].Committed?
    ensures Disk(h[..i]).Some? && !Disk(h[..i]).value.draft.prepared
  {
    CrashIsLegal(h, i);
  }

  lemma WroteAt(h: seq<Event>, i: nat)
    requires Legal(h) && i < |h| && h[i].Wrote?
    ensures Disk(h[..i+1]) == Some(h[i].entry)
  {
    CrashIsLegal(h, i);
  }

  /** Every persist and every salvage of an attempt carries the same report,
      artifacts and commit, whatever crashed and was sent again between them. */
  lemma OneResult(h: seq<Event>, i: nat, j: nat)
    requires Legal(h) && i <= j < |h| && HandsIn(h[i]) && HandsIn(h[j])
    ensures h[i].q.result == h[j].q.result
  {
    HandsInAt(h, i);
    HandsInAt(h, j);
    Evolves(h, i, j);
  }

  /** What is pushed is the commit the registry already names, every time the
      same one, and the one handed in; none is made once one was pushed. */
  lemma OneCommit(h: seq<Event>, i: nat, j: nat)
    requires Legal(h) && i < |h| && j < |h| && h[i].Pushed?
    ensures Disk(h[..i]).Some? && Disk(h[..i]).value.draft.prepared && Disk(h[..i]).value.draft.result.commit == h[i].commit
    ensures h[j].Pushed? ==> h[j].commit == h[i].commit
    ensures HandsIn(h[j]) ==> h[j].q.result.commit == h[i].commit
    ensures h[j].Committed? ==> j < i
  {
    PushedAt(h, i);
    Evolves(h, if i < j then i else j, if i < j then j else i);
    if h[j].Pushed? {
      PushedAt(h, j);
    } else if HandsIn(h[j]) {
      HandsInAt(h, j);
    } else if h[j].Committed? {
      CommittedAt(h, j);
    }
  }

  // ---------- nothing changed, nothing handed in ----------

  ghost predicate GoesOut(ev: Event) {
    ev.Pushed? || HandsIn(ev) || ev == Sent(Submit)
  }

  lemma GoesOutAt(h: seq<Event>, i: nat)
    requires Legal(h) && i < |h| && GoesOut(h[i])
    ensures Disk(h[..i]).Some? && Disk(h[..i]).value.draft.prepared && !Disk(h[..i]).value.unaltered
  {
    if h[i].Pushed? {
      PushedAt(h, i);
    } else if HandsIn(h[i]) {
      HandsInAt(h, i);
    } else {
      SubmitAt(h, i);
    }
  }

  /** An implementation marked as having changed nothing is never pushed,
      persisted, submitted or salvaged, before the mark or after it. */
  lemma UnalteredHandsInNothing(h: seq<Event>, i: nat, j: nat)
    requires Legal(h) && i < |h| && j < |h|
    requires h[i].Wrote? && h[i].entry.unaltered
    ensures !h[j].Pushed? && !HandsIn(h[j]) && h[j] != Sent(Submit)
  {
    if GoesOut(h[j]) {
      GoesOutAt(h, j);
      WroteAt(h, i);
      Evolves(h, if i < j then i + 1 else j, if i < j then j else i + 1);
      assert false;
    }
  }

  // ---------- the order of the requests ----------

  // The request of a kind the platform ever took: the one of its own that is set.
  ghost predicate TakenOf(t: Taken, q: Request) {
    match q
    case Compute(_, _, _) => t.compute
    case Persist(_) => t.persist
    case Submit => t.submit
    case Salvage(_) => t.salvage
    case Checkpoint(_) => false
    case End(_) => false
  }

  ghost predicate SameKind(q: Request, r: Request) {
    match q
    case Compute(_, _, _) => r.Compute?
    case Persist(_) => r.Persist?
    case Submit => r.Submit?
    case Salvage(_) => r.Salvage?
    case Checkpoint(_) => r.Checkpoint?
    case End(_) => r.End?
  }

  lemma {:induction false} TookWitness(h: seq<Event>, q: Request) returns (j: nat)
    requires Legal(h) && TakenOf(Fold(h).taken, q)
    ensures j < |h| && h[j].Took? && SameKind(q, h[j].q)
  {
    var g := h[..|h|-1];
    if TakenOf(Fold(g).taken, q) {
      j := TookWitness(g, q);
    } else {
      j := |h| - 1;
    }
  }

  /** Persist is sent only after the platform took the computed request. */
  lemma PersistAfterComputed(h: seq<Event>, i: nat) returns (j: nat)
    requires Legal(h) && i < |h| && h[i].Sent? && h[i].q.Persist?
    ensures j < i && h[j].Took? && h[j].q.Compute?
  {
    CrashIsLegal(h, i);
    LegalIsSound(h[..i]);
    j := TookWitness(h[..i], Compute(None, Unset, NotYet));
  }

  lemma TookPersistAt(h: seq<Event>, j: nat)
    requires Legal(h) && j < |h| && h[j].Took? && h[j].q.Persist?
    ensures Disk(h[..j]).Some?
    ensures var d := Disk(h[..j]).value; d.draft.prepared && d.draft.result == h[j].q.result
  {
    CrashIsLegal(h, j);
    LegalIsSound(h[..j]);
  }

  /** Submit is sent only while the registry says submitting, and only after the
      platform took a persist of the very result the registry holds. */
  lemma SubmitAfterPersist(h: seq<Event>, i: nat) returns (j: nat)
    requires Legal(h) && i < |h| && h[i] == Sent(Submit)
    ensures Disk(h[..i]).Some? && Disk(h[..i]).value.phase.Submitting?
    ensures j < i && h[j] == Took(Persist(Disk(h[..i]).value.draft.result))
  {
    SubmitAt(h, i);
    CrashIsLegal(h, i);
    j := TookWitness(h[..i], Persist(Result("", [], "")));
    TookPersistAt(h, j);
    Evolves(h, j, i);
  }

  // ---------- the one computed request ----------

  // What was done ran in the attempt's checkout, where it and every later process has
  // one, and only what ran can be done.
  ghost predicate Grounded(s: State) {
    && (s.seen.inspected.Some? ==> s.seen.checkout)
    && (s.disk.Some? ==>
          var d := s.disk.value;
          && (d.phase.Running? ==> d.claim.Launches())
          && (d.phase.Exited? ==> d.exit.conclusion != NotYet)
          && (d.phase.Exited? && d.exit.conclusion == Done ==>
                d.claim.Launches() && (d.claim.repo && d.claim.based ==> s.seen.checkout)))
  }

  lemma GroundedWrote(s: State, d: Entry, e: Entry)
    requires Grounded(s) && s.disk == Some(d) && Follows(s, d, e)
    ensures Grounded(Apply(s, Wrote(e)))
  {
  }

  lemma GroundedStep(s: State, ev: Event)
    requires Grounded(s) && Allowed(s, ev)
    ensures Grounded(Apply(s, ev))
  {
    if ev.Wrote? && s.disk.Some? {
      MayPutMeans(s, ev.entry);
      GroundedWrote(s, s.disk.value, ev.entry);
    }
  }

  lemma {:induction false} LegalIsGrounded(h: seq<Event>)
    requires Legal(h)
    ensures Grounded(Fold(h))
  {
    if |h| > 0 {
      LegalIsGrounded(h[..|h|-1]);
      GroundedStep(Fold(h[..|h|-1]), h[|h|-1]);
    }
  }

  // What the computed request says stays: the check is made, or would change nothing,
  // or no process that takes the attempt up makes it.
  ghost predicate Concluded(s: State) {
    s.disk.Some? &&
    var d := s.disk.value;
    d.phase.Exited? && (d.checked || d.exit.conclusion != Done || (!d.claim.repo && !s.seen.checkout))
  }

  ghost predicate LaterHow(d: EndHow, e: EndHow) {
    e == d || (d == PrepareFailed && e == Exit)
  }

  // Once it exited it exits no more; a done one may come to be failed, or one that
  // changed nothing to conclude none, and a concluded one concludes the same.
  ghost predicate LaterExit(d: Entry, e: Entry) {
    && e.claim == d.claim
    && (!d.phase.Early() ==> !e.phase.Early())
    && (!d.phase.Early() && !d.phase.Exited? ==> !e.phase.Exited?)
    && (d.phase.Exited? && e.phase.Exited? ==>
          && e.exit.code == d.exit.code && LaterHow(d.exit.how, e.exit.how)
          && (e.exit.conclusion == d.exit.conclusion
              || (d.exit.conclusion == Done && (e.exit.conclusion == Failed || d.Implementation()))))
  }

  // From one point of a history to a later one.
  ghost predicate Exits(s: State, t: State) {
    && (s.disk.Some? && t.disk.None? ==> t.forgotten)
    && (s.disk.Some? && t.disk.Some? ==>
          && LaterExit(s.disk.value, t.disk.value)
          && (Concluded(s) && t.disk.value.phase.Exited? ==>
                Concluded(t) && t.disk.value.exit.conclusion == s.disk.value.exit.conclusion))
  }

  lemma ExitsWrote(s: State, d: Entry, e: Entry)
    requires Grounded(s) && s.disk == Some(d) && Follows(s, d, e)
    ensures Exits(s, Apply(s, Wrote(e)))
  {
  }

  lemma ExitsStep(s: State, ev: Event)
    requires Grounded(s) && Allowed(s, ev)
    ensures Exits(s, Apply(s, ev))
  {
    if ev.Wrote? && s.disk.Some? {
      MayPutMeans(s, ev.entry);
      ExitsWrote(s, s.disk.value, ev.entry);
    }
  }

  lemma ExitsOn(s: State, t: State, u: State)
    requires Exits(s, t) && Exits(t, u) && Sound(t) && (t.forgotten ==> u.forgotten) && (u.forgotten ==> u.disk.None?)
    ensures Exits(s, u)
  {
  }

  lemma ExitsLast(h: seq<Event>, j: nat)
    requires Legal(h) && 0 < j <= |h|
    ensures Exits(Fold(h[..j-1]), Fold(h[..j]))
  {
    CrashIsLegal(h, j - 1);
    LegalIsGrounded(h[..j-1]);
    ExitsStep(Fold(h[..j-1]), h[j-1]);
  }

  lemma {:induction false} ExitsLater(h: seq<Event>, i: nat, j: nat)
    requires Legal(h) && i <= j <= |h|
    ensures Exits(Fold(h[..i]), Fold(h[..j]))
    decreases j
  {
    if i < j {
      ExitsLater(h, i, j - 1);
      LaterLast(h, j);
      ExitsLast(h, j);
      ExitsOn(Fold(h[..i]), Fold(h[..j-1]), Fold(h[..j]));
    }
  }

  // A claim whose run has no checkout to check, but whose takeovers take the workspace
  // for one: a done conclusion is checked, and failed, only there.
  predicate Recounts(claim: Claim, conclusion: Conclusion) {
    claim.repo && !claim.based && !claim.branch && conclusion == Done
  }

  // What the registry says when a computed request goes out.
  lemma ComputedSent(s: State, ev: Event)
    requires Grounded(s) && Allowed(s, ev) && ev.Sent? && ev.q.Compute?
    ensures s.disk.Some? && s.disk.value.phase.Exited? && (Concluded(s) || Recounts(s.disk.value.claim, ev.q.conclusion))
    ensures var x := s.disk.value.exit; ev.q == Compute(x.code, x.how, x.conclusion)
    ensures s.disk.value.Implementation() && ev.q.conclusion == Done ==> Concluded(s)
  {
  }

  lemma ComputedAt(h: seq<Event>, i: nat)
    requires Legal(h) && i < |h| && h[i].Sent? && h[i].q.Compute?
    ensures var s := Fold(h[..i]);
            && s.disk.Some? && s.disk.value.phase.Exited? && (Concluded(s) || Recounts(s.disk.value.claim, h[i].q.conclusion))
            && (s.disk.value.Implementation() && h[i].q.conclusion == Done ==> Concluded(s))
            && var x := s.disk.value.exit; h[i].q == Compute(x.code, x.how, x.conclusion)
  {
    CrashIsLegal(h, i);
    LegalIsGrounded(h[..i]);
    ComputedSent(Fold(h[..i]), h[i]);
  }

  // The same, but that prepare_failed may have become exit.
  ghost predicate SameComputed(q: Request, r: Request)
    requires q.Compute?
  {
    r.Compute? && r.code == q.code && LaterHow(q.how, r.how) && r.conclusion == q.conclusion
  }

  /** Every computed request of an attempt is the same, but that prepare_failed may once
      become exit, never back; and that done may once become failed, where the claim's
      run had no checkout and its takeovers look for one. */
  lemma ComputedTheSame(h: seq<Event>, i: nat, j: nat)
    requires Legal(h) && i <= j < |h|
    requires h[i].Sent? && h[i].q.Compute? && h[j].Sent? && h[j].q.Compute?
    ensures Disk(h[..i]).Some?
    ensures || SameComputed(h[i].q, h[j].q)
            || (Recounts(Disk(h[..i]).value.claim, h[i].q.conclusion) && h[j].q.conclusion == Failed
                && SameComputed(h[i].q, h[j].q.(conclusion := Done)))
  {
    ComputedAt(h, i);
    ComputedAt(h, j);
    ExitsLater(h, i, j);
  }

  // ---------- submitted or salvaged, never both ----------

  // The platform refused a submit it had already taken, as fenced.
  ghost predicate FencedAfterTaken(h: seq<Event>) {
    exists i, j :: 0 <= i < j < |h| && h[i] == Took(Submit) && h[j] == Refused(Submit, Fenced)
  }

  // The platform answers a submit it took again, as often as it is sent again.
  ghost predicate AnswersAgain(h: seq<Event>) {
    forall i, j :: 0 <= i < j < |h| && h[i] == Took(Submit) ==> !(h[j].Refused? && h[j].q == Submit)
  }

  ghost predicate NotLostOnceSubmitted(s: State) {
    s.taken.submit ==>
      && !s.taken.salvage
      && s.seen.refusals.submit != Some(Fenced)
      && (s.disk.Some? ==> !s.disk.value.phase.Lost?)
  }

  lemma NotLostStep(s: State, ev: Event)
    requires Sound(s) && Allowed(s, ev) && NotLostOnceSubmitted(s)
    requires ev == Refused(Submit, Fenced) ==> !s.taken.submit
    ensures NotLostOnceSubmitted(Apply(s, ev))
  {
    match ev
    case Wrote(e) => NotLostWrote(s, e);
    case Took(q) => assert s.out == Some(q) && SoundOut(s, s.disk.value);
    case _ =>
  }

  lemma NotLostWrote(s: State, e: Entry)
    requires Sound(s) && Allowed(s, Wrote(e)) && NotLostOnceSubmitted(s)
    ensures NotLostOnceSubmitted(Apply(s, Wrote(e)))
  {
    if s.disk.Some? {
      MayPutMeans(s, e);
    }
  }

  lemma {:induction false} NotLostWhole(h: seq<Event>)
    requires Legal(h) && !FencedAfterTaken(h)
    ensures NotLostOnceSubmitted(Fold(h))
  {
    if |h| > 0 {
      var g, ev := h[..|h|-1], h[|h|-1];
      forall i, j | 0 <= i < j < |g| ensures !(g[i] == Took(Submit) && g[j] == Refused(Submit, Fenced)) {
        assert h[i] == g[i] && h[j] == g[j];
      }
      NotLostWhole(g);
      LegalIsSound(g);
      if Fold(g).taken.submit && ev == Refused(Submit, Fenced) {
        var i := TookWitness(g, Submit);
        assert false;
      }
      NotLostStep(Fold(g), ev);
    }
  }

  lemma {:induction false} TakenIsTold(h: seq<Event>, i: nat)
    requires Legal(h) && i < |h| && h[i].Took?
    ensures h[i].q.Submit? ==> Fold(h).taken.submit
    ensures h[i].q.Salvage? ==> Fold(h).taken.salvage
  {
    CrashIsLegal(h, i);
    CrashIsLegal(h, i + 1);
    Evolves(h, i + 1, |h|);
    assert h[..|h|] == h;
  }

  /** An attempt is submitted and salvaged as well only if the platform refused,
      as fenced, a submit it had taken before. */
  lemma BothOnlyIfFenced(h: seq<Event>, i: nat, j: nat)
    requires Legal(h) && i < |h| && j < |h|
    requires h[i] == Took(Submit) && h[j].Took? && h[j].q.Salvage?
    ensures FencedAfterTaken(h)
  {
    TakenIsTold(h, i);
    TakenIsTold(h, j);
    if !FencedAfterTaken(h) {
      NotLostWhole(h);
      assert false;
    }
  }

  /** With a platform that answers a submit it took again, no attempt is both
      submitted and salvaged, in any run. */
  lemma NeverBoth(h: seq<Event>, i: nat, j: nat)
    requires Legal(h) && AnswersAgain(h) && i < |h| && j < |h|
    requires h[i] == Took(Submit)
    ensures !(h[j].Took? && h[j].q.Salvage?)
  {
    if h[j].Took? && h[j].q.Salvage? {
      BothOnlyIfFenced(h, i, j);
    }
  }

  // ---------- leaving the registry ----------

  lemma {:induction false} EndedWitness(h: seq<Event>) returns (j: nat)
    requires Legal(h) && Fold(h).taken.ended
    ensures j < |h| && (h[j].Took? || h[j].Refused?) && h[j].q.End?
    ensures h[j].Refused? ==> Definite(h[j].q, h[j].why)
  {
    var g := h[..|h|-1];
    if Fold(g).taken.ended {
      j := EndedWitness(g);
    } else {
      j := |h| - 1;
    }
  }

  ghost predicate Launches(h: seq<Event>, i: nat)
    requires i < |h|
  {
    LaunchesOver(Disk(h[..i]), h[i])
  }

  // The group was seen gone at l, and none was launched or seen left since.
  ghost predicate SeenGoneAt(h: seq<Event>, l: nat)
    requires l < |h|
  {
    h[l] == Looked(Cleared) && forall m :: l < m < |h| ==> !Launches(h, m) && (h[m].Looked? ==> h[m].group == Cleared)
  }

  ghost predicate KnownGone(h: seq<Event>) {
    || (forall m :: 0 <= m < |h| ==> !Launches(h, m))
    || (exists l :: 0 <= l < |h| && SeenGoneAt(h, l))
  }

  // What one more event leaves of KnownGone.
  lemma StillSeenGone(h: seq<Event>, l: nat)
    requires |h| > 0 && l < |h| - 1 && SeenGoneAt(h[..|h|-1], l)
    requires !Launches(h, |h|-1) && (h[|h|-1].Looked? ==> h[|h|-1].group == Cleared)
    ensures SeenGoneAt(h, l)
  {
    var g := h[..|h|-1];
    forall m | l < m < |h| ensures !Launches(h, m) && (h[m].Looked? ==> h[m].group == Cleared) {
      if m < |g| {
        assert g[..m] == h[..m] && !Launches(g, m) && g[m] == h[m];
      }
    }
  }

  lemma StillGone(h: seq<Event>)
    requires |h| > 0 && KnownGone(h[..|h|-1])
    requires !Launches(h, |h|-1) && (h[|h|-1].Looked? ==> h[|h|-1].group == Cleared)
    ensures KnownGone(h)
  {
    var g := h[..|h|-1];
    if l :| 0 <= l < |g| && SeenGoneAt(g, l) {
      StillSeenGone(h, l);
    } else {
      forall m | 0 <= m < |h| ensures !Launches(h, m) {
        assert m < |g| ==> g[..m] == h[..m] && !Launches(g, m);
      }
    }
  }

  lemma {:induction false} GoneMeans(h: seq<Event>)
    requires Legal(h) && Fold(h).gone
    ensures KnownGone(h)
  {
    if |h| > 0 {
      if h[|h|-1] == Looked(Cleared) {
        assert SeenGoneAt(h, |h|-1);
      } else {
        GoneMeans(h[..|h|-1]);
        StillGone(h);
      }
    }
  }

  /** An entry leaves the registry only when its group is known gone, and only
      after its ended request got a definite answer. */
  lemma ForgottenOnlyGone(h: seq<Event>, i: nat) returns (j: nat)
    requires Legal(h) && i < |h| && h[i] == Forgot
    ensures KnownGone(h[..i])
    ensures j < i && (h[j].Took? || h[j].Refused?) && h[j].q.End?
    ensures h[j].Refused? ==> h[j].why != OlderPlatform || h[j].q.end.endHow != PrepareFailed
  {
    CrashIsLegal(h, i);
    GoneMeans(h[..i]);
    j := EndedWitness(h[..i]);
  }

  lemma EndAt(h: seq<Event>, i: nat)
    requires Legal(h) && i < |h| && h[i].Sent? && h[i].q.End?
    ensures Disk(h[..i]).Some? && Disk(h[..i]).value.endRequest == Some(h[i].q.end)
  {
    CrashIsLegal(h, i);
    EndSent(Fold(h[..i]), h[i]);
  }

  lemma EndSent(s: State, ev: Event)
    requires Allowed(s, ev) && ev.Sent? && ev.q.End?
    ensures s.disk.Some? && s.disk.value.endRequest == Some(ev.q.end)
  {
  }

  /** Every ended request of an attempt is the same, but that prepare_failed may
      once become exit, never back. */
  lemma EndedTheSame(h: seq<Event>, i: nat, j: nat)
    requires Legal(h) && i <= j < |h|
    requires h[i].Sent? && h[i].q.End? && h[j].Sent? && h[j].q.End?
    ensures LaterEnd(h[i].q.end, h[j].q.end)
  {
    EndAt(h, i);
    EndAt(h, j);
    Evolves(h, i, j);
  }

  // ---------- checkpoint numbers ----------

  lemma CheckpointAt(h: seq<Event>, i: nat)
    requires Legal(h) && i < |h| && h[i].Sent? && h[i].q.Checkpoint?
    ensures Disk(h[..i]).Some?
    ensures var d := Disk(h[..i]).value;
            d.samples.pending == Some(h[i].q.sample) && d.samples.issued == h[i].q.sample.number
  {
    CrashIsLegal(h, i);
    LegalIsSound(h[..i]);
  }

  /** Two checkpoint requests with the same number name the same artifacts and
      the same size flag, whichever of the two writers made them. */
  lemma OneSampleANumber(h: seq<Event>, i: nat, j: nat)
    requires Legal(h) && i <= j < |h|
    requires h[i].Sent? && h[i].q.Checkpoint? && h[j].Sent? && h[j].q.Checkpoint?
    requires h[i].q.sample.number == h[j].q.sample.number
    ensures h[i].q.sample == h[j].q.sample
  {
    CheckpointAt(h, i);
    CheckpointAt(h, j);
    Evolves(h, i, j);
  }

  lemma NewlyPendingAt(h: seq<Event>, i: nat)
    requires Legal(h) && i < |h| && h[i].Wrote? && h[i].entry.samples.pending.Some?
    requires Disk(h[..i]).Some? && Disk(h[..i]).value.samples.pending != h[i].entry.samples.pending
    ensures h[i].entry.samples.pending.value.number == h[i].entry.samples.issued == Disk(h[..i]).value.samples.issued + 1
    ensures h[i].entry.samples.confirmed < h[i].entry.samples.issued
  {
    CrashIsLegal(h, i);
    MayPutMeans(Fold(h[..i]), h[i].entry);
    LegalIsSound(h[..i]);
  }

  /** A sample that becomes pending has a larger number than any sent before, and
      while it is pending it is the last one issued and not confirmed. */
  lemma NewSampleNewNumber(h: seq<Event>, i: nat, j: nat)
    requires Legal(h) && j < i < |h|
    requires h[i].Wrote? && h[i].entry.samples.pending.Some?
    requires Disk(h[..i]).Some? && Disk(h[..i]).value.samples.pending != h[i].entry.samples.pending
    requires h[j].Sent? && h[j].q.Checkpoint?
    ensures h[j].q.sample.number < h[i].entry.samples.pending.value.number
    ensures h[i].entry.samples.confirmed < h[i].entry.samples.pending.value.number == h[i].entry.samples.issued
  {
    NewlyPendingAt(h, i);
    CheckpointAt(h, j);
    Evolves(h, j, i);
  }

  // ---------- emptying the workspace ----------

  // The sample put together at a.
  ghost function SampleAt(h: seq<Event>, a: nat): Sample
    requires a < |h| && h[a].Sampled?
  {
    var p := Fold(h[..a]).seen.parts;
    Sample(h[a].number, p.Names(), p.tooLarge)
  }

  // The log was read, and its tail, if any, is among what q names; and so is the patch
  // of the checkout, if any, none of it too large, or else the report.
  predicate HoldsAll(n: Seen, q: Sample) {
    var p := n.parts;
    && !q.tooLarge && p.logRead && (p.tail ==> p.tailId != "" && p.tailId in q.artifacts)
    && (|| (n.checkout && p.diffed && !p.tooLarge && (p.patch ==> p.patchId != "" && p.patchId in q.artifacts))
        || (p.reportId != "" && p.reportId in q.artifacts))
  }

  lemma WholeHoldsAll(n: Seen, number: nat)
    requires Whole(n) || WholeReport(n)
    ensures HoldsAll(n, Sample(number, n.parts.Names(), n.parts.tooLarge))
  {
  }

  // A sample put together at a with every part read and taken, the very checkpoint
  // that names those parts taken at b, and the entry handed over at c, all by one process.
  ghost predicate WholeSampleHandedOver(h: seq<Event>, a: nat, b: nat, c: nat) {
    && a < b < c < |h|
    && h[a].Sampled? && h[b] == Took(Checkpoint(SampleAt(h, a))) && HoldsAll(Fold(h[..a]).seen, SampleAt(h, a))
    && h[c].Wrote? && h[c].entry.handedOver
    && forall m :: a < m < c ==> !h[m].Opened?
  }

  ghost predicate HandedOverFor(h: seq<Event>) {
    || (exists i :: 0 <= i < |h| && h[i].Took? && (h[i].q.Submit? || h[i].q.Salvage?))
    || (exists a: nat, b: nat, c: nat :: WholeSampleHandedOver(h, a, b, c))
  }

  lemma WholeKept(s: State, ev: Event)
    ensures var n, m := s.seen, Apply(s, ev).seen;
            if ev.Opened? then m.whole.None? && m.wholeReport.None?
            else if ev.Sampled? then
              && (m.whole.Some? ==> m.whole == Some(ev.number) && Whole(n))
              && (m.wholeReport.Some? ==> m.wholeReport == Some(ev.number) && WholeReport(n))
            else m.whole == n.whole && m.wholeReport == n.wholeReport
  {
  }

  // The sample n was put together whole, and no other since, nor did a process take
  // the attempt up.
  ghost predicate WholeAt(h: seq<Event>, a: nat, n: nat) {
    && a < |h| && h[a] == Sampled(n) && (Whole(Fold(h[..a]).seen) || WholeReport(Fold(h[..a]).seen))
    && LastSampled(h, a)
  }

  ghost predicate LastSampled(h: seq<Event>, a: nat) {
    a < |h| && h[a].Sampled? && forall m :: a < m < |h| ==> !h[m].Opened? && !h[m].Sampled?
  }

  lemma WholeAtStill(h: seq<Event>, a: nat, n: nat)
    requires |h| > 0 && WholeAt(h[..|h|-1], a, n) && !h[|h|-1].Opened? && !h[|h|-1].Sampled?
    ensures WholeAt(h, a, n)
  {
    var g := h[..|h|-1];
    assert g[..a] == h[..a];
    forall m | a < m < |h| ensures !h[m].Opened? && !h[m].Sampled? {
      assert m < |g| ==> h[m] == g[m];
    }
  }

  lemma {:induction false} WholeWitness(h: seq<Event>, n: nat) returns (a: nat)
    requires Fold(h).seen.whole == Some(n) || Fold(h).seen.wholeReport == Some(n)
    ensures WholeAt(h, a, n)
  {
    var g, ev := h[..|h|-1], h[|h|-1];
    WholeKept(Fold(g), ev);
    if ev.Sampled? {
      a := |g|;
    } else {
      a := WholeWitness(g, n);
      WholeAtStill(h, a, n);
    }
  }

  // The pending sample of p's number is p, the one put together last.
  ghost predicate PendingIs(s: State, p: Sample) {
    && s.seen.sampled == Some(p)
    && (s.disk.Some? && s.disk.value.samples.pending.Some? && s.disk.value.samples.pending.value.number == p.number ==>
          s.disk.value.samples.pending == Some(p))
  }

  lemma PendingSampled(s: State, n: nat)
    requires Sound(s) && Allowed(s, Sampled(n))
    ensures PendingIs(Apply(s, Sampled(n)), Sample(n, s.seen.parts.Names(), s.seen.parts.tooLarge))
  {
  }

  lemma PendingStep(s: State, ev: Event, p: Sample)
    requires Allowed(s, ev) && PendingIs(s, p) && !ev.Opened? && !ev.Sampled?
    ensures PendingIs(Apply(s, ev), p)
  {
    if ev.Wrote? && s.disk.Some? {
      MayPutMeans(s, ev.entry);
    }
  }

  lemma {:induction false} PendingSince(h: seq<Event>, a: nat)
    requires Legal(h) && LastSampled(h, a)
    ensures PendingIs(Fold(h), SampleAt(h, a))
  {
    var g := h[..|h|-1];
    LegalIsSound(g);
    if a == |g| {
      PendingSampled(Fold(g), h[a].number);
    } else {
      assert g[..a] == h[..a] && LastSampled(g, a);
      PendingSince(g, a);
      PendingStep(Fold(g), h[|h|-1], SampleAt(h, a));
    }
  }

  // The request taken is the pending one.
  lemma TookPending(s: State, q: Sample, p: Sample)
    requires Sound(s) && Allowed(s, Took(Checkpoint(q))) && PendingIs(s, p) && q.number == p.number
    ensures q == p
  {
  }

  lemma SamplePrefix(h: seq<Event>, a: nat, b: nat)
    requires a < b <= |h| && h[a].Sampled?
    ensures SampleAt(h[..b], a) == SampleAt(h, a)
  {
    assert h[..b][..a] == h[..a];
  }

  lemma LastSampledPrefix(h: seq<Event>, a: nat, b: nat)
    requires a < b <= |h| && LastSampled(h, a)
    ensures LastSampled(h[..b], a)
  {
  }

  lemma TookTheSample(h: seq<Event>, a: nat, b: nat)
    requires Legal(h) && a < b < |h| && LastSampled(h, a)
    requires h[b].Took? && h[b].q.Checkpoint? && h[b].q.sample.number == h[a].number
    ensures h[b] == Took(Checkpoint(SampleAt(h, a)))
  {
    CrashIsLegal(h, b);
    LegalIsSound(h[..b]);
    SamplePrefix(h, a, b);
    LastSampledPrefix(h, a, b);
    PendingSince(h[..b], a);
    TookPending(Fold(h[..b]), h[b].q.sample, SampleAt(h, a));
  }

  lemma {:induction false} ConfirmedWitness(h: seq<Event>, n: nat) returns (b: nat)
    requires Legal(h) && n in Fold(h).confirmed
    ensures b < |h| && h[b].Took? && h[b].q.Checkpoint? && h[b].q.sample.number == n
    ensures n !in Fold(h[..b]).confirmed
  {
    var g := h[..|h|-1];
    if n in Fold(g).confirmed {
      b := ConfirmedWitness(g, n);
      assert g[..b] == h[..b];
    } else {
      b := |g|;
    }
  }

  // What an event more leaves of it.
  lemma HandedOverStill(h: seq<Event>)
    requires |h| > 0 && HandedOverFor(h[..|h|-1])
    ensures HandedOverFor(h)
  {
    var g := h[..|h|-1];
    if i :| 0 <= i < |g| && g[i].Took? && (g[i].q.Submit? || g[i].q.Salvage?) {
      assert h[i] == g[i];
    } else {
      var a: nat, b: nat, c: nat :| WholeSampleHandedOver(g, a, b, c);
      assert g[..a] == h[..a];
      assert WholeSampleHandedOver(h, a, b, c);
    }
  }

  lemma {:induction false} HandedOverMeans(h: seq<Event>)
    requires Legal(h) && Disk(h).Some? && Disk(h).value.handedOver
    ensures HandedOverFor(h)
  {
    var g := h[..|h|-1];
    if Disk(g).Some? && Disk(g).value.handedOver {
      HandedOverMeans(g);
      HandedOverStill(h);
    } else {
      NewlyHandedOver(h);
    }
  }

  lemma NewlyHandedOver(h: seq<Event>)
    requires |h| > 0 && Legal(h) && h[|h|-1].Wrote? && h[|h|-1].entry.handedOver
    requires Disk(h[..|h|-1]).Some? && !Disk(h[..|h|-1]).value.handedOver
    ensures HandedOverFor(h)
  {
    var g, e := h[..|h|-1], h[|h|-1].entry;
    var s := Fold(g);
    MayPutMeans(s, e);
    var d := s.disk.value;
    if s.taken.submit {
      var i := TookWitness(g, Submit);
      assert h[i] == g[i];
    } else if s.taken.salvage {
      var i := TookWitness(g, Salvage(Result("", [], "")));
      assert h[i] == g[i];
    } else {
      SampleHandedOver(h, if d.phase.Restarted? then s.seen.whole.value else s.seen.wholeReport.value);
    }
  }

  lemma SampleWitness(h: seq<Event>, a: nat, b: nat, n: nat)
    requires |h| > 0 && h[|h|-1].Wrote? && h[|h|-1].entry.handedOver && a < b < |h| - 1
    requires WholeAt(h[..|h|-1], a, n) && h[..|h|-1][b] == Took(Checkpoint(SampleAt(h[..|h|-1], a)))
    ensures HandedOverFor(h)
  {
    WholeAtStill(h, a, n);
    SamplePrefix(h, a, |h| - 1);
    WholeHoldsAll(Fold(h[..a]).seen, h[a].number);
    assert WholeSampleHandedOver(h, a, b, |h| - 1);
  }

  lemma SampleHandedOver(h: seq<Event>, n: nat)
    requires |h| > 0 && Legal(h) && h[|h|-1].Wrote? && h[|h|-1].entry.handedOver
    requires var s := Fold(h[..|h|-1]); n in s.confirmed && (s.seen.whole == Some(n) || s.seen.wholeReport == Some(n))
    ensures HandedOverFor(h)
  {
    var g := h[..|h|-1];
    var a, b := SampleConfirmed(g, n);
    SampleWitness(h, a, b, n);
  }

  // The platform took the sample after it was put together: its number was new then.
  lemma SampleConfirmed(h: seq<Event>, n: nat) returns (a: nat, b: nat)
    requires Legal(h) && n in Fold(h).confirmed
    requires Fold(h).seen.whole == Some(n) || Fold(h).seen.wholeReport == Some(n)
    ensures a < b < |h| && WholeAt(h, a, n) && h[b] == Took(Checkpoint(SampleAt(h, a)))
  {
    a := WholeWitness(h, n);
    b := ConfirmedWitness(h, n);
    if b < a {
      NewNumber(h, a, b, n);
      assert false;
    }
    TookTheSample(h, a, b);
  }

  // A sample's number is new when it is put together: nothing confirmed has it.
  lemma NewNumber(h: seq<Event>, a: nat, b: nat, n: nat)
    requires Legal(h) && b < a < |h| && h[a] == Sampled(n)
    ensures !(h[b].Took? && h[b].q.Checkpoint? && h[b].q.sample.number == n)
  {
    CrashIsLegal(h, a);
    LegalIsSound(h[..a]);
    CrashIsLegal(h, b);
    Evolves(h, b + 1, a);
  }

  /** A workspace is emptied only if the platform took the attempt's submit, its
      salvage, or a sample this very process put together with every part in it. */
  lemma EmptiedOnlyHandedOver(h: seq<Event>, i: nat)
    requires Legal(h) && i < |h| && h[i].Swept?
    ensures HandedOverFor(h[..i]) && KnownGone(h[..i])
  {
    CrashIsLegal(h, i);
    HandedOverMeans(h[..i]);
    GoneMeans(h[..i]);
  }
}
