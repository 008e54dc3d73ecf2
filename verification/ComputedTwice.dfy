/** When the platform can be told two conclusions of one executor. */
module ComputedTwice {
  import opened Common
  import opened Journal
  import opened JournalSafety
  import opened Runs
  import opened Steps

  // Two computed requests of an attempt with this claim, the first with this conclusion.
  ghost predicate ComputesTwice(h: seq<Event>, i: nat, j: nat, claim: Claim, conclusion: Conclusion) {
    && Legal(h) && i <= j < |h|
    && h[i].Sent? && h[i].q.Compute? && h[i].q.conclusion == conclusion && h[j].Sent? && h[j].q.Compute?
    && Disk(h[..i]).Some? && Disk(h[..i]).value.claim == claim
  }

  // The platform takes a computed request that says done, and its answer is lost.
  lemma ToldDone(claim: Claim) returns (t: Run)
    requires claim.Launches() && !claim.based
    ensures Going(t) && t.s.disk == Some(Finished(claim))
    ensures |t.h| >= 2 && t.h[|t.h|-2] == Sent(Compute(Some(0), Exit, Done)) && t.h[|t.h|-1] == Took(Compute(Some(0), Exit, Done))
  {
    var finished := Finishes(claim);
    t := Takes(finished, Compute(Some(0), Exit, Done));
  }

  // The next process takes the workspace for a checkout; what it finds is not allowed.
  lemma CheckedAnew(r: Run, claim: Claim) returns (t: Run)
    requires Going(r) && r.s.disk == Some(Finished(claim)) && claim.repo && !claim.branch
    ensures Going(t) && r.h <= t.h && t.s.disk == Some(WithCheck(Finished(claim), true, false))
  {
    var d := Finished(claim);
    var again := Reopens(r, d);
    var inspected := Then(again, Inspected(true, false));
    InspectedThen(again.s, true, false);
    Goes(again, Inspected(true, false));
    KeptEntry(inspected.h, inspected.s, inspected.checkout, Anything);
    InspectedFollows(inspected.s, d, WithCheck(d, true, false), true, false);
    t := Writes(inspected, d, WithCheck(d, true, false));
  }

  /** A run without a checkout whose takeover looks for one: the platform takes that it
      is done, and then that it failed. */
  lemma DoneThenFailed(claim: Claim) returns (h: seq<Event>, i: nat)
    requires claim.repo && !claim.based && !claim.branch
    ensures i + 1 < |h| - 2 && ComputesTwice(h, i, |h| - 2, claim, Done)
    ensures h[i + 1] == Took(h[i].q) && h[|h|-1] == Took(h[|h|-2].q) && h[|h|-2].q.conclusion == Failed
  {
    var told := ToldDone(claim);
    i := |told.h| - 2;
    h := ToldFailed(told, claim);
    AsTold(told.h, h, i);
    AsTold(told.h, h, i + 1);
    ClaimAt(h, i, told, claim);
  }

  lemma ToldFailed(told: Run, claim: Claim) returns (h: seq<Event>)
    requires Going(told) && told.s.disk == Some(Finished(claim)) && claim.repo && !claim.branch
    ensures Legal(h) && told.h <= h && |h| >= |told.h| + 2
    ensures h[|h|-2] == Sent(Compute(Some(0), Exit, Failed)) && h[|h|-1] == Took(Compute(Some(0), Exit, Failed))
  {
    var checked := CheckedAnew(told, claim);
    var again := Takes(checked, Compute(Some(0), Exit, Failed));
    RunIsLegal(again);
    h := again.h;
  }

  lemma AsTold(told: seq<Event>, h: seq<Event>, i: nat)
    requires told <= h && i < |told|
    ensures h[i] == told[i]
  {
  }

  // The claim is the one the registry's entry has later.
  lemma ClaimAt(h: seq<Event>, i: nat, r: Run, claim: Claim)
    requires Legal(h) && Going(r) && r.h <= h && i < |r.h| && r.s.disk.Some? && r.s.disk.value.claim == claim
    requires h[i].Sent? && h[i].q.Compute?
    ensures Disk(h[..i]).Some? && Disk(h[..i]).value.claim == claim
  {
    KeptMeans(r.h, r.s, r.checkout, Anything);
    assert h[..|r.h|] == r.h;
    ComputedAt(h, i);
    Evolves(h, i, |r.h|);
  }

  /** Whatever the run, the platform is told one conclusion of an attempt with this claim
      that was told this one first, exactly unless the claim names a repository, there is
      no base commit to make a checkout of, no branch to push, and it was done. */
  lemma ComputedTheSameIff(claim: Claim, conclusion: Conclusion)
    ensures (forall h: seq<Event>, i: nat, j: nat :: ComputesTwice(h, i, j, claim, conclusion) ==> SameComputed(h[i].q, h[j].q))
            <==> !Recounts(claim, conclusion)
  {
    if Recounts(claim, conclusion) {
      var h, i := DoneThenFailed(claim);
      assert ComputesTwice(h, i, |h| - 2, claim, conclusion) && !SameComputed(h[i].q, h[|h|-2].q);
    } else {
      forall h: seq<Event>, i: nat, j: nat | ComputesTwice(h, i, j, claim, conclusion) ensures SameComputed(h[i].q, h[j].q) {
        ComputedTheSame(h, i, j);
      }
    }
  }
}
