/** Which lines are handed on, told by their places in the text. */
module Reading {

  import opened Lines

  // Places, one after the other, below n.
  ghost predicate Places(at: seq<nat>, n: nat) {
    (forall j :: 0 <= j < |at| ==> at[j] < n) && forall j, k :: 0 <= j < k < |at| ==> at[j] < at[k]
  }

  // t is s without the newlines and returns it ends with.
  ghost predicate CutsEnd(s: Bytes, t: Bytes) {
    && t <= s && (forall k :: |t| <= k < |s| ==> s[k] == NL || s[k] == CR)
    && (t != [] ==> t[|t| - 1] != NL && t[|t| - 1] != CR)
  }

  lemma {:induction false} TrimRightMeans(s: Bytes, t: Bytes)
    ensures CutsEnd(s, t) <==> t == TrimRight(s)
  {
    if s != [] && (s[|s| - 1] == NL || s[|s| - 1] == CR) {
      var front := s[..|s| - 1];
      TrimRightMeans(front, t);
      assert CutsEnd(s, t) ==> t != s;
      assert CutsEnd(s, t) <==> CutsEnd(front, t);
    } else {
      assert CutsEnd(s, s);
    }
  }

  // The lines handed on are those at these places, each without its end.
  ghost predicate HandedOn(ps: seq<Bytes>, at: seq<nat>, lines: seq<Bytes>) {
    Places(at, |ps|) && |lines| == |at| && forall j :: 0 <= j < |at| ==> CutsEnd(ps[at[j]], lines[j])
  }

  // The places of the lines that are not too long, and of those that are.
  ghost predicate AreShort(ps: seq<Bytes>, max: nat, at: seq<nat>) {
    forall i :: 0 <= i < |ps| ==> (|ps[i]| <= max <==> i in at)
  }

  ghost function LongPlaces(ps: seq<Bytes>, max: nat): set<nat> {
    set i | 0 <= i < |ps| && |ps[i]| > max
  }

  lemma PlacesMore(at: seq<nat>, n: nat)
    requires Places(at, n)
    ensures Places(at, n + 1) && Places(at + [n], n + 1)
  {
  }

  /** What the line reader hands on: each line that is not too long once, in order and
      without its end, and each other one counted. */
  lemma {:induction false} ShortMeans(ps: seq<Bytes>, max: nat) returns (at: seq<nat>)
    ensures HandedOn(ps, at, Short(ps, max)) && AreShort(ps, max, at)
    ensures Longer(ps, max) == |LongPlaces(ps, max)|
  {
    if ps == [] {
      at := [];
      assert LongPlaces(ps, max) == {};
    } else {
      var n := |ps| - 1;
      var front := ps[..n];
      var before := ShortMeans(front, max);
      at := if |ps[n]| <= max then before + [n] else before;
      TrimRightMeans(ps[n], TrimRight(ps[n]));
      HandedMore(ps, before, Short(front, max), TrimRight(ps[n]));
      ShortMore(ps, max, before);
      LongMore(ps, max);
    }
  }

  lemma HandedMore(ps: seq<Bytes>, at: seq<nat>, lines: seq<Bytes>, line: Bytes)
    requires ps != [] && HandedOn(ps[..|ps| - 1], at, lines) && CutsEnd(ps[|ps| - 1], line)
    ensures HandedOn(ps, at, lines) && HandedOn(ps, at + [|ps| - 1], lines + [line])
  {
    PlacesMore(at, |ps| - 1);
    forall j | 0 <= j < |at| ensures CutsEnd(ps[at[j]], lines[j]) {
      assert ps[at[j]] == ps[..|ps| - 1][at[j]];
    }
  }

  lemma ShortMore(ps: seq<Bytes>, max: nat, at: seq<nat>)
    requires ps != [] && Places(at, |ps| - 1) && AreShort(ps[..|ps| - 1], max, at)
    ensures AreShort(ps, max, if |ps[|ps| - 1]| <= max then at + [|ps| - 1] else at)
  {
    var n := |ps| - 1;
    forall i | 0 <= i < n ensures |ps[i]| <= max <==> i in at {
      assert ps[i] == ps[..n][i];
    }
  }

  lemma LongMore(ps: seq<Bytes>, max: nat)
    requires ps != []
    ensures |LongPlaces(ps, max)| == |LongPlaces(ps[..|ps| - 1], max)| + if |ps[|ps| - 1]| > max then 1 else 0
  {
    var n := |ps| - 1;
    assert LongPlaces(ps, max) == LongPlaces(ps[..n], max) + if |ps[n]| > max then {n} else {};
  }

  // The places of the ended lines that are not too long, their newline apart.
  ghost predicate AreEnded(ps: seq<Bytes>, max: nat, at: seq<nat>) {
    forall i :: 0 <= i < |ps| ==> (EndedWithin(ps[i], max) <==> i in at)
  }

  predicate EndedWithin(p: Bytes, max: nat) {
    0 < |p| <= max + 1 && p[|p| - 1] == NL && NoNL(p[..|p| - 1])
  }

  ghost predicate WithoutNL(ps: seq<Bytes>, at: seq<nat>, lines: seq<Bytes>) {
    Places(at, |ps|) && |lines| == |at| && forall j :: 0 <= j < |at| ==> ps[at[j]] == lines[j] + [NL]
  }

  /** What the log's tail hands on: each ended line that is not too long once, in order
      and without its newline. */
  lemma {:induction false} WholeMeans(ps: seq<Bytes>, max: nat) returns (at: seq<nat>)
    ensures WithoutNL(ps, at, WholeOf(ps, max)) && AreEnded(ps, max, at)
  {
    if ps == [] {
      at := [];
    } else {
      var n := |ps| - 1;
      var before := WholeMeans(ps[..n], max);
      at := if EndedWithin(ps[n], max) then before + [n] else before;
      EndedMore(ps, max, before);
      WholeMore(ps, max, before);
    }
  }

  lemma WholeMore(ps: seq<Bytes>, max: nat, at: seq<nat>)
    requires ps != [] && WithoutNL(ps[..|ps| - 1], at, WholeOf(ps[..|ps| - 1], max))
    ensures WithoutNL(ps, if EndedWithin(ps[|ps| - 1], max) then at + [|ps| - 1] else at, WholeOf(ps, max))
  {
    var p, lines := ps[|ps| - 1], WholeOf(ps[..|ps| - 1], max);
    if EndedWithin(p, max) {
      UncutMore(ps, at, lines, p[..|p| - 1]);
    } else {
      UncutStill(ps, at, lines);
      assert lines + [] == lines;
    }
  }

  lemma UncutStill(ps: seq<Bytes>, at: seq<nat>, lines: seq<Bytes>)
    requires ps != [] && WithoutNL(ps[..|ps| - 1], at, lines)
    ensures WithoutNL(ps, at, lines)
  {
    forall j | 0 <= j < |at| ensures ps[at[j]] == lines[j] + [NL] {
      assert ps[at[j]] == ps[..|ps| - 1][at[j]];
    }
  }

  lemma UncutMore(ps: seq<Bytes>, at: seq<nat>, lines: seq<Bytes>, line: Bytes)
    requires ps != [] && WithoutNL(ps[..|ps| - 1], at, lines) && ps[|ps| - 1] == line + [NL]
    ensures WithoutNL(ps, at + [|ps| - 1], lines + [line])
  {
    PlacesMore(at, |ps| - 1);
    UncutStill(ps, at, lines);
  }

  lemma EndedMore(ps: seq<Bytes>, max: nat, at: seq<nat>)
    requires ps != [] && Places(at, |ps| - 1) && AreEnded(ps[..|ps| - 1], max, at)
    ensures AreEnded(ps, max, if EndedWithin(ps[|ps| - 1], max) then at + [|ps| - 1] else at)
  {
    var n := |ps| - 1;
    forall i | 0 <= i < n ensures EndedWithin(ps[i], max) <==> i in at {
      assert ps[i] == ps[..n][i];
    }
  }

  // ---------- the queue ----------

  /** The newest of a queue are its last. */
  lemma NewestMeans<T>(s: seq<T>, n: nat, t: seq<T>)
    ensures t == Newest(s, n) <==> |t| == (if |s| < n then |s| else n) && exists older :: s == older + t
  {
    if t == Newest(s, n) {
      assert s == s[..|s| - |t|] + t;
    }
    if older :| s == older + t {
      assert t == s[|s| - |t|..];
    }
  }

  // The size of targets, one by one.
  lemma SizeMeans(s: seq<Action>, a: Action)
    ensures Size(s + [a]) == Size(s) + |a.target|
  {
    SizeOf(s, [a]);
  }

  /** The actions taken are the last of the queue that fit, and one more would be too
      many or too large. */
  lemma LongestFitMeans(all: seq<Action>, max: nat, limit: nat, out: seq<Action>, older: seq<Action>)
    requires LongestFit(all, max, limit, out) && all == older + out
    ensures Size(out) <= limit
    ensures older != [] && |out| < max ==> |older[|older| - 1].target| + Size(out) > limit
  {
    if older != [] && |out| < max {
      var a := older[|older| - 1];
      assert Newest(all, |out| + 1) == [a] + out;
      SizeOf([a], out);
      SizeMeans([], a);
      assert [] + [a] == [a];
    }
  }
}
