/** Reading lines that come in pieces: a log's tail, read while it
    grows, and the line reader that bounds a line. Both hand on the lines of
    the whole text, however the reads cut it. */
module Lines {

  newtype byte = x: int | 0 <= x < 256

  const NL: byte := 10
  const CR: byte := 13

  type Bytes = seq<byte>

  predicate NoNL(s: Bytes) {
    forall i :: 0 <= i < |s| ==> s[i] != NL
  }

  // ---------- the lines of a text ----------

  // The index of the first newline, |s| when there is none.
  function IndexNL(s: Bytes): (i: nat)
    ensures i <= |s| && (i < |s| ==> s[i] == NL)
  {
    if |s| == 0 || s[0] == NL then 0 else 1 + IndexNL(s[1..])
  }

  lemma {:induction false} NoneBefore(s: Bytes)
    ensures NoNL(s[..IndexNL(s)])
  {
    if |s| > 0 && s[0] != NL {
      NoneBefore(s[1..]);
      assert s[..IndexNL(s)] == [s[0]] + s[1..][..IndexNL(s[1..])];
    }
  }

  // The text cut after each newline; a last line without one is a piece too.
  function Pieces(s: Bytes): seq<Bytes> {
    if s == [] then []
    else
      var i := IndexNL(s);
      if i == |s| then [s] else [s[..i + 1]] + Pieces(s[i + 1..])
  }

  function Concat(ps: seq<Bytes>): Bytes {
    if ps == [] then [] else ps[0] + Concat(ps[1..])
  }

  // Ended by its only newline.
  predicate Ended(p: Bytes) {
    |p| > 0 && p[|p|-1] == NL && NoNL(p[..|p|-1])
  }

  // ps are lines, the last one perhaps unended.
  predicate AreLines(ps: seq<Bytes>) {
    forall i :: 0 <= i < |ps| ==> Ended(ps[i]) || (i == |ps| - 1 && ps[i] != [] && NoNL(ps[i]))
  }

  lemma LinesBefore(p: Bytes, ps: seq<Bytes>)
    requires Ended(p) && AreLines(ps)
    ensures AreLines([p] + ps)
  {
    forall i | 0 <= i < |ps| + 1
      ensures Ended(([p] + ps)[i]) || (i == |ps| && ([p] + ps)[i] != [] && NoNL(([p] + ps)[i]))
    {
      assert i > 0 ==> ([p] + ps)[i] == ps[i - 1];
    }
  }

  lemma {:induction false} IndexOfFirst(s: Bytes, i: nat)
    requires i < |s| && s[i] == NL && NoNL(s[..i])
    ensures IndexNL(s) == i
  {
    if i > 0 {
      assert s[..i] == [s[0]] + s[1..][..i - 1];
      IndexOfFirst(s[1..], i - 1);
    }
  }

  /** A text has one cut into lines. */
  lemma {:induction false} OneCut(ps: seq<Bytes>)
    requires AreLines(ps)
    ensures Pieces(Concat(ps)) == ps
  {
    if ps != [] {
      var p, s := ps[0], Concat(ps);
      assert AreLines(ps[1..]);
      OneCut(ps[1..]);
      if Ended(p) {
        assert s[..|p|-1] == p[..|p|-1] && s[|p|-1] == NL;
        IndexOfFirst(s, |p| - 1);
        assert s[..|p|] == p && s[|p|..] == Concat(ps[1..]);
      } else {
        assert ps[1..] == [] && s == p;
      }
    }
  }

  lemma Associates(a: Bytes, b: Bytes, c: Bytes)
    ensures (a + b) + c == a + (b + c)
  {
  }

  lemma PiecesFirst(first: Bytes, rest: Bytes)
    requires Ended(first)
    ensures Pieces(first + rest) == [first] + Pieces(rest)
  {
    var s := first + rest;
    assert s[..|first|-1] == first[..|first|-1];
    IndexOfFirst(s, |first| - 1);
    assert s[..|first|] == first && s[|first|..] == rest;
  }

  // A text with a newline is its first line and the rest of it.
  lemma FirstLine(s: Bytes) returns (first: Bytes, rest: Bytes)
    requires IndexNL(s) < |s|
    ensures s == first + rest && Ended(first)
  {
    var i := IndexNL(s);
    NoneBefore(s);
    first, rest := s[..i + 1], s[i + 1..];
    assert first[..|first|-1] == s[..i];
  }

  lemma EndedHasLine(s: Bytes)
    requires s != [] && s[|s|-1] == NL
    ensures IndexNL(s) < |s|
  {
    NoneBefore(s);
    assert s[..|s|] == s;
  }

  lemma {:induction false} PiecesAreLines(s: Bytes)
    ensures AreLines(Pieces(s)) && Concat(Pieces(s)) == s
    decreases |s|
  {
    if IndexNL(s) < |s| {
      var first, rest := FirstLine(s);
      PiecesFirst(first, rest);
      PiecesAreLines(rest);
      LinesBefore(first, Pieces(rest));
      assert ([first] + Pieces(rest))[1..] == Pieces(rest);
    } else if s != [] {
      NoneBefore(s);
      assert s[..|s|] == s;
      assert Concat([s]) == s + [] == s;
    }
  }

  lemma EndedRest(first: Bytes, rest: Bytes)
    requires first + rest != [] && (first + rest)[|first + rest|-1] == NL
    ensures rest == [] || rest[|rest|-1] == NL
  {
  }

  // What is done stays done: the pieces of an ended text and what follows it.
  lemma {:induction false} PiecesOf(done: Bytes, more: Bytes)
    requires done == [] || done[|done|-1] == NL
    ensures Pieces(done + more) == Pieces(done) + Pieces(more)
    decreases |done|
  {
    if done == [] {
      assert done + more == more;
    } else {
      EndedHasLine(done);
      var first, rest := FirstLine(done);
      EndedRest(first, rest);
      PiecesFirst(first, rest);
      PiecesOf(rest, more);
      PiecesFirst(first, rest + more);
      Associates(first, rest, more);
      PiecesJoin(first, Pieces(rest), Pieces(more));
    }
  }

  lemma PiecesJoin(p: Bytes, a: seq<Bytes>, b: seq<Bytes>)
    ensures [p] + (a + b) == ([p] + a) + b
  {
  }

  lemma OnePiece(p: Bytes)
    requires Ended(p) || (p != [] && NoNL(p))
    ensures Pieces(p) == [p]
  {
    assert AreLines([p]);
    assert Concat([p]) == p + [] == p;
    OneCut([p]);
  }

  lemma NextLine(done: Bytes, p: Bytes)
    requires done == [] || done[|done|-1] == NL
    requires Ended(p) || (p != [] && NoNL(p))
    ensures Pieces(done + p) == Pieces(done) + [p]
  {
    PiecesOf(done, p);
    OnePiece(p);
  }

  // ---------- the line reader ----------

  function TrimRight(s: Bytes): Bytes {
    if s != [] && (s[|s|-1] == NL || s[|s|-1] == CR) then TrimRight(s[..|s|-1]) else s
  }

  // The lines of at most max bytes, their newline among them, without their end.
  function Short(ps: seq<Bytes>, max: nat): seq<Bytes> {
    if ps == [] then []
    else
      var p := ps[|ps|-1];
      Short(ps[..|ps|-1], max) + if |p| <= max then [TrimRight(p)] else []
  }

  // How many lines are longer than that.
  function Longer(ps: seq<Bytes>, max: nat): nat {
    if ps == [] then 0 else Longer(ps[..|ps|-1], max) + if |ps[|ps|-1]| > max then 1 else 0
  }

  lemma OneMore(ps: seq<Bytes>, p: Bytes, max: nat)
    ensures Short(ps + [p], max) == Short(ps, max) + if |p| <= max then [TrimRight(p)] else []
    ensures Longer(ps + [p], max) == Longer(ps, max) + if |p| > max then 1 else 0
  {
    assert (ps + [p])[..|ps|] == ps;
  }

  // What the line cur, ended or the last, adds to what is done.
  lemma LineDone(done: Bytes, cur: Bytes, max: nat)
    requires (done == [] || done[|done|-1] == NL) && (Ended(cur) || NoNL(cur))
    ensures Short(Pieces(done + cur), max) ==
            Short(Pieces(done), max) + if cur != [] && |cur| <= max then [TrimRight(cur)] else []
    ensures Longer(Pieces(done + cur), max) == Longer(Pieces(done), max) + if |cur| > max then 1 else 0
  {
    if cur == [] {
      assert done + cur == done;
    } else {
      NextLine(done, cur);
      OneMore(Pieces(done), cur, max);
    }
  }

  lemma Grown(cur: Bytes, chunk: Bytes)
    requires NoNL(cur)
    ensures NoNL(chunk) ==> NoNL(cur + chunk)
    ensures Ended(chunk) ==> Ended(cur + chunk)
  {
    if Ended(chunk) {
      assert (cur + chunk)[..|cur + chunk|-1] == cur + chunk[..|chunk|-1];
    }
  }

  // How a read of a buffered reader ended: at a newline, its buffer full, at the
  // end of the text, or failing.
  datatype End = AtNewline | BufferFull | AtEnd | Broken

  datatype Slice = Slice(bytes: Bytes, end: End)

  predicate Reads(rs: seq<Slice>) {
    && |rs| > 0
    && (forall i :: 0 <= i < |rs| ==> if rs[i].end.AtNewline? then Ended(rs[i].bytes) else NoNL(rs[i].bytes))
    && (forall i :: 0 <= i < |rs| ==> ((rs[i].end.AtEnd? || rs[i].end.Broken?) <==> i == |rs| - 1))
  }

  function Text(rs: seq<Slice>): Bytes {
    if rs == [] then [] else Text(rs[..|rs|-1]) + rs[|rs|-1].bytes
  }

  // After the first i reads: the text is the ended lines done and cur, of which
  // lines and overs are the calls so far. (Opened by UptoMeans only, to keep the
  // loop's proof small.)
  ghost predicate Upto(rs: seq<Slice>, i: nat, max: nat, done: Bytes, cur: Bytes, lines: seq<Bytes>, overs: nat) {
    forall u: int {:trigger AsksUpto(rs, i, max, done, cur, lines, overs, u)} :: AsksUpto(rs, i, max, done, cur, lines, overs, u) ==>
      && i <= |rs| && Text(rs[..i]) == done + cur
      && (done == [] || done[|done|-1] == NL) && NoNL(cur)
      && lines == Short(Pieces(done), max) && overs == Longer(Pieces(done), max)
  }

  ghost predicate AsksUpto(rs: seq<Slice>, i: nat, max: nat, done: Bytes, cur: Bytes, lines: seq<Bytes>, overs: nat, u: int) { true }

  lemma UptoMeans(rs: seq<Slice>, i: nat, max: nat, done: Bytes, cur: Bytes, lines: seq<Bytes>, overs: nat)
    requires Upto(rs, i, max, done, cur, lines, overs)
    ensures i <= |rs| && Text(rs[..i]) == done + cur
    ensures (done == [] || done[|done|-1] == NL) && NoNL(cur)
    ensures lines == Short(Pieces(done), max) && overs == Longer(Pieces(done), max)
  {
    assert AsksUpto(rs, i, max, done, cur, lines, overs, 0);
  }

  lemma TextNext(rs: seq<Slice>, i: nat, done: Bytes, cur: Bytes)
    requires i < |rs| && Text(rs[..i]) == done + cur
    ensures Text(rs[..i + 1]) == done + (cur + rs[i].bytes)
  {
    assert rs[..i + 1][..i] == rs[..i];
    Associates(done, cur, rs[i].bytes);
  }

  lemma ReadMore(rs: seq<Slice>, i: nat, max: nat, done: Bytes, cur: Bytes, lines: seq<Bytes>, overs: nat)
    requires Reads(rs) && i < |rs| && Upto(rs, i, max, done, cur, lines, overs) && rs[i].end.BufferFull?
    ensures Upto(rs, i + 1, max, done, cur + rs[i].bytes, lines, overs)
  {
    UptoMeans(rs, i, max, done, cur, lines, overs);
    Grown(cur, rs[i].bytes);
    TextNext(rs, i, done, cur);
  }

  // The calls once the line is there.
  function LinesAfter(lines: seq<Bytes>, line: Bytes, max: nat): seq<Bytes> {
    if line != [] && |line| <= max then lines + [TrimRight(line)] else lines
  }

  // The line that the read at i ends.
  lemma ReadLine(rs: seq<Slice>, i: nat, max: nat, done: Bytes, cur: Bytes, lines: seq<Bytes>, overs: nat)
    requires Reads(rs) && i < |rs| && Upto(rs, i, max, done, cur, lines, overs) && !rs[i].end.BufferFull?
    ensures var line := cur + rs[i].bytes;
            var lines1, overs1 := LinesAfter(lines, line, max), overs + if |line| > max then 1 else 0;
            if rs[i].end.AtNewline? then i + 1 < |rs| && Upto(rs, i + 1, max, done + line, [], lines1, overs1)
            else lines1 == Short(Pieces(Text(rs)), max) && overs1 == Longer(Pieces(Text(rs)), max)
  {
    UptoMeans(rs, i, max, done, cur, lines, overs);
    Grown(cur, rs[i].bytes);
    LineDone(done, cur + rs[i].bytes, max);
    TextNext(rs, i, done, cur);
    if rs[i].end.AtNewline? {
      NextUpto(rs, i + 1, max, done + (cur + rs[i].bytes), LinesAfter(lines, cur + rs[i].bytes, max),
               overs + if |cur + rs[i].bytes| > max then 1 else 0);
    } else {
      assert rs[..i + 1] == rs;
    }
  }

  lemma NextUpto(rs: seq<Slice>, i: nat, max: nat, done: Bytes, lines: seq<Bytes>, overs: nat)
    requires i <= |rs| && Text(rs[..i]) == done && done != [] && done[|done|-1] == NL
    requires lines == Short(Pieces(done), max) && overs == Longer(Pieces(done), max)
    ensures Upto(rs, i, max, done, [], lines, overs)
  {
    assert done + [] == done;
  }

  // A read more of the line, kept while it is not too long.
  method Extend(line: Bytes, skip: bool, chunk: Bytes, max: nat, ghost cur: Bytes) returns (line1: Bytes, skip1: bool)
    requires skip == (|cur| > max) && line == if skip then [] else cur
    ensures skip1 == (|cur + chunk| > max) && line1 == if skip1 then [] else cur + chunk
  {
    line1, skip1 := line, skip;
    if !skip {
      if |line| + |chunk| > max {
        skip1, line1 := true, [];
      } else {
        line1 := line + chunk;
      }
    }
  }

  /** Calls fn with each line up to max bytes long and over for each longer one;
      `lines` and `overs` are those calls. */
  method EachLineOr(rs: seq<Slice>, max: nat) returns (lines: seq<Bytes>, overs: nat, failed: bool)
    requires Reads(rs)
    ensures lines == Short(Pieces(Text(rs)), max)
    ensures overs == Longer(Pieces(Text(rs)), max)
    ensures failed <==> rs[|rs|-1].end.Broken?
  {
    lines, overs, failed := [], 0, false;
    var line: Bytes, skip := [], false;
    ghost var done: Bytes, cur: Bytes := [], [];
    var i := 0;
    while true
      invariant 0 <= i < |rs| && Upto(rs, i, max, done, cur, lines, overs)
      invariant skip == (|cur| > max) && line == if skip then [] else cur
      decreases |rs| - i
    {
      line, skip := Extend(line, skip, rs[i].bytes, max, cur);
      if rs[i].end.BufferFull? {
        ReadMore(rs, i, max, done, cur, lines, overs);
        i, cur := i + 1, cur + rs[i].bytes;
        continue;
      }
      ReadLine(rs, i, max, done, cur, lines, overs);
      if !skip && |line| > 0 {
        lines := lines + [TrimRight(line)];
      }
      if skip {
        overs := overs + 1;
      }
      done, cur := done + (cur + rs[i].bytes), [];
      line, skip := [], false;
      if rs[i].end.AtEnd? {
        return;
      }
      if rs[i].end.Broken? {
        failed := true;
        return;
      }
      i := i + 1;
    }
  }

  // ---------- the log's tail ----------

  // The lines of at most max bytes a text has ended, newlines apart.
  function Whole(s: Bytes, max: nat): seq<Bytes> {
    WholeOf(Pieces(s), max)
  }

  function WholeOf(ps: seq<Bytes>, max: nat): seq<Bytes> {
    if ps == [] then []
    else
      var p := ps[|ps|-1];
      WholeOf(ps[..|ps|-1], max) + if Ended(p) && |p| - 1 <= max then [p[..|p|-1]] else []
  }

  lemma OneMoreWhole(ps: seq<Bytes>, p: Bytes, max: nat)
    ensures WholeOf(ps + [p], max) == WholeOf(ps, max) + if Ended(p) && |p| - 1 <= max then [p[..|p|-1]] else []
  {
    assert (ps + [p])[..|ps|] == ps;
  }

  lemma CutAt(d: Bytes, c: Bytes, rest: Bytes, i: nat)
    requires i < |rest| && rest[i] == NL
    ensures d + c + rest == d + (c + rest[..i] + [NL]) + [] + rest[i + 1..]
  {
  }

  // What the text says after its last newline.
  function Unended(s: Bytes): (r: Bytes) {
    if s == [] || s[|s|-1] == NL then [] else Unended(s[..|s|-1]) + [s[|s|-1]]
  }

  lemma {:induction false} CutUnended(s: Bytes) returns (done: Bytes)
    ensures s == done + Unended(s) && (done == [] || done[|done|-1] == NL) && NoNL(Unended(s))
  {
    if s == [] || s[|s|-1] == NL {
      done := s;
    } else {
      done := CutUnended(s[..|s|-1]);
      assert s == s[..|s|-1] + [s[|s|-1]];
    }
  }

  lemma {:induction false} UnendedIs(done: Bytes, cur: Bytes)
    requires (done == [] || done[|done|-1] == NL) && NoNL(cur)
    ensures Unended(done + cur) == cur
  {
    if cur == [] {
      assert done + cur == done;
    } else {
      UnendedIs(done, cur[..|cur|-1]);
      assert (done + cur)[..|done + cur|-1] == done + cur[..|cur|-1];
    }
  }

  lemma NextRead(seen: Bytes, log: Bytes, n: nat)
    requires seen <= log && |seen| <= n <= |log|
    ensures seen + log[|seen|..n] == log[..n]
  {
  }

  // An action found in the log: its target's size is what matters here.
  datatype Action = Action(kind: string, target: string, cut: bool)

  class ActionTail {
    const maxBody: nat
    const maxReadAtOne: nat
    const maxPending: nat
    const maxBatchBytes: nat

    var off: nat
    var partial: Bytes
    var skip: bool
    var lines: seq<Bytes>   // what the parser was handed
    var pending: seq<Action>
    ghost var seen: Bytes   // all that was read
    ghost var added: seq<Action> // all that was added since the last take

    // The log is read up to off, and what it says there handed on.
    ghost predicate Tailing()
      reads this`off, this`partial, this`skip, this`lines, this`seen
    {
      && off == |seen|
      && lines == Whole(seen, maxBody)
      && skip == (|Unended(seen)| > maxBody)
      && partial == (if skip then [] else Unended(seen))
    }

    ghost predicate Queued()
      reads this`pending, this`added
    {
      pending == Newest(added, maxPending)
    }

    ghost predicate Valid()
      reads this
    {
      Tailing() && Queued()
    }

    constructor (maxBody: nat, maxReadAtOne: nat, maxPending: nat, maxBatchBytes: nat)
      ensures Valid() && seen == [] && added == []
    {
      this.maxBody, this.maxReadAtOne, this.maxPending, this.maxBatchBytes := maxBody, maxReadAtOne, maxPending, maxBatchBytes;
      off, partial, skip, lines, pending, seen, added := 0, [], false, [], [], [], [];
    }

    /** Reads what the log gained, at most maxReadAtOne of it: the lines handed on
        are those of all that was read, whatever the reads before were. */
    method Read(log: Bytes)
      requires Valid() && seen <= log
      modifies this`off, this`partial, this`skip, this`lines, this`seen
      ensures Valid() && old(lines) <= lines && |partial| <= maxBody
      ensures seen == log[..if |log| - |old(seen)| < maxReadAtOne then |log| else |old(seen)| + maxReadAtOne]
    {
      var n := if |log| - off < maxReadAtOne then |log| else off + maxReadAtOne;
      NextRead(seen, log, n);
      Gain(log[off..n]);
    }

    // What was read, from where the log was read up to.
    method Gain(buf: Bytes)
      requires Valid()
      modifies this`off, this`partial, this`skip, this`lines, this`seen
      ensures Valid() && old(lines) <= lines && |partial| <= maxBody && seen == old(seen) + buf
    {
      ghost var done, cur := HoldsNow();
      off, seen := off + |buf|, seen + buf;
      Take(buf, done, cur);
    }

    lemma HoldsNow() returns (done: Bytes, cur: Bytes)
      requires Tailing()
      ensures Holds(done, cur) && seen == done + cur
    {
      cur := Unended(seen);
      done := CutUnended(seen);
      LinesOf(done, cur, maxBody);
    }

    // done is ended lines, cur the line begun since.
    ghost predicate Holds(done: Bytes, cur: Bytes)
      reads this
    {
      && (done == [] || done[|done|-1] == NL) && NoNL(cur)
      && lines == Whole(done, maxBody)
      && skip == (|cur| > maxBody) && partial == (if skip then [] else cur)
    }

    // The loop over what was read.
    method Take(buf: Bytes, ghost done: Bytes, ghost cur: Bytes)
      requires Holds(done, cur) && seen == done + cur + buf && off == |seen|
      modifies this`partial, this`skip, this`lines
      ensures Tailing() && old(lines) <= lines && |partial| <= maxBody
    {
      var rest := buf;
      ghost var d, c := done, cur;
      while |rest| > 0
        invariant seen == d + c + rest
        invariant Holds(d, c) && old(lines) <= lines
      {
        var i := IndexNL(rest);
        NoneBefore(rest);
        if i == |rest| {
          assert rest[..i] == rest;
          TakeRest(rest, d, c);
          c, rest := c + rest, [];
          break;
        }
        TakeLine(rest[..i], d, c);
        CutAt(d, c, rest, i);
        d, c, rest := d + (c + rest[..i] + [NL]), [], rest[i + 1..];
      }
      assert d + c + [] == d + c;
      HoldsIsTailing(d, c);
    }

    lemma HoldsIsTailing(done: Bytes, cur: Bytes)
      requires Holds(done, cur) && seen == done + cur && off == |seen|
      ensures Tailing() && |partial| <= maxBody
    {
      LinesOf(done, cur, maxBody);
      UnendedIs(done, cur);
    }

    method TakeRest(rest: Bytes, ghost done: Bytes, ghost cur: Bytes)
      requires Holds(done, cur) && NoNL(rest)
      modifies this`partial, this`skip
      ensures Holds(done, cur + rest)
    {
      if !skip {
        partial := partial + rest;
        if |partial| > maxBody {
          partial, skip := [], true;
        }
      }
    }

    method TakeLine(ended: Bytes, ghost done: Bytes, ghost cur: Bytes)
      requires Holds(done, cur) && NoNL(ended)
      modifies this`partial, this`skip, this`lines
      ensures Holds(done + (cur + ended + [NL]), []) && old(lines) <= lines
    {
      NextWhole(done, cur + ended, maxBody);
      assert cur == [] ==> cur + ended == ended;
      if skip {
        skip := false;
        return;
      }
      var line := ended;
      if |partial| > 0 {
        line := partial + line;
        partial := [];
      }
      if |line| > maxBody {
        return;
      }
      lines := lines + [line];
    }

    /** Queues an action, keeping the newest maxPending. */
    method AddClean(a: Action)
      requires Valid()
      modifies this`pending, this`added
      ensures Valid() && added == if a.target == "" then old(added) else old(added) + [a]
    {
      if a.target == "" {
        return;
      }
      NewestMore(added, a, maxPending);
      added := added + [a];
      pending := pending + [a];
      if |pending| > maxPending {
        pending := pending[|pending| - maxPending..];
      }
    }

    /** Empties the queue, and hands on the longest run up to its end that has no more
        than max actions and whose targets fit in maxBatchBytes. */
    method TakeActions(max: nat) returns (out: seq<Action>)
      requires Valid()
      modifies this`pending, this`added
      ensures Valid() && added == [] && pending == []
      ensures |out| <= max && LongestFit(old(pending), max, maxBatchBytes, out)
    {
      var n := if |pending| > max then max else |pending|;
      out := Fit(pending, n);
      pending, added := [], [];
    }

    method Fit(all: seq<Action>, n: nat) returns (out: seq<Action>)
      requires n <= |all|
      ensures |out| <= n && LongestFit(all, n, maxBatchBytes, out)
    {
      out := all[|all| - n..];
      var size, i := 0, n;
      while i > 0
        invariant 0 <= i <= n
        invariant size == Size(out[i..]) <= maxBatchBytes
      {
        i := i - 1;
        size := size + |out[i].target|;
        assert out[i..][1..] == out[i + 1..];
        if size > maxBatchBytes {
          TooLarge(all, n, i, maxBatchBytes);
          assert out[i + 1..] == all[|all| - (n - i - 1)..];
          return out[i + 1..];
        }
      }
      assert out[0..] == out;
    }
  }

  // out is the longest run of the newest, of at most max, that fits the limit.
  predicate LongestFit(all: seq<Action>, max: nat, limit: nat, out: seq<Action>) {
    && |out| <= |all| && out == all[|all| - |out|..] && Size(out) <= limit
    && forall k :: |out| < k <= |all| && k <= max ==> Size(Newest(all, k)) > limit
  }

  function Newest<T>(s: seq<T>, n: nat): seq<T> {
    if |s| <= n then s else s[|s| - n..]
  }

  function Size(s: seq<Action>): nat {
    if s == [] then 0 else |s[0].target| + Size(s[1..])
  }

  lemma {:induction false} SizeOf(s: seq<Action>, t: seq<Action>)
    ensures Size(s + t) == Size(s) + Size(t)
  {
    if s == [] {
      assert s + t == t;
    } else {
      assert (s + t)[1..] == s[1..] + t;
      SizeOf(s[1..], t);
    }
  }

  // The newest n of all, from i on, are too large: so is any longer run of them.
  lemma TooLarge(all: seq<Action>, n: nat, i: nat, limit: nat)
    requires i <= n <= |all| && Size(Newest(all, n)[i..]) > limit
    ensures forall k :: n - i <= k <= n ==> Size(Newest(all, k)) > limit
  {
    var out := Newest(all, n);
    forall k | n - i <= k <= n ensures Size(Newest(all, k)) > limit {
      assert Newest(all, k) == out[n - k..i] + out[i..];
      SizeOf(out[n - k..i], out[i..]);
    }
  }

  lemma NewestMore<T>(s: seq<T>, a: T, n: nat)
    ensures Newest(s + [a], n) == Newest(Newest(s, n) + [a], n)
  {
  }

  // An unended last line is no line yet.
  lemma LinesOf(done: Bytes, cur: Bytes, max: nat)
    requires (done == [] || done[|done|-1] == NL) && NoNL(cur)
    ensures Whole(done + cur, max) == Whole(done, max)
  {
    if cur == [] {
      assert done + cur == done;
    } else {
      NextLine(done, cur);
      OneMoreWhole(Pieces(done), cur, max);
    }
  }

  lemma NextWhole(done: Bytes, line: Bytes, max: nat)
    requires (done == [] || done[|done|-1] == NL) && NoNL(line)
    ensures Whole(done + (line + [NL]), max) == Whole(done, max) + if |line| <= max then [line] else []
  {
    var p := line + [NL];
    assert p[..|p|-1] == line && Ended(p);
    NextLine(done, p);
    OneMoreWhole(Pieces(done), p, max);
  }
}
