/** What several of the modules need. */
module Common {

  datatype Option<+T> = None | Some(value: T)

  // What is known of a process group: nobody looked, none of it is left, some of
  // it is, or that could not be told.
  datatype GroupState = NotLooked | Cleared | Remains | Unknown

  // White space of Unicode.
  predicate IsSpace(c: char) {
    var n := c as int;
    || 9 <= n <= 13 || n == 32 || n == 0x85 || n == 0xA0 || n == 0x1680 || 0x2000 <= n <= 0x200A
    || n == 0x2028 || n == 0x2029 || n == 0x202F || n == 0x205F || n == 0x3000
  }

  // Byte order of UTF-8 is the order of the characters.
  predicate Leq(s: string, t: string) {
    s == [] || (t != [] && (s[0] < t[0] || (s[0] == t[0] && Leq(s[1..], t[1..]))))
  }

  // s is less than t: it is the beginning of t, or has the smaller character where
  // they first differ.
  ghost predicate Less(s: string, t: string) {
    s < t || exists i :: 0 <= i < |s| && i < |t| && LessAt(s, t, i)
  }

  predicate LessAt(s: string, t: string, i: nat)
    requires i < |s| && i < |t|
  {
    s[..i] == t[..i] && s[i] < t[i]
  }

  lemma LessOn(s: string, t: string)
    requires s != [] && t != [] && s[0] == t[0]
    ensures Less(s, t) <==> Less(s[1..], t[1..])
  {
    assert s == [s[0]] + s[1..] && t == [t[0]] + t[1..];
    if i :| 0 <= i < |s| && i < |t| && LessAt(s, t, i) {
      assert s[1..][..i - 1] == s[1..i] == s[..i][1..] && t[1..][..i - 1] == t[1..i] == t[..i][1..];
      assert LessAt(s[1..], t[1..], i - 1);
    }
    if i :| 0 <= i < |s| - 1 && i < |t| - 1 && LessAt(s[1..], t[1..], i) {
      assert s[..i + 1] == [s[0]] + s[1..][..i] && t[..i + 1] == [t[0]] + t[1..][..i];
      assert LessAt(s, t, i + 1);
    }
  }

  lemma SameHead(s: string, t: string)
    requires s != [] && t != []
    ensures forall i :: 0 < i < |s| && i < |t| && LessAt(s, t, i) ==> s[0] == t[0]
  {
    forall i | 0 < i < |s| && i < |t| && LessAt(s, t, i) ensures s[0] == t[0] {
      assert s[..i][0] == s[0] && t[..i][0] == t[0];
    }
  }

  /** The order of strings: equal or less. */
  lemma {:induction false} LeqIs(s: string, t: string)
    ensures Leq(s, t) <==> s == t || Less(s, t)
  {
    if s != [] && t != [] && s[0] == t[0] {
      LessOn(s, t);
      LeqIs(s[1..], t[1..]);
      assert s == [s[0]] + s[1..] && t == [t[0]] + t[1..];
    } else if s != [] && t != [] {
      if s[0] < t[0] {
        assert LessAt(s, t, 0);
      }
      SameHead(s, t);
    }
  }
}
