/** The canonical JSON of an action's parameters (the text their hash is taken of),
    and a reader that gets the parameters back from it. */
module CanonicalJson {

  import opened Common

  /** A parameter value as Go holds it. Strings and StringMap are its typed slice
      and map of strings, which a value read back from JSON never is. */
  datatype Value =
    | Null
    | Bool(b: bool)
    | Int(n: int)
    | Str(s: string)
    | List(items: seq<Value>)
    | Object(fields: map<string, Value>)
    | Strings(ss: seq<string>)
    | StringMap(sm: map<string, string>)

  // The value as JSON decodes it.
  function Plain(v: Value): Value {
    match v
    case List(items) => List(seq(|items|, i requires 0 <= i < |items| => Plain(items[i])))
    case Object(fields) => Object(map k | k in fields :: Plain(fields[k]))
    case Strings(ss) => List(ListOf(ss))
    case StringMap(sm) => Object(MapOf(sm))
    case _ => v
  }

  function ListOf(ss: seq<string>): seq<Value> {
    seq(|ss|, i requires 0 <= i < |ss| => Str(ss[i]))
  }

  function MapOf(sm: map<string, string>): map<string, Value> {
    map k | k in sm :: Str(sm[k])
  }

  // ---------- the order of keys ----------

  lemma {:induction false} LeqTotal(s: string, t: string)
    ensures Leq(s, t) || Leq(t, s)
    ensures Leq(s, t) && Leq(t, s) ==> s == t
  {
    if s != [] && t != [] {
      LeqTotal(s[1..], t[1..]);
      assert s == [s[0]] + s[1..] && t == [t[0]] + t[1..];
    }
  }

  lemma {:induction false} LeqTransitive(s: string, t: string, u: string)
    requires Leq(s, t) && Leq(t, u)
    ensures Leq(s, u)
  {
    if s != [] && s[0] == t[0] && t[0] == u[0] {
      LeqTransitive(s[1..], t[1..], u[1..]);
    }
  }

  ghost predicate IsLeast(k: string, keys: set<string>) {
    k in keys && forall j :: j in keys ==> Leq(k, j)
  }

  lemma {:induction false} LeastExists(keys: set<string>) returns (k: string)
    requires keys != {}
    ensures IsLeast(k, keys)
  {
    var j :| j in keys;
    if keys == {j} {
      LeqTotal(j, j);
      k := j;
    } else {
      var rest := keys - {j};
      assert keys == rest + {j};
      var l := LeastExists(rest);
      LeqTotal(j, l);
      LeqTotal(j, j);
      k := if Leq(j, l) then j else l;
      forall i | i in keys ensures Leq(k, i) {
        if i != j && k == j {
          LeqTransitive(j, l, i);
        }
      }
    }
  }

  ghost function Least(keys: set<string>): (k: string)
    requires keys != {}
    ensures IsLeast(k, keys)
  {
    assert exists k :: IsLeast(k, keys) by { var k := LeastExists(keys); }
    var k :| IsLeast(k, keys);
    k
  }

  ghost function Sorted(keys: set<string>): (r: seq<string>)
    ensures forall k :: k in r <==> k in keys
  {
    if keys == {} then [] else
      var k := Least(keys);
      [k] + Sorted(keys - {k})
  }

  predicate Increasing(ks: seq<string>) {
    forall i, j :: 0 <= i < j < |ks| ==> Leq(ks[i], ks[j]) && ks[i] != ks[j]
  }

  /** Whatever order the keys came in, sorted without duplicates they are these. */
  lemma {:induction false} SortedIsOne(ks: seq<string>, keys: set<string>)
    requires Increasing(ks) && (forall k :: k in ks <==> k in keys)
    ensures ks == Sorted(keys)
  {
    if ks == [] {
      assert keys == {};
    } else {
      assert ks[0] in ks;
      var k := Least(keys);
      var i :| 0 <= i < |ks| && ks[i] == k;
      if i > 0 {
        LeqTotal(ks[0], k);
      }
      forall j ensures j in ks[1..] <==> j in keys - {k} {
        if j in ks[1..] {
          var m :| 0 <= m < |ks[1..]| && ks[1..][m] == j;
          assert ks[m + 1] == j && j in ks;
        }
        if j in keys - {k} {
          var m :| 0 <= m < |ks| && ks[m] == j;
          assert m > 0 && ks[1..][m - 1] == j;
        }
      }
      SortedIsOne(ks[1..], keys - {k});
    }
  }

  // ---------- the text ----------

  function Digit(d: nat): char
    requires d < 16
  {
    "0123456789abcdef"[d]
  }

  function Natural(n: nat): (t: string)
    ensures t != []
  {
    if n < 10 then [Digit(n)] else Natural(n / 10) + [Digit(n % 10)]
  }

  function Decimal(n: int): string {
    if n < 0 then "-" + Natural(-n) else Natural(n)
  }

  function Code4(c: nat): string
    requires c < 0x1_0000
  {
    [Digit(c / 4096), Digit(c / 256 % 16), Digit(c / 16 % 16), Digit(c % 16)]
  }

  // How Go's encoder writes one character of a string.
  function Escaped(c: char): string {
    var n := c as int;
    if c == '\"' then "\\\""
    else if c == '\\' then "\\\\"
    else if n == 8 then "\\b"
    else if n == 12 then "\\f"
    else if n == 10 then "\\n"
    else if n == 13 then "\\r"
    else if n == 9 then "\\t"
    else if n < 0x20 || c == '<' || c == '>' || c == '&' || n == 0x2028 || n == 0x2029 then "\\u" + Code4(n)
    else [c]
  }

  function Chars(s: string): string {
    if s == [] then [] else Escaped(s[0]) + Chars(s[1..])
  }

  function Quoted(s: string): string {
    "\"" + Chars(s) + "\""
  }

  ghost function Canonical(v: Value): string
    decreases v, 1, 0
  {
    match v
    case Null => "null"
    case Bool(b) => if b then "true" else "false"
    case Int(n) => Decimal(n)
    case Str(s) => Quoted(s)
    case List(items) => "[" + Items(v, 0) + "]"
    case Object(fields) => "{" + Fields(v, Sorted(fields.Keys), 0) + "}"
    case Strings(ss) => "[" + StringItems(ss, 0) + "]"
    case StringMap(sm) => "{" + StringFields(sm, Sorted(sm.Keys), 0) + "}"
  }

  // The items from i on, a comma before each but the first.
  ghost function Items(v: Value, i: nat): string
    requires v.List? && i <= |v.items|
    decreases v, 0, |v.items| - i
  {
    if i == |v.items| then [] else (if i > 0 then "," else "") + (Canonical(v.items[i]) + Items(v, i + 1))
  }

  ghost function Fields(v: Value, ks: seq<string>, i: nat): string
    requires v.Object? && i <= |ks| && forall k :: k in ks ==> k in v.fields
    decreases v, 0, |ks| - i
  {
    if i == |ks| then [] else
      (if i > 0 then "," else "") + (Quoted(ks[i]) + ":" + Canonical(v.fields[ks[i]]) + Fields(v, ks, i + 1))
  }

  function StringItems(ss: seq<string>, i: nat): string
    requires i <= |ss|
    decreases |ss| - i
  {
    if i == |ss| then [] else (if i > 0 then "," else "") + (Quoted(ss[i]) + StringItems(ss, i + 1))
  }

  function StringFields(sm: map<string, string>, ks: seq<string>, i: nat): string
    requires i <= |ks| && forall k :: k in ks ==> k in sm
    decreases |ks| - i
  {
    if i == |ks| then [] else
      (if i > 0 then "," else "") + (Quoted(ks[i]) + ":" + Quoted(sm[ks[i]]) + StringFields(sm, ks, i + 1))
  }

  // A typed slice or map is written as the plain list or object of its strings.
  lemma {:induction false} StringItemsPlain(ss: seq<string>, i: nat)
    requires i <= |ss|
    ensures StringItems(ss, i) == Items(Plain(Strings(ss)), i)
    decreases |ss| - i
  {
    if i < |ss| {
      StringItemsPlain(ss, i + 1);
    }
  }

  lemma {:induction false} StringFieldsPlain(sm: map<string, string>, ks: seq<string>, i: nat)
    requires i <= |ks| && forall k :: k in ks ==> k in sm
    ensures StringFields(sm, ks, i) == Fields(Plain(StringMap(sm)), ks, i)
    decreases |ks| - i
  {
    if i < |ks| {
      StringFieldsPlain(sm, ks, i + 1);
    }
  }

  lemma {:induction false} ItemsPlain(v: Value, i: nat)
    requires v.List? && i <= |v.items|
    ensures Items(v, i) == Items(Plain(v), i)
    decreases v, 0, |v.items| - i
  {
    if i < |v.items| {
      CanonicalPlain(v.items[i]);
      ItemsPlain(v, i + 1);
    }
  }

  lemma {:induction false} FieldsPlain(v: Value, ks: seq<string>, i: nat)
    requires v.Object? && i <= |ks| && forall k :: k in ks ==> k in v.fields
    ensures Fields(v, ks, i) == Fields(Plain(v), ks, i)
    decreases v, 0, |ks| - i
  {
    if i < |ks| {
      assert ks[i] in ks;
      CanonicalPlain(v.fields[ks[i]]);
      FieldsPlain(v, ks, i + 1);
    }
  }

  /** A value and what JSON makes of it have the same text. */
  lemma {:induction false} CanonicalPlain(v: Value)
    ensures Canonical(v) == Canonical(Plain(v))
    decreases v, 1, 0
  {
    match v
    case List(_) => ItemsPlain(v, 0);
    case Object(fields) =>
      assert Plain(v).fields.Keys == fields.Keys;
      FieldsPlain(v, Sorted(fields.Keys), 0);
    case Strings(ss) => StringItemsPlain(ss, 0);
    case StringMap(sm) =>
      assert Plain(v).fields.Keys == sm.Keys;
      StringFieldsPlain(sm, Sorted(sm.Keys), 0);
    case _ =>
  }

  // ---------- the reader ----------

  datatype Read<+T> = Fail | Got(value: T, rest: string)

  predicate IsDigit(c: char) {
    '0' <= c <= '9'
  }

  function HexDigit(c: char): Option<nat> {
    if '0' <= c <= '9' then Some(c as nat - '0' as nat)
    else if 'a' <= c <= 'f' then Some(c as nat - 'a' as nat + 10)
    else if 'A' <= c <= 'F' then Some(c as nat - 'A' as nat + 10)
    else None
  }

  // The digits of a number from here on, after those that made n.
  function ReadDigits(t: string, n: nat): (nat, string) {
    if t != [] && IsDigit(t[0]) then ReadDigits(t[1..], 10 * n + (t[0] as nat - '0' as nat)) else (n, t)
  }

  lemma DigitsShorter(t: string, n: nat)
    ensures |ReadDigits(t, n).1| <= |t|
  {
  }

  // The character after \\u: four hexadecimal digits, no half of a pair.
  function ReadCode(t: string): Read<char> {
    if |t| < 4 then Fail
    else match (HexDigit(t[0]), HexDigit(t[1]), HexDigit(t[2]), HexDigit(t[3]))
      case (Some(a), Some(b), Some(c), Some(d)) =>
        var n := ((a * 16 + b) * 16 + c) * 16 + d;
        if n < 0xD800 || 0xE000 <= n < 0x1_0000 then Got(n as char, t[4..]) else Fail
      case _ => Fail
  }

  function ReadEscape(t: string): Read<char> {
    if t == [] then Fail
    else match t[0]
      case '\"' => Got('\"', t[1..])
      case '\\' => Got('\\', t[1..])
      case '/' => Got('/', t[1..])
      case 'b' => Got(8 as char, t[1..])
      case 'f' => Got(12 as char, t[1..])
      case 'n' => Got('\n', t[1..])
      case 'r' => Got('\r', t[1..])
      case 't' => Got('\t', t[1..])
      case 'u' => ReadCode(t[1..])
      case _ => Fail
  }

  function ReadChar(t: string): Read<char>
    requires t != []
  {
    if t[0] == '\\' then ReadEscape(t[1..])
    else if t[0] < ' ' || t[0] == '\"' then Fail
    else Got(t[0], t[1..])
  }

  // A string from after its opening quote on.
  function ReadString(t: string): Read<string>
    ensures ReadString(t).Got? ==> |ReadString(t).rest| < |t|
    decreases |t|
  {
    if t == [] then Fail
    else if t[0] == '\"' then Got([], t[1..])
    else match ReadChar(t)
      case Fail => Fail
      case Got(c, more) =>
        match ReadString(more)
        case Fail => Fail
        case Got(s, rest) => Got([c] + s, rest)
  }

  function ReadWord(word: string, v: Value, t: string): Read<Value> {
    if |word| <= |t| && t[..|word|] == word then Got(v, t[|word|..]) else Fail
  }

  function ReadValue(t: string): (r: Read<Value>)
    ensures r.Got? ==> |r.rest| < |t|
    decreases |t|, 0
  {
    if t == [] then Fail
    else if t[0] == 'n' then ReadWord("null", Null, t)
    else if t[0] == 't' then ReadWord("true", Bool(true), t)
    else if t[0] == 'f' then ReadWord("false", Bool(false), t)
    else if t[0] == '\"' then
      match ReadString(t[1..]) case Fail => Fail case Got(s, rest) => Got(Str(s), rest)
    else if t[0] == '[' then
      if |t| > 1 && t[1] == ']' then Got(List([]), t[2..])
      else match ReadItems(t[1..]) case Fail => Fail case Got(items, rest) => Got(List(items), rest)
    else if t[0] == '{' then
      if |t| > 1 && t[1] == '}' then Got(Object(map[]), t[2..])
      else match ReadFields(t[1..]) case Fail => Fail case Got(fields, rest) => Got(Object(fields), rest)
    else ReadInt(t)
  }

  function ReadInt(t: string): (r: Read<Value>)
    requires t != []
    ensures r.Got? ==> |r.rest| < |t|
  {
    if IsDigit(t[0]) then
      DigitsShorter(t[1..], t[0] as nat - '0' as nat);
      var r := ReadDigits(t, 0);
      Got(Int(r.0), r.1)
    else if t[0] == '-' && |t| > 1 && IsDigit(t[1]) then
      DigitsShorter(t[1..], 0);
      var r := ReadDigits(t[1..], 0);
      Got(Int(0 - r.0 as int), r.1)
    else Fail
  }

  function ReadItems(t: string): (r: Read<seq<Value>>)
    ensures r.Got? ==> |r.rest| < |t|
    decreases |t|, 1
  {
    match ReadValue(t)
    case Fail => Fail
    case Got(v, more) =>
      if more == [] then Fail
      else if more[0] == ']' then Got([v], more[1..])
      else if more[0] != ',' then Fail
      else match ReadItems(more[1..]) case Fail => Fail case Got(items, rest) => Got([v] + items, rest)
  }

  function ReadFields(t: string): (r: Read<map<string, Value>>)
    ensures r.Got? ==> |r.rest| < |t|
    decreases |t|, 1
  {
    if t == [] || t[0] != '\"' then Fail
    else match ReadString(t[1..])
      case Fail => Fail
      case Got(k, colon) =>
        if colon == [] || colon[0] != ':' then Fail
        else match ReadValue(colon[1..])
          case Fail => Fail
          case Got(v, more) =>
            if more == [] then Fail
            else if more[0] == '}' then Got(map[k := v], more[1..])
            else if more[0] != ',' then Fail
            else match ReadFields(more[1..]) case Fail => Fail case Got(fields, rest) => Got(map[k := v] + fields, rest)
  }

  // ---------- reading back ----------

  predicate IsPlain(v: Value) {
    match v
    case List(items) => forall i :: 0 <= i < |items| ==> IsPlain(items[i])
    case Object(fields) => forall k :: k in fields ==> IsPlain(fields[k])
    case Strings(_) => false
    case StringMap(_) => false
    case _ => true
  }

  lemma {:induction false} PlainIsPlain(v: Value)
    ensures IsPlain(Plain(v))
  {
    match v
    case List(items) =>
      forall i | 0 <= i < |items| ensures IsPlain(Plain(items[i])) {
        PlainIsPlain(items[i]);
      }
    case Object(fields) =>
      forall k | k in fields ensures IsPlain(Plain(fields[k])) {
        PlainIsPlain(fields[k]);
      }
    case _ =>
  }

  // What may follow a value: no digit.
  predicate Stops(rest: string) {
    rest == [] || !IsDigit(rest[0])
  }

  lemma DigitRead(d: nat, n: nat, rest: string)
    requires d < 10
    ensures IsDigit(Digit(d)) && ReadDigits([Digit(d)] + rest, n) == ReadDigits(rest, 10 * n + d)
  {
    assert ([Digit(d)] + rest)[1..] == rest;
  }

  lemma {:induction false} DigitsBack(n: nat, rest: string)
    ensures ReadDigits(Natural(n) + rest, 0) == ReadDigits(rest, n)
    ensures IsDigit(Natural(n)[0])
  {
    DigitRead(n % 10, if n < 10 then 0 else n / 10, rest);
    if n >= 10 {
      DigitsBack(n / 10, [Digit(n % 10)] + rest);
      assert Natural(n) + rest == Natural(n / 10) + ([Digit(n % 10)] + rest);
    }
  }

  lemma DigitsRead(t: string, n: nat, rest: string)
    requires t != [] && IsDigit(t[0]) && ReadDigits(t, 0) == (n, rest)
    ensures ReadValue(t) == Got(Int(n), rest)
    ensures ReadValue("-" + t) == Got(Int(-(n as int)), rest)
  {
    assert ("-" + t)[1..] == t;
  }

  lemma IntBack(n: int, rest: string)
    requires Stops(rest)
    ensures ReadValue(Decimal(n) + rest) == Got(Int(n), rest)
    ensures Decimal(n)[0] == '-' || IsDigit(Decimal(n)[0])
  {
    var m := if n < 0 then -n else n;
    DigitsBack(m, rest);
    DigitsRead(Natural(m) + rest, m, rest);
    assert n < 0 ==> Decimal(n) + rest == "-" + (Natural(m) + rest);
  }

  lemma HexBack(d: nat)
    requires d < 16
    ensures HexDigit(Digit(d)) == Some(d)
  {
  }

  lemma Base16(n: nat)
    requires n < 0x1_0000
    ensures n == ((n / 4096 * 16 + n / 256 % 16) * 16 + n / 16 % 16) * 16 + n % 16
  {
    assert n / 16 == n / 256 * 16 + n / 16 % 16;
    assert n / 256 == n / 4096 * 16 + n / 256 % 16;
  }

  // Four digits read as the number they write.
  lemma DigitsCode(a: nat, b: nat, c: nat, d: nat, rest: string)
    requires a < 16 && b < 16 && c < 16 && d < 16
    requires var n := ((a * 16 + b) * 16 + c) * 16 + d; n < 0xD800 || 0xE000 <= n < 0x1_0000
    ensures ReadCode([Digit(a), Digit(b), Digit(c), Digit(d)] + rest) == Got((((a * 16 + b) * 16 + c) * 16 + d) as char, rest)
  {
    HexBack(a);
    HexBack(b);
    HexBack(c);
    HexBack(d);
    assert ([Digit(a), Digit(b), Digit(c), Digit(d)] + rest)[4..] == rest;
  }

  lemma CodeBack(c: char, rest: string)
    requires c as int < 0x1_0000
    ensures ReadCode(Code4(c as int) + rest) == Got(c, rest)
  {
    var n := c as int;
    Base16(n);
    DigitsCode(n / 4096, n / 256 % 16, n / 16 % 16, n % 16, rest);
  }

  // The three ways a character is written: itself, by a letter, by its code.
  lemma CharItself(c: char, rest: string)
    requires Escaped(c) == [c]
    ensures c != '\"' && ReadChar([c] + rest) == Got(c, rest)
  {
    assert ([c] + rest)[1..] == rest;
  }

  lemma CharByLetter(c: char, x: char, rest: string)
    requires Escaped(c) == ['\\', x]
    ensures ReadChar(['\\', x] + rest) == Got(c, rest)
  {
    var t := ['\\', x] + rest;
    assert t[1..] == [x] + rest && ([x] + rest)[1..] == rest;
  }

  lemma CodeRead(code: string, c: char, rest: string)
    requires ReadCode(code + rest) == Got(c, rest)
    ensures ReadChar(['\\', 'u'] + code + rest) == Got(c, rest)
  {
    var t := ['\\', 'u'] + code + rest;
    assert t[1..] == ['u'] + (code + rest) && t[1..][1..] == code + rest;
  }

  lemma CharBack(c: char, rest: string)
    ensures Escaped(c) != [] && Escaped(c)[0] != '\"'
    ensures ReadChar(Escaped(c) + rest) == Got(c, rest)
  {
    if Escaped(c) == [c] {
      CharItself(c, rest);
    } else if |Escaped(c)| == 2 {
      CharByLetter(c, Escaped(c)[1], rest);
      assert Escaped(c) == ['\\', Escaped(c)[1]];
    } else {
      CodeBack(c, rest);
      CodeRead(Code4(c as int), c, rest);
    }
  }

  lemma {:induction false} StringBack(s: string, rest: string)
    ensures ReadString(Chars(s) + "\"" + rest) == Got(s, rest)
  {
    var t := Chars(s) + "\"" + rest;
    if s == [] {
      assert t == "\"" + rest && t[1..] == rest;
    } else {
      var more := Chars(s[1..]) + "\"" + rest;
      assert t == Escaped(s[0]) + more;
      CharBack(s[0], more);
      assert t[0] == Escaped(s[0])[0];
      assert [s[0]] + s[1..] == s;
      StringBack(s[1..], rest);
    }
  }

  // No value's text starts as a list or an object goes on.
  predicate Begins(t: string) {
    t != [] && t[0] != ']' && t[0] != '}' && t[0] != ','
  }

  lemma {:induction false} ReadBack(v: Value, rest: string)
    requires IsPlain(v) && Stops(rest)
    ensures ReadValue(Canonical(v) + rest) == Got(v, rest) && Begins(Canonical(v))
    decreases v, 2, 0
  {
    match v
    case Null => WordBack("null", Null, rest);
    case Bool(b) => WordBack(if b then "true" else "false", v, rest);
    case Int(n) => IntBack(n, rest);
    case Str(s) => QuotedBack(s, rest);
    case List(_) => ListBack(v, rest);
    case Object(_) => ObjectBack(v, rest);
  }

  lemma WordBack(word: string, v: Value, rest: string)
    requires (word == "null" && v == Null) || (word == "true" && v == Bool(true)) || (word == "false" && v == Bool(false))
    ensures ReadValue(word + rest) == Got(v, rest) && Begins(word)
  {
    var t := word + rest;
    assert t[..|word|] == word && t[|word|..] == rest && t[0] == word[0];
  }

  lemma QuotedBack(s: string, rest: string)
    ensures ReadValue(Quoted(s) + rest) == Got(Str(s), rest) && Begins(Quoted(s))
  {
    Wrapped('\"', Chars(s), "\"", rest);
    StringBack(s, rest);
  }

  lemma Wrapped(open: char, body: string, close: string, rest: string)
    ensures var t := [open] + body + close + rest; t != [] && t[0] == open && t[1..] == body + close + rest
  {
  }

  lemma ListRead(t: string, items: seq<Value>, rest: string)
    requires t != [] && t[0] == '[' && Begins(t[1..]) && ReadItems(t[1..]) == Got(items, rest)
    ensures ReadValue(t) == Got(List(items), rest)
  {
  }

  lemma ObjectRead(t: string, fields: map<string, Value>, rest: string)
    requires t != [] && t[0] == '{' && Begins(t[1..]) && ReadFields(t[1..]) == Got(fields, rest)
    ensures ReadValue(t) == Got(Object(fields), rest)
  {
  }

  lemma EmptyRead(t: string, rest: string)
    requires |t| > 1 && t[2..] == rest
    ensures t[0] == '[' && t[1] == ']' ==> ReadValue(t) == Got(List([]), rest)
    ensures t[0] == '{' && t[1] == '}' ==> ReadValue(t) == Got(Object(map[]), rest)
  {
  }

  lemma {:induction false} ListBack(v: Value, rest: string)
    requires v.List? && IsPlain(v)
    ensures ReadValue(Canonical(v) + rest) == Got(v, rest) && Begins(Canonical(v))
    decreases v, 1, 0
  {
    Wrapped('[', Items(v, 0), "]", rest);
    if v.items == [] {
      EmptyRead(Canonical(v) + rest, rest);
    } else {
      ItemsBack(v, 0, rest);
      ItemsAt(v, 0);
      ListRead(Canonical(v) + rest, v.items, rest);
    }
  }

  lemma {:induction false} ObjectBack(v: Value, rest: string)
    requires v.Object? && IsPlain(v)
    ensures ReadValue(Canonical(v) + rest) == Got(v, rest) && Begins(Canonical(v))
    decreases v, 1, 0
  {
    var ks := Sorted(v.fields.Keys);
    Wrapped('{', Fields(v, ks, 0), "}", rest);
    if v.fields == map[] {
      EmptyRead(Canonical(v) + rest, rest);
    } else {
      FieldsBack(v, ks, 0, rest);
      FieldsAt(v, ks, 0);
      assert FieldsNamed(v.fields, ks[0..]) == v.fields;
      ObjectRead(Canonical(v) + rest, v.fields, rest);
    }
  }

  // The text of the items from i on, without a comma before.
  ghost function ItemsFrom(v: Value, i: nat): string
    requires v.List? && i < |v.items|
  {
    Canonical(v.items[i]) + Items(v, i + 1)
  }

  lemma ItemsAt(v: Value, i: nat)
    requires v.List? && i < |v.items|
    ensures Items(v, i) == (if i > 0 then "," + ItemsFrom(v, i) else ItemsFrom(v, i))
  {
  }

  // What follows an item, or a field: the end, or a comma and the next.
  lemma After(more: string, next: string, close: string, rest: string)
    requires |close| == 1 && (more == [] || more == "," + next)
    ensures var t := more + close + rest;
            t != [] && (if more == [] then t[0] == close[0] && t[1..] == rest else t[0] == ',' && t[1..] == next + close + rest)
  {
  }

  lemma NextItem(t: string, after: string, v: Value, items: seq<Value>, rest: string)
    requires ReadValue(t) == Got(v, after) && after != []
    requires if after[0] == ',' then ReadItems(after[1..]) == Got(items, rest)
             else after[0] == ']' && items == [] && rest == after[1..]
    ensures ReadItems(t) == Got([v] + items, rest)
  {
    assert [v] + [] == [v];
  }

  lemma {:induction false} ItemsBack(v: Value, i: nat, rest: string)
    requires v.List? && i < |v.items| && IsPlain(v)
    ensures ReadItems(ItemsFrom(v, i) + "]" + rest) == Got(v.items[i..], rest)
    ensures Begins(ItemsFrom(v, i)) && Begins(ItemsFrom(v, i) + "]" + rest)
    decreases v, 0, |v.items| - i
  {
    var more := Items(v, i + 1);
    var after := more + "]" + rest;
    if i + 1 == |v.items| {
      After(more, "", "]", rest);
    } else {
      ItemsBack(v, i + 1, rest);
      ItemsAt(v, i + 1);
      After(more, ItemsFrom(v, i + 1), "]", rest);
    }
    ReadBack(v.items[i], after);
    NextItem(Canonical(v.items[i]) + after, after, v.items[i], v.items[i + 1..], rest);
    Together(Canonical(v.items[i]), more, "]", rest);
    FirstOf(v.items, i);
  }

  lemma Together(a: string, b: string, c: string, d: string)
    ensures a + b + c + d == a + (b + c + d)
    ensures Begins(a) ==> Begins(a + b) && Begins(a + b + c + d)
  {
  }

  lemma FirstOf(items: seq<Value>, i: nat)
    requires i < |items|
    ensures items[i..] == [items[i]] + items[i + 1..]
  {
  }

  ghost function FieldsFrom(v: Value, ks: seq<string>, i: nat): string
    requires v.Object? && i < |ks| && forall k :: k in ks ==> k in v.fields
  {
    Quoted(ks[i]) + ":" + Canonical(v.fields[ks[i]]) + Fields(v, ks, i + 1)
  }

  lemma FieldsAt(v: Value, ks: seq<string>, i: nat)
    requires v.Object? && i < |ks| && forall k :: k in ks ==> k in v.fields
    ensures Fields(v, ks, i) == (if i > 0 then "," + FieldsFrom(v, ks, i) else FieldsFrom(v, ks, i))
  {
  }

  lemma NextField(k: string, t: string, after: string, v: Value, fields: map<string, Value>, rest: string)
    requires ReadValue(t) == Got(v, after) && after != []
    requires if after[0] == ',' then ReadFields(after[1..]) == Got(fields, rest)
             else after[0] == '}' && fields == map[] && rest == after[1..]
    ensures ReadFields(Quoted(k) + ":" + t) == Got(map[k := v] + fields, rest)
  {
    var whole := Quoted(k) + ":" + t;
    assert whole[1..] == Chars(k) + "\"" + (":" + t);
    StringBack(k, ":" + t);
    assert (":" + t)[1..] == t;
    assert map[k := v] + map[] == map[k := v];
  }

  // The fields named from i on.
  ghost function FieldsNamed(fields: map<string, Value>, ks: seq<string>): map<string, Value>
    requires forall k :: k in ks ==> k in fields
  {
    map k | k in ks :: fields[k]
  }

  lemma {:induction false} FieldsBack(v: Value, ks: seq<string>, i: nat, rest: string)
    requires v.Object? && i < |ks| && IsPlain(v) && (forall k :: k in ks ==> k in v.fields)
    ensures ReadFields(FieldsFrom(v, ks, i) + "}" + rest) == Got(FieldsNamed(v.fields, ks[i..]), rest)
    ensures Begins(FieldsFrom(v, ks, i)) && Begins(FieldsFrom(v, ks, i) + "}" + rest)
    decreases v, 0, |ks| - i
  {
    var more := Fields(v, ks, i + 1);
    var after := more + "}" + rest;
    if i + 1 == |ks| {
      After(more, "", "}", rest);
    } else {
      FieldsBack(v, ks, i + 1, rest);
      FieldsAt(v, ks, i + 1);
      After(more, FieldsFrom(v, ks, i + 1), "}", rest);
    }
    assert ks[i] in ks;
    var w := v.fields[ks[i]];
    ReadBack(w, after);
    NextField(ks[i], Canonical(w) + after, after, w, FieldsNamed(v.fields, ks[i + 1..]), rest);
    FieldTogether(ks[i], Canonical(w), more, "}", rest);
    FirstNamed(v.fields, ks, i);
  }

  lemma FieldTogether(k: string, c: string, more: string, close: string, rest: string)
    ensures Quoted(k) + ":" + c + more + close + rest == Quoted(k) + ":" + (c + (more + close + rest))
    ensures Begins(Quoted(k) + ":" + c + more) && Begins(Quoted(k) + ":" + c + more + close + rest)
  {
  }

  lemma FirstNamed(fields: map<string, Value>, ks: seq<string>, i: nat)
    requires i < |ks| && forall k :: k in ks ==> k in fields
    ensures FieldsNamed(fields, ks[i..]) == map[ks[i] := fields[ks[i]]] + FieldsNamed(fields, ks[i + 1..])
  {
    assert ks[i..] == [ks[i]] + ks[i + 1..];
  }

  /** The canonical text can be read back: the reader recovers the value, as JSON
      decodes it, and stops where it ends. */
  lemma CanonicalReadsBack(v: Value, rest: string)
    requires Stops(rest)
    ensures ReadValue(Canonical(v) + rest) == Got(Plain(v), rest)
  {
    CanonicalPlain(v);
    PlainIsPlain(v);
    ReadBack(Plain(v), rest);
  }

  /** Equal texts mean equal parameters, and the other way around. */
  lemma SameTextSameValue(v: Value, w: Value)
    ensures Canonical(v) == Canonical(w) <==> Plain(v) == Plain(w)
  {
    CanonicalReadsBack(v, "");
    CanonicalReadsBack(w, "");
    CanonicalPlain(v);
    CanonicalPlain(w);
  }

  // ---------- what is written ----------

  /** The fields of an object are written in the order of their keys, each before all
      that are greater: a prefix before what it begins, the smaller character first. */
  lemma FieldsAscend(v: Value) returns (ks: seq<string>)
    requires v.Object?
    ensures (forall k :: k in ks <==> k in v.fields) && forall i, j :: 0 <= i < j < |ks| ==> Less(ks[i], ks[j])
    ensures Canonical(v) == "{" + Fields(v, ks, 0) + "}"
  {
    ks := Sorted(v.fields.Keys);
    SortedIncreases(v.fields.Keys);
    forall i, j | 0 <= i < j < |ks| ensures Less(ks[i], ks[j]) {
      LeqIs(ks[i], ks[j]);
    }
  }

  // A field in the text, with what is written of it.
  ghost function Field(v: Value, k: string): string
    requires v.Object? && k in v.fields
  {
    Quoted(k) + ":" + Canonical(v.fields[k])
  }

  lemma FieldFirst(v: Value, ks: seq<string>, i: nat) returns (comma: string)
    requires v.Object? && i < |ks| && forall k :: k in ks ==> k in v.fields
    ensures ks[i] in v.fields && Fields(v, ks, i) == comma + Field(v, ks[i]) + Fields(v, ks, i + 1)
  {
    comma := if i > 0 then "," else "";
    assert ks[i] in ks;
    Regroup(comma, Field(v, ks[i]), Fields(v, ks, i + 1), [], []);
  }

  lemma Regroup(a: string, b: string, c: string, d: string, e: string)
    ensures a + (b + c) == a + b + c
    ensures a + b + (c + d + e) == (a + b + c) + d + e
  {
  }

  lemma {:induction false} FieldsThrough(v: Value, ks: seq<string>, h: nat, i: nat) returns (p: string)
    requires v.Object? && h <= i < |ks| && forall k :: k in ks ==> k in v.fields
    ensures ks[i] in v.fields && Fields(v, ks, h) == p + Field(v, ks[i]) + Fields(v, ks, i + 1)
    decreases i - h
  {
    p := FieldFirst(v, ks, h);
    if h < i {
      var more := FieldsThrough(v, ks, h + 1, i);
      Regroup(p, Field(v, ks[h]), more, Field(v, ks[i]), Fields(v, ks, i + 1));
      p := p + Field(v, ks[h]) + more;
    }
  }

  lemma Enclosed(p: string, f: string, q: string, g: string, r: string)
    ensures "{" + (p + f + (q + g + r)) + "}" == ("{" + p) + f + q + g + (r + "}")
  {
  }

  /** Of two fields the one of the smaller key is written first. */
  lemma SmallerFirst(v: Value, j: string, k: string) returns (p: string, q: string, r: string)
    requires v.Object? && j in v.fields && k in v.fields && Less(j, k)
    ensures Canonical(v) == p + Field(v, j) + q + Field(v, k) + r
  {
    var ks := FieldsAscend(v);
    var a, b := PlacesOf(ks, j, k);
    p, q, r := TwoFields(v, ks, a, b);
    Enclosed(p, Field(v, j), q, Field(v, k), r);
    p, r := "{" + p, r + "}";
  }

  lemma TwoFields(v: Value, ks: seq<string>, a: nat, b: nat) returns (p: string, q: string, r: string)
    requires v.Object? && a < b < |ks| && forall k :: k in ks ==> k in v.fields
    ensures ks[a] in v.fields && ks[b] in v.fields
    ensures Fields(v, ks, 0) == p + Field(v, ks[a]) + (q + Field(v, ks[b]) + r)
  {
    p := FieldsThrough(v, ks, 0, a);
    q := FieldsThrough(v, ks, a + 1, b);
    r := Fields(v, ks, b + 1);
  }

  lemma PlacesOf(ks: seq<string>, j: string, k: string) returns (a: nat, b: nat)
    requires j in ks && k in ks && Less(j, k) && forall i, j :: 0 <= i < j < |ks| ==> Less(ks[i], ks[j])
    ensures a < b < |ks| && ks[a] == j && ks[b] == k
  {
    a :| a < |ks| && ks[a] == j;
    b :| b < |ks| && ks[b] == k;
    LessOneWay(j, k);
  }

  lemma LessOneWay(s: string, t: string)
    requires Less(s, t)
    ensures s != t && !Less(t, s)
  {
    if t < s || exists i :: 0 <= i < |t| && i < |s| && LessAt(t, s, i) {
      LeqIs(s, t);
      LeqIs(t, s);
      LeqTotal(s, t);
    }
  }

  lemma {:induction false} SortedIncreases(keys: set<string>)
    ensures Increasing(Sorted(keys))
  {
    if keys != {} {
      var k := Least(keys);
      SortedIncreases(keys - {k});
      var rest := Sorted(keys - {k});
      forall i, j | 0 <= i < j < |Sorted(keys)| ensures Leq(Sorted(keys)[i], Sorted(keys)[j]) && Sorted(keys)[i] != Sorted(keys)[j] {
        assert j > 0 && Sorted(keys)[j] == rest[j - 1] && rest[j - 1] in rest;
        assert i > 0 ==> Sorted(keys)[i] == rest[i - 1];
      }
    }
  }

  // No character that Go's encoder never writes as it is.
  predicate Safe(t: string) {
    forall i :: 0 <= i < |t| ==> t[i] >= ' ' && t[i] != '<' && t[i] != '>' && t[i] != '&' && t[i] as int != 0x2028 && t[i] as int != 0x2029
  }

  predicate NoCapital(t: string) {
    forall i :: 0 <= i < |t| ==> !('A' <= t[i] <= 'F')
  }

  lemma DigitIs(c: char, d: nat)
    requires HexDigit(c) == Some(d) && !('A' <= c <= 'F')
    ensures d < 16 && Digit(d) == c
  {
  }

  lemma CodeIs(t: string, c: char)
    requires |t| == 4 && ReadCode(t) == Got(c, "") && NoCapital(t)
    ensures c as int < 0x1_0000 && t == Code4(c as int)
  {
    var a, b, d, e := HexDigit(t[0]).value, HexDigit(t[1]).value, HexDigit(t[2]).value, HexDigit(t[3]).value;
    DigitIs(t[0], a);
    DigitIs(t[1], b);
    DigitIs(t[2], d);
    DigitIs(t[3], e);
    Nibbles(a, b, d, e);
    assert t == [t[0], t[1], t[2], t[3]];
  }

  lemma Nibbles(a: nat, b: nat, c: nat, d: nat)
    requires a < 16 && b < 16 && c < 16 && d < 16
    ensures var n := ((a * 16 + b) * 16 + c) * 16 + d;
            n < 0x1_0000 && n / 4096 == a && n / 256 % 16 == b && n / 16 % 16 == c && n % 16 == d
  {
    var n := ((a * 16 + b) * 16 + c) * 16 + d;
    assert n / 16 == (a * 16 + b) * 16 + c;
    assert n / 256 == a * 16 + b;
  }

  lemma DigitIsSafe(d: nat)
    requires d < 16
    ensures Digit(d) >= '0' && Digit(d) <= 'f' && Digit(d) != '<' && Digit(d) != '>'
  {
  }

  lemma EscapedIsSafe(c: char)
    ensures Safe(Escaped(c))
  {
    EscapedLength(c);
    if |Escaped(c)| == 6 {
      var n := c as int;
      DigitIsSafe(n / 4096);
      DigitIsSafe(n / 256 % 16);
      DigitIsSafe(n / 16 % 16);
      DigitIsSafe(n % 16);
    }
  }

  // The texts of two characters that read as one.
  lemma ShortEscape(c: char, t: string)
    requires |t| == 2 && t[0] == '\\' && ReadChar(t) == Got(c, "")
    ensures Escaped(c) == t || Escaped(c) == [c]
  {
  }

  lemma LongEscape(c: char, t: string)
    requires t != [] && t[0] == '\\' && ReadChar(t) == Got(c, "")
    ensures |t| == 2 || (|t| == 6 && t[1] == 'u' && ReadCode(t[2..]) == Got(c, ""))
  {
    assert t[1..][1..] == t[2..];
  }

  lemma EscapedLength(c: char)
    ensures |Escaped(c)| == 1 || |Escaped(c)| == 2 || (|Escaped(c)| == 6 && Escaped(c) == "\\u" + Code4(c as int))
    ensures |Escaped(c)| == 1 ==> Escaped(c) == [c]
    ensures |Escaped(c)| == 1 <==> Safe([c]) && c != '\"' && c != '\\'
  {
    assert [c][0] == c;
  }

  /** A character is written as the shortest text that reads as it and is safe, its
      hexadecimal digits in lower case. */
  lemma EscapedIsShortest(c: char, t: string)
    requires t != [] && ReadChar(t) == Got(c, "") && Safe(t)
    ensures Safe(Escaped(c)) && |Escaped(c)| <= |t|
    ensures |Escaped(c)| == |t| && (|t| > 2 ==> NoCapital(t)) ==> Escaped(c) == t
  {
    EscapedIsSafe(c);
    EscapedLength(c);
    if t[0] == '\\' {
      LongEscape(c, t);
      if |t| == 2 {
        ShortEscape(c, t);
      } else if |Escaped(c)| == 6 && NoCapital(t) {
        CodeIs(t[2..], c);
        assert t == "\\u" + t[2..];
      }
    } else {
      assert t == [c];
    }
  }

  /** A number is written without a zero before it. */
  lemma {:induction false} NoZeroBefore(n: nat)
    ensures if n == 0 then Natural(n) == "0" else Natural(n)[0] != '0'
  {
    if n >= 10 {
      NoZeroBefore(n / 10);
    }
  }

  /** The texts of what is no number, list or object, for example. */
  lemma ExampleTexts()
    ensures Canonical(Null) == "null" && Canonical(Bool(true)) == "true" && Canonical(Bool(false)) == "false"
    ensures Canonical(Str("<")) == "\"\\u003c\""
  {
    assert Chars("<") == Escaped('<') + [];
  }

  // ---------- writing it ----------

  predicate Distinct(ks: seq<string>) {
    forall i, j :: 0 <= i < j < |ks| ==> ks[i] != ks[j]
  }

  // Where k goes in ks, which is sorted and does not have it.
  method Place(ks: seq<string>, k: string) returns (i: nat)
    requires Increasing(ks) && k !in ks
    ensures i <= |ks| && Increasing(ks[..i] + [k] + ks[i..])
  {
    i := |ks|;
    while i > 0 && Leq(k, ks[i - 1])
      invariant i <= |ks| && forall j :: i <= j < |ks| ==> Leq(k, ks[j])
    {
      i := i - 1;
    }
    forall j | 0 <= j < i ensures Leq(ks[j], k) {
      LeqTotal(ks[i - 1], k);
      if j < i - 1 {
        LeqTransitive(ks[j], ks[i - 1], k);
      }
    }
  }

  // sort.Strings, of keys no two of which are the same.
  method SortStrings(keys: seq<string>) returns (ks: seq<string>)
    requires Distinct(keys)
    ensures Increasing(ks) && forall k :: k in ks <==> k in keys
  {
    ks := [];
    for n := 0 to |keys|
      invariant Increasing(ks) && forall k :: k in ks <==> k in keys[..n]
    {
      var k := keys[n];
      assert keys[..n + 1] == keys[..n] + [k];
      assert k !in keys[..n];
      var i := Place(ks, k);
      ghost var was := ks;
      ks := ks[..i] + [k] + ks[i..];
      assert was == was[..i] + was[i..];
    }
    assert keys[..|keys|] == keys;
  }

  // The keys of a map, in whatever order it gives them.
  method KeysOf(keys: set<string>) returns (ks: seq<string>)
    ensures Distinct(ks) && forall k :: k in ks <==> k in keys
  {
    ks := [];
    var left := keys;
    while left != {}
      invariant Distinct(ks) && left <= keys && forall k :: k in ks <==> k in keys - left
      decreases |left|
    {
      var k :| k in left;
      assert k !in ks;
      ks, left := ks + [k], left - {k};
    }
  }

  /** The canonical JSON of v, written as the source writes it: keys collected in
      any order and sorted, items and fields one by one. */
  method CanonicalText(v: Value) returns (t: string)
    ensures t == Canonical(v)
    decreases v, 1
  {
    match v
    case Null => t := "null";
    case Bool(b) => t := if b then "true" else "false";
    case Int(n) => t := Decimal(n);
    case Str(s) => t := Quoted(s);
    case List(_) => t := ListText(v);
    case Object(_) => t := ObjectText(v);
    case Strings(ss) => t := "[" + StringItems(ss, 0) + "]";
    case StringMap(sm) =>
      var ks := KeysOf(sm.Keys);
      ks := SortStrings(ks);
      SortedIsOne(ks, sm.Keys);
      t := "{" + StringFields(sm, ks, 0) + "}";
  }

  lemma ItemAdded(buf: string, v: Value, i: nat)
    requires v.List? && i < |v.items|
    ensures (if i > 0 then buf + "," else buf) + Canonical(v.items[i]) + Items(v, i + 1) == buf + Items(v, i)
  {
    ItemsAt(v, i);
  }

  lemma FieldAdded(buf: string, v: Value, ks: seq<string>, i: nat)
    requires v.Object? && i < |ks| && forall k :: k in ks ==> k in v.fields
    ensures (if i > 0 then buf + "," else buf) + Quoted(ks[i]) + ":" + Canonical(v.fields[ks[i]]) + Fields(v, ks, i + 1)
         == buf + Fields(v, ks, i)
  {
    FieldsAt(v, ks, i);
    Joined(buf, Quoted(ks[i]), Canonical(v.fields[ks[i]]), Fields(v, ks, i + 1));
  }

  lemma Joined(buf: string, k: string, c: string, more: string)
    ensures buf + k + ":" + c + more == buf + (k + ":" + c + more)
    ensures buf + "," + k + ":" + c + more == buf + ("," + (k + ":" + c + more))
  {
  }

  method ListText(v: Value) returns (buf: string)
    requires v.List?
    ensures buf == Canonical(v)
    decreases v, 0
  {
    buf := "[";
    for i := 0 to |v.items|
      invariant buf + Items(v, i) == "[" + Items(v, 0)
    {
      ghost var was := buf;
      if i > 0 {
        buf := buf + ",";
      }
      var b := CanonicalText(v.items[i]);
      buf := buf + b;
      ItemAdded(was, v, i);
    }
    buf := buf + "]";
  }

  method ObjectText(v: Value) returns (buf: string)
    requires v.Object?
    ensures buf == Canonical(v)
    decreases v, 0
  {
    var ks := KeysOf(v.fields.Keys);
    ks := SortStrings(ks);
    SortedIsOne(ks, v.fields.Keys);
    buf := "{";
    for i := 0 to |ks|
      invariant buf + Fields(v, ks, i) == "{" + Fields(v, ks, 0)
    {
      ghost var was := buf;
      if i > 0 {
        buf := buf + ",";
      }
      assert ks[i] in ks;
      var b := CanonicalText(v.fields[ks[i]]);
      buf := buf + Quoted(ks[i]) + ":" + b;
      FieldAdded(was, v, ks, i);
    }
    buf := buf + "}";
  }
}
