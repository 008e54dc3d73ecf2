/** The normal form of an action's parameters, which their hash is taken of, and
    why the hash of stored parameters is the hash they were stored with. */
module Normalize {
  import opened Common
  import opened CanonicalJson

  // The types a parameter can have; Any is every other one, passed through.
  datatype Kind = Boolean | Integer | Text | Texts | Mapping | Any

  datatype Param = Param(name: string, kind: Kind, required: bool)

  datatype Action = Action(params: seq<Param>, passthrough: bool)

  datatype Result<+T> = Ok(value: T) | Err(param: string)

  /** What Go does with values that are not modelled: how it prints one that is no
      string, what a number out of range becomes as an int32, and as a float64. */
  datatype Go = Go(show: Value -> string, narrow: int -> int, float: int -> int)

  ghost predicate Faithful(g: Go) {
    && (forall n :: -0x8000_0000 <= g.narrow(n) < 0x8000_0000)
    && (forall n :: -0x8000_0000 <= n < 0x8000_0000 ==> g.narrow(n) == n)
    && (forall n :: -0x20_0000_0000_0000 <= n <= 0x20_0000_0000_0000 ==> g.float(n) == n)
  }

  // ---------- trimming ----------

  function TrimLeft(s: string): string {
    if s != [] && IsSpace(s[0]) then TrimLeft(s[1..]) else s
  }

  function TrimRight(s: string): string {
    if s != [] && IsSpace(s[|s|-1]) then TrimRight(s[..|s|-1]) else s
  }

  function TrimSpace(s: string): string {
    TrimRight(TrimLeft(s))
  }

  predicate Trimmed(s: string) {
    s != [] ==> !IsSpace(s[0]) && !IsSpace(s[|s|-1])
  }

  lemma {:induction false} TrimLeftTrims(s: string)
    ensures TrimLeft(s) != [] ==> !IsSpace(TrimLeft(s)[0])
  {
    if s != [] && IsSpace(s[0]) {
      TrimLeftTrims(s[1..]);
    }
  }

  lemma {:induction false} TrimRightTrims(s: string)
    ensures TrimRight(s) <= s
    ensures TrimRight(s) != [] ==> !IsSpace(TrimRight(s)[|TrimRight(s)|-1])
  {
    if s != [] && IsSpace(s[|s|-1]) {
      TrimRightTrims(s[..|s|-1]);
    }
  }

  lemma TrimTrims(s: string)
    ensures Trimmed(TrimSpace(s))
    ensures Trimmed(s) ==> TrimSpace(s) == s
  {
    TrimLeftTrims(s);
    TrimRightTrims(TrimLeft(s));
  }

  // ---------- one parameter ----------

  function Lower(s: string): string {
    seq(|s|, i requires 0 <= i < |s| => if 'A' <= s[i] <= 'Z' then (s[i] as int + 32) as char else s[i])
  }

  function AsBool(v: Value): Option<bool> {
    match v
    case Bool(b) => Some(b)
    case Str(s) =>
      var t := Lower(TrimSpace(s));
      if t == "true" || t == "1" then Some(true) else if t == "false" || t == "0" then Some(false) else None
    case _ => None
  }

  predicate AllStrings(items: seq<Value>) {
    forall i :: 0 <= i < |items| ==> items[i].Str?
  }

  // A typed slice is taken as it is; a decoded list's strings are trimmed.
  function AsStrings(v: Value): Option<seq<string>> {
    match v
    case Strings(ss) => Some(ss)
    case List(items) =>
      if AllStrings(items) then
        Some(seq(|items|, i requires 0 <= i < |items| && items[i].Str? => TrimSpace(items[i].s)))
      else None
    case _ => None
  }

  // The entries of a map of strings.
  function Entries(v: Value): Option<map<string, string>> {
    match v
    case StringMap(sm) => Some(sm)
    case Object(fields) =>
      if forall k :: k in fields ==> fields[k].Str? then Some(map k | k in fields && fields[k].Str? :: fields[k].s) else None
    case _ => None
  }

  // Keys that collide once trimmed have the same value, trimmed.
  ghost predicate Agrees(m: map<string, string>) {
    forall j, k :: j in m && k in m && TrimSpace(j) == TrimSpace(k) ==> TrimSpace(m[j]) == TrimSpace(m[k])
  }

  // The value of a key that becomes j: any of them, which is the one where they agree.
  ghost function ValueFor(m: map<string, string>, j: string): string
    requires j in TrimKeys(m)
  {
    var k :| k in m && TrimSpace(k) == j;
    TrimSpace(m[k])
  }

  lemma KeyFor(m: map<string, string>, j: string) returns (k: string)
    requires j in TrimKeys(m)
    ensures k in m && TrimSpace(k) == j && ValueFor(m, j) == TrimSpace(m[k])
  {
    k :| k in m && TrimSpace(k) == j && ValueFor(m, j) == TrimSpace(m[k]);
  }

  // Keys and values trimmed. (Opened by TrimMapMeans only.)
  ghost function TrimMap(m: map<string, string>): map<string, string> {
    assert IsTrimMap(m, map j | j in TrimKeys(m) :: ValueFor(m, j));
    var t :| IsTrimMap(m, t);
    t
  }

  ghost predicate IsTrimMap(m: map<string, string>, t: map<string, string>) {
    forall u: int {:trigger AsksTrimMap(m, t, u)} :: AsksTrimMap(m, t, u) ==> t == map j | j in TrimKeys(m) :: ValueFor(m, j)
  }

  ghost predicate AsksTrimMap(m: map<string, string>, t: map<string, string>, u: int) { true }

  lemma TrimMapMeans(m: map<string, string>)
    ensures TrimMap(m) == map j | j in TrimKeys(m) :: ValueFor(m, j)
  {
    assert AsksTrimMap(m, TrimMap(m), 0);
  }

  ghost function TrimKeys(m: map<string, string>): set<string> {
    set k | k in m :: TrimSpace(k)
  }

  // An empty key is not allowed.
  predicate NoKeyEmpty(m: map<string, string>) {
    forall k :: k in m ==> TrimSpace(k) != ""
  }

  ghost function AsStringMap(v: Value): Option<map<string, string>> {
    match Entries(v)
    case None => None
    case Some(m) => if NoKeyEmpty(m) then Some(TrimMap(m)) else None
  }

  // The value as the catalog's shape has it; None when it is dropped.
  ghost function Coerce(g: Go, p: Param, v: Value): Result<Option<Value>> {
    match p.kind
    case Boolean => (match AsBool(v) case None => Err(p.name) case Some(b) => Ok(Some(Bool(b))))
    case Integer =>
      if !v.Int? then Err(p.name)
      else
        var n := g.narrow(v.n);
        Ok(if !p.required && n == 0 then None else Some(Int(n)))
    case Text =>
      var s := TrimSpace(if v.Str? then v.s else g.show(v));
      Ok(if s == "" || s == "<nil>" then None else Some(Str(s)))
    case Mapping => (match AsStringMap(v) case None => Err(p.name) case Some(m) => Ok(if m == map[] then None else Some(StringMap(m))))
    case Texts => (match AsStrings(v) case None => Err(p.name) case Some(ss) => Ok(if ss == [] then None else Some(Strings(ss))))
    case Any => Ok(Some(v))
  }

  // What is given for a parameter, nil being nothing.
  function Given(in_: map<string, Value>, name: string): Option<Value> {
    if name in in_ && in_[name] != Null then Some(in_[name]) else None
  }

  ghost function One(g: Go, p: Param, v: Option<Value>): Result<Option<Value>> {
    match v
    case None => Ok(if p.kind == Boolean && !p.required then Some(Bool(false)) else None)
    case Some(v) => Coerce(g, p, v)
  }

  // The parameters up to some, one after the other.
  ghost function NormalizeUpto(g: Go, ps: seq<Param>, in_: map<string, Value>): Result<map<string, Value>> {
    if ps == [] then Ok(map[])
    else
      var p := ps[|ps|-1];
      match NormalizeUpto(g, ps[..|ps|-1], in_)
      case Err(e) => Err(e)
      case Ok(m) =>
        match One(g, p, Given(in_, p.name))
        case Err(e) => Err(e)
        case Ok(c) => Ok(if c.None? then m else m[p.name := c.value])
  }

  // What storing a value as JSON and reading it again makes of it.
  function Stored(g: Go, v: Value): Value {
    match v
    case Int(n) => Int(g.float(n))
    case List(items) => List(seq(|items|, i requires 0 <= i < |items| => Stored(g, items[i])))
    case Object(fields) => Object(map k | k in fields :: Stored(g, fields[k]))
    case Strings(ss) => List(ListOf(ss))
    case StringMap(sm) => Object(MapOf(sm))
    case _ => v
  }

  function StoredMap(g: Go, m: map<string, Value>): map<string, Value> {
    map k | k in m :: Stored(g, m[k])
  }

  ghost function Normalize(g: Go, a: Action, in_: map<string, Value>): Result<map<string, Value>> {
    if a.passthrough then Ok(StoredMap(g, in_)) else NormalizeUpto(g, a.params, in_)
  }

  // ---------- what was normalized stays ----------

  // Nothing in it but integers a float64 holds.
  predicate Exact(v: Value) {
    match v
    case Int(n) => -0x20_0000_0000_0000 <= n <= 0x20_0000_0000_0000
    case List(items) => forall i :: 0 <= i < |items| ==> Exact(items[i])
    case Object(fields) => forall k :: k in fields ==> Exact(fields[k])
    case _ => true
  }

  lemma {:induction false} StoredIsPlain(g: Go, v: Value)
    requires Faithful(g) && Exact(v)
    ensures Stored(g, v) == Plain(v)
  {
    match v
    case List(items) =>
      forall i | 0 <= i < |items| ensures Stored(g, items[i]) == Plain(items[i]) {
        StoredIsPlain(g, items[i]);
      }
    case Object(fields) =>
      forall k | k in fields ensures Stored(g, fields[k]) == Plain(fields[k]) {
        StoredIsPlain(g, fields[k]);
      }
    case _ =>
  }

  lemma {:induction false} PlainIsSame(v: Value)
    requires IsPlain(v)
    ensures Plain(v) == v
  {
    match v
    case List(items) =>
      forall i | 0 <= i < |items| ensures Plain(items[i]) == items[i] {
        PlainIsSame(items[i]);
      }
      assert Plain(v).items == items;
    case Object(fields) =>
      forall k | k in fields ensures Plain(fields[k]) == fields[k] {
        PlainIsSame(fields[k]);
      }
      assert Plain(v).fields == fields;
    case _ =>
  }

  lemma TrimMapTrims(m: map<string, string>, t: map<string, string>)
    requires t == TrimMap(m)
    ensures TrimMap(t) == t && (NoKeyEmpty(m) ==> NoKeyEmpty(t))
  {
    TrimMapMeans(m);
    TrimMapMeans(t);
    forall j | j in t ensures TrimSpace(j) == j && TrimSpace(t[j]) == t[j] {
      var k := KeyFor(m, j);
      TrimTrims(k);
      TrimTrims(j);
      TrimTrims(m[k]);
      TrimTrims(t[j]);
    }
    assert TrimMap(t).Keys == TrimKeys(t) == t.Keys;
    forall j | j in t ensures TrimMap(t)[j] == t[j] {
      assert TrimSpace(j) == j;
      var k := KeyFor(t, j);
      assert TrimSpace(k) == k;
    }
  }

  // The value kept, where one is.
  ghost predicate Keeps(g: Go, p: Param, v: Value, c: Value) {
    Coerce(g, p, v) == Ok(Some(c))
  }

  // A coerced value is coerced to itself.
  lemma CoerceTwice(g: Go, p: Param, v: Value, c: Value)
    requires Faithful(g) && v != Null && Keeps(g, p, v, c)
    ensures c != Null && Keeps(g, p, c, c)
  {
    match p.kind
    case Text => TextTwice(g, p, v, c);
    case Mapping =>
      MappingFixed(g, p, v, c);
      MappingKeeps(g, p, c, c.sm);
    case Integer => assert g.narrow(c.n) == c.n;
    case _ =>
  }

  // Trimmed through and through (opened by FixedMeans only).
  ghost predicate Fixed(t: map<string, string>) {
    forall u: int {:trigger AsksFixed(t, u)} :: AsksFixed(t, u) ==> TrimMap(t) == t && NoKeyEmpty(t)
  }

  ghost predicate AsksFixed(t: map<string, string>, u: int) { true }

  lemma FixedMeans(t: map<string, string>, v: Value)
    requires Fixed(t) && Entries(v) == Some(t)
    ensures AsStringMap(v) == Some(t)
  {
    assert AsksFixed(t, 0);
  }

  lemma MappingFixed(g: Go, p: Param, v: Value, c: Value)
    requires p.kind == Mapping && Keeps(g, p, v, c)
    ensures c.StringMap? && c.sm != map[] && Fixed(c.sm)
  {
    MappingKept(g, p, v, c);
    TrimMapTrims(Entries(v).value, c.sm);
  }

  lemma MappingKept(g: Go, p: Param, v: Value, c: Value)
    requires p.kind == Mapping && Keeps(g, p, v, c)
    ensures Entries(v).Some? && NoKeyEmpty(Entries(v).value) && c == StringMap(TrimMap(Entries(v).value)) && c.sm != map[]
  {
  }

  lemma MappingKeeps(g: Go, p: Param, v: Value, t: map<string, string>)
    requires p.kind == Mapping && Fixed(t) && Entries(v) == Some(t) && t != map[]
    ensures Keeps(g, p, v, StringMap(t))
  {
    FixedMeans(t, v);
  }

  lemma TextTwice(g: Go, p: Param, v: Value, c: Value)
    requires p.kind == Text && Keeps(g, p, v, c)
    ensures c != Null && Keeps(g, p, c, c)
  {
    TrimTrims(if v.Str? then v.s else g.show(v));
    TrimTrims(c.s);
  }

  lemma TrimsTrimmed(ss: seq<string>)
    requires forall i :: 0 <= i < |ss| ==> Trimmed(ss[i])
    ensures AsStrings(List(ListOf(ss))) == Some(ss)
  {
    var again := AsStrings(List(ListOf(ss)));
    forall i | 0 <= i < |ss| ensures again.value[i] == ss[i] {
      TrimTrims(ss[i]);
    }
    assert again.value == ss;
  }

  lemma StoredEntries(sm: map<string, string>)
    ensures Entries(Object(MapOf(sm))) == Some(sm)
  {
    assert Entries(Object(MapOf(sm))).value == sm;
  }

  // A coerced value that was stored is coerced to the same text.
  lemma CoerceStored(g: Go, p: Param, v: Value, c: Value)
    requires Faithful(g) && v != Null && IsPlain(v) && Exact(v) && Keeps(g, p, v, c)
    ensures Stored(g, c) != Null && Keeps(g, p, Stored(g, c), c) && Stored(g, c) == Plain(c)
  {
    match p.kind
    case Mapping =>
      MappingFixed(g, p, v, c);
      StoredEntries(c.sm);
      MappingKeeps(g, p, Stored(g, c), c.sm);
    case Texts => TextsStored(g, p, v, c);
    case Any =>
      StoredIsPlain(g, v);
      PlainIsSame(v);
    case Integer =>
      CoerceTwice(g, p, v, c);
      assert g.float(c.n) == c.n;
    case _ => CoerceTwice(g, p, v, c);
  }

  lemma TextsStored(g: Go, p: Param, v: Value, c: Value)
    requires p.kind == Texts && IsPlain(v) && Keeps(g, p, v, c)
    ensures Stored(g, c) != Null && Keeps(g, p, Stored(g, c), c) && Stored(g, c) == Plain(c)
  {
    forall i | 0 <= i < |c.ss| ensures Trimmed(c.ss[i]) {
      TrimTrims(v.items[i].s);
    }
    TrimsTrimmed(c.ss);
  }

  ghost predicate DistinctNames(ps: seq<Param>) {
    forall i, j :: 0 <= i < j < |ps| ==> ps[i].name != ps[j].name
  }

  // What the result has for a parameter.
  ghost predicate Has(g: Go, p: Param, in_: map<string, Value>, m: map<string, Value>) {
    var o := One(g, p, Given(in_, p.name));
    o.Ok? && (if o.value.None? then p.name !in m else p.name in m && m[p.name] == o.value.value)
  }

  lemma HasStill(g: Go, p: Param, q: Param, in_: map<string, Value>, m: map<string, Value>, c: Value)
    requires Has(g, p, in_, m) && q.name != p.name
    ensures Has(g, p, in_, m[q.name := c])
  {
  }

  // What one parameter more makes of the result.
  ghost function Plus(m: map<string, Value>, name: string, c: Option<Value>): map<string, Value> {
    if c.None? then m else m[name := c.value]
  }

  lemma UptoLast(g: Go, ps: seq<Param>, in_: map<string, Value>)
    requires ps != [] && NormalizeUpto(g, ps, in_).Ok?
    ensures var front, p := ps[..|ps|-1], ps[|ps|-1];
            && NormalizeUpto(g, front, in_).Ok? && One(g, p, Given(in_, p.name)).Ok?
            && NormalizeUpto(g, ps, in_).value ==
               Plus(NormalizeUpto(g, front, in_).value, p.name, One(g, p, Given(in_, p.name)).value)
  {
  }

  ghost predicate Named(ps: seq<Param>, k: string) {
    exists i :: 0 <= i < |ps| && ps[i].name == k
  }

  // It has what it should for each parameter, and nothing else.
  lemma {:induction false} NormalizedHas(g: Go, ps: seq<Param>, in_: map<string, Value>)
    requires DistinctNames(ps) && NormalizeUpto(g, ps, in_).Ok?
    ensures forall k :: k in NormalizeUpto(g, ps, in_).value ==> Named(ps, k)
    ensures forall i :: 0 <= i < |ps| ==> Has(g, ps[i], in_, NormalizeUpto(g, ps, in_).value)
  {
    if ps != [] {
      var front, p := ps[..|ps|-1], ps[|ps|-1];
      UptoLast(g, ps, in_);
      NormalizedHas(g, front, in_);
      assert front + [p] == ps;
      HasLast(g, front, p, in_, NormalizeUpto(g, front, in_).value, One(g, p, Given(in_, p.name)).value);
    }
  }

  lemma HasLast(g: Go, front: seq<Param>, p: Param, in_: map<string, Value>, m: map<string, Value>, c: Option<Value>)
    requires DistinctNames(front + [p]) && One(g, p, Given(in_, p.name)) == Ok(c)
    requires (forall k :: k in m ==> Named(front, k)) && forall i :: 0 <= i < |front| ==> Has(g, front[i], in_, m)
    ensures forall k :: k in Plus(m, p.name, c) ==> Named(front + [p], k)
    ensures forall i :: 0 <= i < |front + [p]| ==> Has(g, (front + [p])[i], in_, Plus(m, p.name, c))
  {
    var ps, n := front + [p], Plus(m, p.name, c);
    assert ps[|front|] == p;
    forall k | k in m ensures k != p.name && Named(ps, k) {
      var i :| 0 <= i < |front| && front[i].name == k;
      assert ps[i] == front[i] && ps[i].name != ps[|front|].name;
    }
    forall i | 0 <= i < |front| ensures Has(g, ps[i], in_, n) {
      assert ps[i] == front[i] && ps[i].name != ps[|front|].name;
      if c.Some? {
        HasStill(g, ps[i], p, in_, m, c.value);
      }
    }
    assert Named(ps, p.name);
  }

  // Parameters that come to the same one by one are normalized to the same.
  lemma {:induction false} SameOneByOne(g: Go, ps: seq<Param>, in_: map<string, Value>, again: map<string, Value>)
    requires NormalizeUpto(g, ps, in_).Ok?
    requires forall i :: 0 <= i < |ps| ==> One(g, ps[i], Given(again, ps[i].name)) == One(g, ps[i], Given(in_, ps[i].name))
    ensures NormalizeUpto(g, ps, again) == NormalizeUpto(g, ps, in_)
  {
    if ps != [] {
      SameOneByOne(g, ps[..|ps|-1], in_, again);
    }
  }

  /** Normalizing what was normalized changes nothing; an action that passes its
      parameters through is given decoded ones. */
  lemma NormalizeTwice(g: Go, a: Action, in_: map<string, Value>)
    requires Faithful(g) && DistinctNames(a.params) && (a.passthrough ==> Decoded(in_))
    requires Normalize(g, a, in_).Ok?
    ensures Normalize(g, a, Normalize(g, a, in_).value) == Normalize(g, a, in_)
  {
    if a.passthrough {
      StoredTwice(g, in_);
    } else {
      ParamsTwice(g, a, in_);
    }
  }

  lemma ParamsTwice(g: Go, a: Action, in_: map<string, Value>)
    requires Faithful(g) && DistinctNames(a.params) && !a.passthrough && Normalize(g, a, in_).Ok?
    ensures Normalize(g, a, Normalize(g, a, in_).value) == Normalize(g, a, in_)
  {
    var m := Normalize(g, a, in_).value;
    NormalizedHas(g, a.params, in_);
    forall i | 0 <= i < |a.params|
      ensures One(g, a.params[i], Given(m, a.params[i].name)) == One(g, a.params[i], Given(in_, a.params[i].name))
    {
      var p := a.params[i];
      if Given(in_, p.name).Some? {
        NotDropped(g, p, in_[p.name]);
        if p.name in m {
          CoerceTwice(g, p, in_[p.name], m[p.name]);
        }
      }
    }
    SameOneByOne(g, a.params, in_, m);
  }

  // A boolean is never dropped, so it is not made false by being absent.
  lemma NotDropped(g: Go, p: Param, v: Value)
    ensures p.kind == Boolean ==> Coerce(g, p, v) != Ok(None)
  {
  }

  // JSON-decoded parameters, their numbers exact.
  ghost predicate Decoded(in_: map<string, Value>) {
    forall k :: k in in_ ==> IsPlain(in_[k]) && Exact(in_[k])
  }

  lemma StoredTwice(g: Go, in_: map<string, Value>)
    requires Faithful(g) && Decoded(in_)
    ensures StoredMap(g, in_) == in_
  {
    forall k | k in in_ ensures Stored(g, in_[k]) == in_[k] {
      StoredIsPlain(g, in_[k]);
      PlainIsSame(in_[k]);
    }
  }

  /** The hash survives storage: what was normalized, stored and read again is
      normalized to the very parameters it was stored from, of the same text. */
  lemma HashSurvivesStorage(g: Go, a: Action, in_: map<string, Value>)
    requires Faithful(g) && DistinctNames(a.params) && Decoded(in_)
    requires Normalize(g, a, in_).Ok?
    ensures var m := Normalize(g, a, in_).value;
            && Normalize(g, a, StoredMap(g, m)) == Ok(m)
            && Canonical(Object(StoredMap(g, m))) == Canonical(Object(m))
  {
    var m := Normalize(g, a, in_).value;
    if a.passthrough {
      StoredTwice(g, in_);
    } else {
      NormalizedHas(g, a.params, in_);
      var stored := StoredMap(g, m);
      forall i | 0 <= i < |a.params|
        ensures One(g, a.params[i], Given(stored, a.params[i].name)) == One(g, a.params[i], Given(in_, a.params[i].name))
        ensures a.params[i].name in m ==> stored[a.params[i].name] == Plain(m[a.params[i].name])
      {
        OneStored(g, a.params[i], in_, m);
      }
      SameOneByOne(g, a.params, in_, stored);
      assert stored == Plain(Object(m)).fields;
      CanonicalPlain(Object(m));
    }
  }

  lemma OneStored(g: Go, p: Param, in_: map<string, Value>, m: map<string, Value>)
    requires Faithful(g) && Decoded(in_) && Has(g, p, in_, m)
    ensures One(g, p, Given(StoredMap(g, m), p.name)) == One(g, p, Given(in_, p.name))
    ensures p.name in m ==> Stored(g, m[p.name]) == Plain(m[p.name])
  {
    if Given(in_, p.name).Some? {
      NotDropped(g, p, in_[p.name]);
      if p.name in m {
        CoerceStored(g, p, in_[p.name], m[p.name]);
      }
    }
  }

  // ---------- where it does not hold ----------

  /** A typed slice, which no JSON gives, is not trimmed: it survives exactly when
      its strings are trimmed. */
  lemma TypedSliceSurvives(g: Go, ss: seq<string>)
    requires ss != []
    ensures var p := Param("x", Texts, false);
            && Coerce(g, p, Strings(ss)) == Ok(Some(Strings(ss)))
            && (Coerce(g, p, Stored(g, Strings(ss))) == Ok(Some(Strings(ss)))
                <==> forall i :: 0 <= i < |ss| ==> Trimmed(ss[i]))
  {
    var p := Param("x", Texts, false);
    var again := AsStrings(Stored(g, Strings(ss)));
    if forall i :: 0 <= i < |ss| ==> Trimmed(ss[i]) {
      TrimsTrimmed(ss);
    } else {
      var i :| 0 <= i < |ss| && !Trimmed(ss[i]);
      TrimTrims(ss[i]);
      assert again.value[i] != ss[i];
    }
  }

  // What a map's iteration, in the order ks gives, makes of it: the last wins.
  function TrimInOrder(m: map<string, string>, ks: seq<string>): map<string, string>
    requires forall k :: k in ks ==> k in m
  {
    if ks == [] then map[]
    else
      var k := ks[|ks|-1];
      assert forall j :: j in ks[..|ks|-1] ==> j in ks;
      TrimInOrder(m, ks[..|ks|-1])[TrimSpace(k) := TrimSpace(m[k])]
  }

  lemma {:induction false} TrimInOrderKeys(m: map<string, string>, ks: seq<string>)
    requires forall k :: k in ks ==> k in m
    ensures TrimInOrder(m, ks).Keys == set k | k in ks :: TrimSpace(k)
  {
    if ks != [] {
      var front, k := ks[..|ks|-1], ks[|ks|-1];
      assert forall j :: j in ks <==> j in front || j == k;
      TrimInOrderKeys(m, front);
    }
  }

  lemma {:induction false} TrimInOrderHas(m: map<string, string>, ks: seq<string>, j: string)
    requires (forall k :: k in ks ==> k in m) && Agrees(m) && j in ks
    ensures TrimSpace(j) in TrimInOrder(m, ks) && TrimInOrder(m, ks)[TrimSpace(j)] == TrimSpace(m[j])
  {
    var front, k := ks[..|ks|-1], ks[|ks|-1];
    assert k in ks;
    if TrimSpace(j) != TrimSpace(k) {
      assert j in front;
      TrimInOrderHas(m, front, j);
    }
  }

  // An order a map can be gone through: each of its keys once.
  ghost predicate Orders(m: map<string, string>, ks: seq<string>) {
    (forall k :: k in ks <==> k in m) && forall i, j :: 0 <= i < j < |ks| ==> ks[i] != ks[j]
  }

  /** Where keys that collide agree, a map comes to the same in every order, the
      trimmed map. */
  lemma OrderDoesNotMatter(m: map<string, string>, ks: seq<string>)
    requires (forall k :: k in ks <==> k in m) && Agrees(m)
    ensures TrimInOrder(m, ks) == TrimMap(m)
  {
    TrimInOrderKeys(m, ks);
    TrimMapMeans(m);
    forall j | j in TrimMap(m) ensures TrimInOrder(m, ks)[j] == TrimMap(m)[j] {
      var k := KeyFor(m, j);
      TrimInOrderHas(m, ks, k);
    }
    assert TrimInOrder(m, ks).Keys == TrimMap(m).Keys;
  }

  lemma {:induction false} SomeOrder(keys: set<string>) returns (ks: seq<string>)
    ensures (forall k :: k in ks <==> k in keys) && forall i, j :: 0 <= i < j < |ks| ==> ks[i] != ks[j]
  {
    ks := [];
    if k :| k in keys {
      var rest := SomeOrder(keys - {k});
      assert k !in rest;
      ks := rest + [k];
    }
  }

  // Any key can come last, and decides then.
  lemma LastDecides(m: map<string, string>, k: string) returns (ks: seq<string>)
    requires k in m
    ensures Orders(m, ks)
    ensures TrimSpace(k) in TrimInOrder(m, ks) && TrimInOrder(m, ks)[TrimSpace(k)] == TrimSpace(m[k])
  {
    var front := SomeOrder(m.Keys - {k});
    assert k !in front;
    ks := front + [k];
    assert ks[..|ks|-1] == front;
  }

  /** A map comes to the same in every order it can be gone through exactly when
      keys that collide once trimmed have the same value, trimmed. */
  lemma OrderMattersIff(m: map<string, string>)
    ensures (forall ks, ls :: Orders(m, ks) && Orders(m, ls) ==> TrimInOrder(m, ks) == TrimInOrder(m, ls)) <==> Agrees(m)
  {
    if Agrees(m) {
      forall ks, ls | Orders(m, ks) && Orders(m, ls) ensures TrimInOrder(m, ks) == TrimInOrder(m, ls) {
        OrderDoesNotMatter(m, ks);
        OrderDoesNotMatter(m, ls);
      }
    } else {
      var j, k :| j in m && k in m && TrimSpace(j) == TrimSpace(k) && TrimSpace(m[j]) != TrimSpace(m[k]);
      var ks := LastDecides(m, j);
      var ls := LastDecides(m, k);
      assert TrimInOrder(m, ks) != TrimInOrder(m, ls);
    }
  }

  // ---------- the normal form, told by the values given ----------

  // The white space there is.
  const Spaces: set<int> :=
    {9, 10, 11, 12, 13, 32, 0x85, 0xA0, 0x1680, 0x2000, 0x2001, 0x2002, 0x2003, 0x2004, 0x2005, 0x2006, 0x2007, 0x2008, 0x2009,
     0x200A, 0x2028, 0x2029, 0x202F, 0x205F, 0x3000}

  predicate Blank(s: string) {
    forall i :: 0 <= i < |s| ==> s[i] as int in Spaces
  }

  // t is s without the white space around it.
  ghost predicate Strips(s: string, t: string) {
    exists i, j :: 0 <= i <= j <= |s| && StripsAt(s, i, j, t)
  }

  predicate StripsAt(s: string, i: nat, j: nat, t: string)
    requires i <= j <= |s|
  {
    t == s[i..j] && Blank(s[..i]) && Blank(s[j..]) && (t != [] ==> t[0] as int !in Spaces && t[|t| - 1] as int !in Spaces)
  }

  // The same letter, small or capital.
  predicate SameLetter(c: char, small: char) {
    c == small || ('a' <= small <= 'z' && c as int == small as int - 32)
  }

  // s is the word, but for white space around it and for capitals.
  ghost predicate Spells(s: string, word: string) {
    exists t :: Strips(s, t) && SameLetters(t, word)
  }

  predicate SameLetters(t: string, word: string) {
    |t| == |word| && forall i :: 0 <= i < |t| ==> SameLetter(t[i], word[i])
  }

  ghost predicate SpellsTrue(s: string) {
    Spells(s, "true") || Spells(s, "1")
  }

  ghost predicate SpellsFalse(s: string) {
    Spells(s, "false") || Spells(s, "0")
  }

  lemma SpacesAre(c: char)
    ensures IsSpace(c) <==> c as int in Spaces
  {
  }

  lemma BlankMeans(s: string)
    ensures Blank(s) <==> forall i :: 0 <= i < |s| ==> IsSpace(s[i])
  {
    forall i | 0 <= i < |s| ensures IsSpace(s[i]) <==> s[i] as int in Spaces {
      SpacesAre(s[i]);
    }
  }

  lemma {:induction false} TrimLeftOn(s: string, i: nat)
    requires i <= |s| && (forall k :: 0 <= k < i ==> IsSpace(s[k])) && (i < |s| ==> !IsSpace(s[i]))
    ensures TrimLeft(s) == s[i..]
  {
    if i > 0 {
      TrimLeftOn(s[1..], i - 1);
    }
  }

  lemma {:induction false} TrimRightOn(s: string, j: nat)
    requires j <= |s| && (forall k :: j <= k < |s| ==> IsSpace(s[k])) && (j > 0 ==> !IsSpace(s[j - 1]))
    ensures TrimRight(s) == s[..j]
  {
    if j < |s| {
      TrimRightOn(s[..|s| - 1], j);
      assert s[..|s| - 1][..j] == s[..j];
    } else {
      assert s[..j] == s;
    }
  }

  // Where the first that is no space stands, and where the last one ends.
  lemma {:induction false} FirstSolid(s: string) returns (i: nat)
    ensures i <= |s| && (forall k :: 0 <= k < i ==> IsSpace(s[k])) && (i < |s| ==> !IsSpace(s[i]))
  {
    i := 0;
    if s != [] && IsSpace(s[0]) {
      var n := FirstSolid(s[1..]);
      i := n + 1;
    }
  }

  lemma {:induction false} LastSolid(s: string) returns (j: nat)
    ensures j <= |s| && (forall k :: j <= k < |s| ==> IsSpace(s[k])) && (j > 0 ==> !IsSpace(s[j - 1]))
  {
    j := |s|;
    if s != [] && IsSpace(s[|s| - 1]) {
      j := LastSolid(s[..|s| - 1]);
    }
  }

  // A text of spaces has nothing left.
  lemma TrimAll(s: string)
    requires forall k :: 0 <= k < |s| ==> IsSpace(s[k])
    ensures TrimSpace(s) == []
  {
    TrimLeftOn(s, |s|);
  }

  lemma TrimOn(s: string, i: nat, j: nat)
    requires i < j <= |s| && !IsSpace(s[i]) && !IsSpace(s[j - 1])
    requires (forall k :: 0 <= k < i ==> IsSpace(s[k])) && forall k :: j <= k < |s| ==> IsSpace(s[k])
    ensures TrimSpace(s) == s[i..j]
  {
    TrimLeftOn(s, i);
    TrimRightOn(s[i..], j - i);
    assert s[i..][..j - i] == s[i..j];
  }

  /** Trimming is that, and nothing else. */
  lemma TrimMeans(s: string, t: string)
    ensures Strips(s, t) <==> t == TrimSpace(s)
  {
    forall i, j | 0 <= i <= j <= |s| && StripsAt(s, i, j, t) ensures t == TrimSpace(s) {
      StripsTrims(s, i, j, t);
    }
    TrimStrips(s);
  }

  lemma StripsTrims(s: string, i: nat, j: nat, t: string)
    requires i <= j <= |s| && StripsAt(s, i, j, t)
    ensures t == TrimSpace(s)
  {
    BlankMeans(s[..i]);
    BlankMeans(s[j..]);
    forall k | 0 <= k < i ensures IsSpace(s[k]) {
      assert s[k] == s[..i][k];
    }
    forall k | j <= k < |s| ensures IsSpace(s[k]) {
      assert s[k] == s[j..][k - j];
    }
    if i == j {
      TrimAll(s);
    } else {
      SpacesAre(s[i]);
      SpacesAre(s[j - 1]);
      TrimOn(s, i, j);
    }
  }

  lemma TrimStrips(s: string)
    ensures Strips(s, TrimSpace(s))
  {
    var i := FirstSolid(s);
    var j := LastSolid(s);
    BlankMeans(s[..i]);
    BlankMeans(s[j..]);
    BlankMeans(s);
    if i == |s| {
      TrimAll(s);
      assert s[i..] == [] && s[..i] == s;
      assert StripsAt(s, i, i, []);
    } else {
      assert i < j;
      SpacesAre(s[i]);
      SpacesAre(s[j - 1]);
      TrimOn(s, i, j);
      assert StripsAt(s, i, j, s[i..j]);
    }
  }

  lemma LowerMeans(t: string, word: string)
    requires forall i :: 0 <= i < |word| ==> !('A' <= word[i] <= 'Z')
    ensures Lower(t) == word <==> SameLetters(t, word)
  {
    if SameLetters(t, word) {
      assert Lower(t) == word;
    }
  }

  lemma SpellsMeans(s: string, word: string)
    requires forall i :: 0 <= i < |word| ==> !('A' <= word[i] <= 'Z')
    ensures Spells(s, word) <==> Lower(TrimSpace(s)) == word
  {
    TrimMeans(s, TrimSpace(s));
    forall t | Strips(s, t) ensures t == TrimSpace(s) {
      TrimMeans(s, t);
    }
    LowerMeans(TrimSpace(s), word);
  }

  lemma BooleanMeans(s: string)
    ensures AsBool(Str(s)) == if SpellsTrue(s) then Some(true) else if SpellsFalse(s) then Some(false) else None
    ensures !(SpellsTrue(s) && SpellsFalse(s))
  {
    SpellsMeans(s, "true");
    SpellsMeans(s, "1");
    SpellsMeans(s, "false");
    SpellsMeans(s, "0");
  }

  // Whether a value given for a parameter can be read.
  ghost predicate Readable(kind: Kind, v: Value) {
    match kind
    case Boolean => v.Bool? || (v.Str? && (SpellsTrue(v.s) || SpellsFalse(v.s)))
    case Integer => v.Int?
    case Texts => v.Strings? || (v.List? && AllStrings(v.items))
    case Mapping => KeysReadable(v)
    case _ => true
  }

  // A map of strings, none of its keys blank.
  ghost predicate KeysReadable(v: Value) {
    if v.StringMap? then forall k :: k in v.sm ==> !Blank(k)
    else v.Object? && forall k :: k in v.fields ==> v.fields[k].Str? && !Blank(k)
  }

  // What the text of a value is without the space around it.
  ghost predicate TextIs(g: Go, v: Value, t: string) {
    Strips(if v.Str? then v.s else g.show(v), t)
  }

  // A decoded list's strings, each without the space around it; a typed slice as it is.
  ghost predicate TextsAre(v: Value, ss: seq<string>) {
    if v.Strings? then ss == v.ss
    else v.List? && |ss| == |v.items| && forall i :: 0 <= i < |ss| ==> v.items[i].Str? && Strips(v.items[i].s, ss[i])
  }

  // Each key's value under the key, and no other, without the space around them.
  ghost predicate EntriesAre(v: Value, t: map<string, string>) {
    Entries(v).Some? && EntriesOf(Entries(v).value, t)
  }

  ghost predicate EntriesOf(m: map<string, string>, t: map<string, string>) {
    (forall k :: k in m ==> Kept(m, t, k)) && forall j :: j in t ==> WasKey(m, j)
  }

  ghost predicate Kept(m: map<string, string>, t: map<string, string>, k: string)
    requires k in m
  {
    exists j :: j in t && Strips(k, j) && Strips(m[k], t[j])
  }

  ghost predicate WasKey(m: map<string, string>, j: string) {
    exists k :: k in m && Strips(k, j)
  }

  // What comes of a value given: Some of what is kept, or None.
  ghost predicate Becomes(g: Go, p: Param, v: Value, c: Option<Value>) {
    match p.kind
    case Boolean => c == Some(Bool(if v.Bool? then v.b else v.Str? && SpellsTrue(v.s)))
    case Integer => v.Int? && c == if !p.required && g.narrow(v.n) == 0 then None else Some(Int(g.narrow(v.n)))
    case Text =>
      if c.Some? then c.value.Str? && TextIs(g, v, c.value.s) && c.value.s != "" && c.value.s != "<nil>"
      else TextIs(g, v, "") || TextIs(g, v, "<nil>")
    case Texts => if c.Some? then c.value.Strings? && TextsAre(v, c.value.ss) && c.value.ss != [] else TextsAre(v, [])
    case Mapping => if c.Some? then c.value.StringMap? && EntriesAre(v, c.value.sm) && c.value.sm != map[] else EntriesAre(v, map[])
    case Any => c == Some(v)
  }

  lemma TrimBlank(k: string)
    ensures TrimSpace(k) == "" <==> Blank(k)
  {
    BlankMeans(k);
    if Blank(k) {
      TrimAll(k);
    } else {
      var i, j := FirstAndLast(k);
      TrimOn(k, i, j);
    }
  }

  // The stretch a text that is not all space has between the spaces around it.
  lemma FirstAndLast(s: string) returns (i: nat, j: nat)
    requires exists k :: 0 <= k < |s| && !IsSpace(s[k])
    ensures i < j <= |s| && !IsSpace(s[i]) && !IsSpace(s[j - 1])
    ensures (forall k :: 0 <= k < i ==> IsSpace(s[k])) && forall k :: j <= k < |s| ==> IsSpace(s[k])
  {
    i := FirstSolid(s);
    j := LastSolid(s);
  }

  lemma KeyIsKept(m: map<string, string>, k: string)
    requires Agrees(m) && k in m
    ensures Kept(m, TrimMap(m), k)
  {
    TrimMapMeans(m);
    assert TrimSpace(k) in TrimKeys(m);
    var h := KeyFor(m, TrimSpace(k));
    TrimMeans(k, TrimSpace(k));
    TrimMeans(m[k], TrimSpace(m[k]));
  }

  lemma KeyWasThere(m: map<string, string>, j: string)
    requires j in TrimMap(m)
    ensures WasKey(m, j)
  {
    TrimMapMeans(m);
    var k := KeyFor(m, j);
    TrimMeans(k, j);
  }

  lemma TrimMapIs(m: map<string, string>)
    requires Agrees(m)
    ensures EntriesOf(m, TrimMap(m))
  {
    forall k | k in m ensures Kept(m, TrimMap(m), k) {
      KeyIsKept(m, k);
    }
    forall j | j in TrimMap(m) ensures WasKey(m, j) {
      KeyWasThere(m, j);
    }
  }

  /** A value comes to what it becomes, and is an error exactly when it cannot be read. */
  lemma CoerceMeans(g: Go, p: Param, v: Value)
    requires Single(p, Some(v))
    ensures Coerce(g, p, v) == Err(p.name) <==> !Readable(p.kind, v)
    ensures Coerce(g, p, v).Err? <==> !Readable(p.kind, v)
    ensures Coerce(g, p, v).Ok? ==> Becomes(g, p, v, Coerce(g, p, v).value)
  {
    match p.kind
    case Boolean =>
      if v.Str? {
        BooleanMeans(v.s);
      }
    case Text => TextMeans(g, v);
    case Texts => TextsMean(v);
    case Mapping =>
      MappingReadable(v);
      MappingMeans(v);
    case Integer =>
    case Any =>
  }

  lemma TextMeans(g: Go, v: Value)
    ensures TextIs(g, v, TrimSpace(if v.Str? then v.s else g.show(v)))
  {
    var s := if v.Str? then v.s else g.show(v);
    TrimMeans(s, TrimSpace(s));
  }

  lemma TextsMean(v: Value)
    ensures AsStrings(v).Some? <==> Readable(Texts, v)
    ensures AsStrings(v).Some? ==> TextsAre(v, AsStrings(v).value)
  {
    if v.List? && AllStrings(v.items) {
      forall i | 0 <= i < |v.items| ensures Strips(v.items[i].s, TrimSpace(v.items[i].s)) {
        TrimMeans(v.items[i].s, TrimSpace(v.items[i].s));
      }
    }
  }

  lemma MappingReadable(v: Value)
    ensures AsStringMap(v).Some? <==> KeysReadable(v)
  {
    KeysMean(v);
  }

  lemma MappingMeans(v: Value)
    requires Entries(v).Some? ==> Agrees(Entries(v).value)
    ensures AsStringMap(v).Some? ==> EntriesAre(v, AsStringMap(v).value)
  {
    EntriesMean(v);
  }

  lemma EntriesMean(v: Value)
    requires Entries(v).Some? ==> Agrees(Entries(v).value)
    ensures Entries(v).Some? ==> EntriesAre(v, TrimMap(Entries(v).value))
  {
    if Entries(v).Some? {
      TrimMapIs(Entries(v).value);
    }
  }

  lemma KeysMean(v: Value)
    ensures KeysReadable(v) <==> Entries(v).Some? && NoKeyEmpty(Entries(v).value)
  {
    if Entries(v).Some? {
      var m := Entries(v).value;
      forall k | k in m ensures TrimSpace(k) == "" <==> Blank(k) {
        TrimBlank(k);
      }
    }
  }

  // What the result has for a parameter that was given or not: absent ones are
  // dropped, but that an optional boolean is false.
  ghost predicate Told(g: Go, p: Param, in_: map<string, Value>, m: map<string, Value>) {
    var c := if p.name in m then Some(m[p.name]) else None;
    if p.name !in in_ || in_[p.name] == Null then c == if p.kind == Boolean && !p.required then Some(Bool(false)) else None
    else Becomes(g, p, in_[p.name], c)
  }

  ghost predicate ReadableIn(p: Param, in_: map<string, Value>) {
    p.name in in_ && in_[p.name] != Null ==> Readable(p.kind, in_[p.name])
  }

  /** The normal form: every parameter's value read, and nothing else; or the name of
      the first that cannot be read. */
  ghost predicate AsTold(g: Go, ps: seq<Param>, in_: map<string, Value>, r: Result<map<string, Value>>) {
    match r
    case Ok(m) => && (forall k :: k in m ==> Named(ps, k))
                  && (forall i :: 0 <= i < |ps| ==> ReadableIn(ps[i], in_) && Told(g, ps[i], in_, m))
    case Err(e) => exists i :: 0 <= i < |ps| && FirstUnread(ps, in_, i) && e == ps[i].name
  }

  ghost predicate FirstUnread(ps: seq<Param>, in_: map<string, Value>, i: nat)
    requires i < |ps|
  {
    !ReadableIn(ps[i], in_) && forall h :: 0 <= h < i ==> ReadableIn(ps[h], in_)
  }

  lemma OneMeans(g: Go, p: Param, in_: map<string, Value>)
    requires Single(p, Given(in_, p.name))
    ensures var o := One(g, p, Given(in_, p.name));
            && (o.Ok? <==> ReadableIn(p, in_)) && (o.Err? ==> o.param == p.name)
            && (forall m :: Has(g, p, in_, m) ==> Told(g, p, in_, m))
  {
    if Given(in_, p.name).Some? {
      CoerceMeans(g, p, in_[p.name]);
    }
  }

  // In the maps of strings among what is given, keys that collide agree.
  ghost predicate EachAgrees(ps: seq<Param>, in_: map<string, Value>) {
    forall i :: 0 <= i < |ps| ==> Single(ps[i], Given(in_, ps[i].name))
  }

  lemma {:induction false} AllRead(g: Go, ps: seq<Param>, in_: map<string, Value>)
    requires EachAgrees(ps, in_) && NormalizeUpto(g, ps, in_).Ok?
    ensures forall i :: 0 <= i < |ps| ==> ReadableIn(ps[i], in_)
  {
    if ps != [] {
      UptoLast(g, ps, in_);
      AllRead(g, ps[..|ps|-1], in_);
      OneMeans(g, ps[|ps|-1], in_);
    }
  }

  lemma {:induction false} FirstIsError(g: Go, ps: seq<Param>, in_: map<string, Value>) returns (i: nat)
    requires EachAgrees(ps, in_) && NormalizeUpto(g, ps, in_).Err?
    ensures i < |ps| && FirstUnread(ps, in_, i) && NormalizeUpto(g, ps, in_) == Err(ps[i].name)
  {
    var front := ps[..|ps|-1];
    if NormalizeUpto(g, front, in_).Err? {
      i := FirstIsError(g, front, in_);
    } else {
      i := |ps| - 1;
      AllRead(g, front, in_);
      OneMeans(g, ps[i], in_);
    }
  }

  /** The normal form is what the values given say. */
  lemma NormalizeMeans(g: Go, ps: seq<Param>, in_: map<string, Value>)
    requires DistinctNames(ps) && EachAgrees(ps, in_)
    ensures AsTold(g, ps, in_, NormalizeUpto(g, ps, in_))
  {
    var r := NormalizeUpto(g, ps, in_);
    if r.Ok? {
      NormalizedHas(g, ps, in_);
      AllRead(g, ps, in_);
      forall i | 0 <= i < |ps| ensures Told(g, ps[i], in_, r.value) {
        OneMeans(g, ps[i], in_);
      }
    } else {
      var i := FirstIsError(g, ps, in_);
    }
  }

  /** A boolean given as a string, whatever the string: true for "true" and "1", false
      for "false" and "0", however spaced and capitalized, and an error otherwise. */
  lemma BooleanFromString(g: Go, name: string, required: bool, s: string)
    ensures var r := Normalize(g, Action([Param(name, Boolean, required)], false), map[name := Str(s)]);
            && (r == Ok(map[name := Bool(true)]) <==> Spells(s, "true") || Spells(s, "1"))
            && (r == Ok(map[name := Bool(false)]) <==> Spells(s, "false") || Spells(s, "0"))
            && (r == Err(name) <==> !Spells(s, "true") && !Spells(s, "1") && !Spells(s, "false") && !Spells(s, "0"))
  {
    var p, in_ := Param(name, Boolean, required), map[name := Str(s)];
    var m := map[name := Bool(true)];
    BooleanMeans(s);
    assert [p][..0] == [];
    assert NormalizeUpto(g, [], in_) == Ok(map[]);
    assert m[name] != map[name := Bool(false)][name];
  }

  lemma SpelledSo(before: string, t: string, behind: string, word: string)
    requires Blank(before) && Blank(behind) && SameLetters(t, word) && word in {"true", "1", "false", "0"}
    ensures Spells(before + t + behind, word)
  {
    var s, i, j := before + t + behind, |before|, |before| + |t|;
    assert s[..i] == before && s[i..j] == t && s[j..] == behind;
    SolidEnds(t, word);
    assert StripsAt(s, i, j, t);
  }

  // No letter or digit of these is white space.
  lemma SolidEnds(t: string, word: string)
    requires SameLetters(t, word) && word in {"true", "1", "false", "0"}
    ensures t != [] && t[0] as int !in Spaces && t[|t| - 1] as int !in Spaces
  {
    assert word[0] as int !in Spaces && word[0] as int - 32 !in Spaces;
    assert word[|word| - 1] as int !in Spaces && word[|word| - 1] as int - 32 !in Spaces;
  }

  /** The very words, spaced and capitalized anyhow, come to what they say. */
  lemma WordsMean(g: Go, name: string, before: string, t: string, behind: string)
    requires Blank(before) && Blank(behind)
    ensures var r := Normalize(g, Action([Param(name, Boolean, false)], false), map[name := Str(before + t + behind)]);
            && (SameLetters(t, "true") || t == "1" ==> r == Ok(map[name := Bool(true)]))
            && (SameLetters(t, "false") || t == "0" ==> r == Ok(map[name := Bool(false)]))
  {
    BooleanFromString(g, name, false, before + t + behind);
    if SameLetters(t, "true") {
      SpelledSo(before, t, behind, "true");
    } else if t == "1" {
      SpelledSo(before, t, behind, "1");
    } else if SameLetters(t, "false") {
      SpelledSo(before, t, behind, "false");
    } else if t == "0" {
      SpelledSo(before, t, behind, "0");
    }
  }

  // ---------- as the source does it ----------

  // Goes through the map in whatever order it gives its keys.
  method TrimEntries(m: map<string, string>) returns (t: map<string, string>, ok: bool)
    ensures ok == NoKeyEmpty(m)
    ensures ok ==> exists ks :: (forall k :: k in ks <==> k in m) && t == TrimInOrder(m, ks)
    ensures ok && Agrees(m) ==> t == TrimMap(m)
  {
    t, ok := map[], true;
    ghost var ks: seq<string> := [];
    var left := m.Keys;
    while left != {}
      invariant left <= m.Keys && (forall k :: k in ks <==> k in m.Keys - left)
      invariant (forall k :: k in ks ==> TrimSpace(k) != "") && t == TrimInOrder(m, ks)
      decreases |left|
    {
      var k :| k in left;
      if TrimSpace(k) == "" {
        return map[], false;
      }
      t, left := t[TrimSpace(k) := TrimSpace(m[k])], left - {k};
      assert (ks + [k])[..|ks|] == ks;
      ks := ks + [k];
    }
    if Agrees(m) {
      OrderDoesNotMatter(m, ks);
    }
  }

  ghost predicate Single(p: Param, v: Option<Value>) {
    p.kind == Mapping && v.Some? && Entries(v.value).Some? ==> Agrees(Entries(v.value).value)
  }

  method CoerceValue(g: Go, p: Param, v: Value) returns (r: Result<Option<Value>>)
    ensures Single(p, Some(v)) ==> r == Coerce(g, p, v)
  {
    match p.kind
    case Boolean =>
      var b := AsBool(v);
      r := if b.None? then Err(p.name) else Ok(Some(Bool(b.value)));
    case Integer =>
      if !v.Int? {
        return Err(p.name);
      }
      var n := g.narrow(v.n);
      r := Ok(if !p.required && n == 0 then None else Some(Int(n)));
    case Text =>
      var s := TrimSpace(if v.Str? then v.s else g.show(v));
      r := Ok(if s == "" || s == "<nil>" then None else Some(Str(s)));
    case Mapping =>
      var m := Entries(v);
      if m.None? {
        return Err(p.name);
      }
      var t, ok := TrimEntries(m.value);
      r := if !ok then Err(p.name) else Ok(if t == map[] then None else Some(StringMap(t)));
    case Texts =>
      var ss := AsStrings(v);
      r := if ss.None? then Err(p.name) else Ok(if ss.value == [] then None else Some(Strings(ss.value)));
    case Any =>
      r := Ok(Some(v));
  }

  /** The normal form, parameter by parameter: each value read as it is told to be, or
      the first that cannot be read. */
  method NormalizeParams(g: Go, a: Action, in_: map<string, Value>) returns (r: Result<map<string, Value>>)
    ensures EachAgrees(a.params, in_) ==> r == Normalize(g, a, in_)
    ensures EachAgrees(a.params, in_) && !a.passthrough && DistinctNames(a.params) ==> AsTold(g, a.params, in_, r)
    ensures a.passthrough && Faithful(g) && Decoded(in_) ==> r == Ok(in_)
  {
    if a.passthrough && Faithful(g) && Decoded(in_) {
      StoredTwice(g, in_);
    }
    if EachAgrees(a.params, in_) && DistinctNames(a.params) {
      NormalizeMeans(g, a.params, in_);
    }
    if a.passthrough {
      return Ok(StoredMap(g, in_));
    }
    var out: map<string, Value> := map[];
    for i := 0 to |a.params|
      invariant EachAgrees(a.params, in_) ==> NormalizeUpto(g, a.params[..i], in_) == Ok(out)
    {
      var p := a.params[i];
      var c: Option<Value> := None;
      if p.name in in_ && in_[p.name] != Null {
        var kept := CoerceValue(g, p, in_[p.name]);
        if kept.Err? {
          if EachAgrees(a.params, in_) {
            ErrStays(g, a.params, in_, i);
          }
          return Err(kept.param);
        }
        c := kept.value;
      }
      if c.Some? {
        out := out[p.name := c.value];
      } else if p.kind == Boolean && !p.required {
        out := out[p.name := Bool(false)];
      }
      assert a.params[..i + 1][..i] == a.params[..i];
    }
    assert a.params[..|a.params|] == a.params;
    r := Ok(out);
  }

  // The first parameter in error is the error of them all.
  lemma {:induction false} ErrStays(g: Go, ps: seq<Param>, in_: map<string, Value>, i: nat)
    requires i < |ps| && NormalizeUpto(g, ps[..i], in_).Ok? && One(g, ps[i], Given(in_, ps[i].name)).Err?
    ensures NormalizeUpto(g, ps, in_) == Err(One(g, ps[i], Given(in_, ps[i].name)).param)
  {
    if i == |ps| - 1 {
      assert ps[..i] == ps[..|ps|-1];
    } else {
      assert ps[..|ps|-1][..i] == ps[..i];
      ErrStays(g, ps[..|ps|-1], in_, i);
    }
  }
}
