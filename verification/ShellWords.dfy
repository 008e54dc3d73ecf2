/** The words and operators of a shell-like command line, and which manifest paths
    of it the apply policy covers already. */
module ShellWords {

  import opened Common
  import opened Paths

  const NUL: char := 0 as char
  const NL: char := 10 as char

  // Where the scan stands: the tokens so far, the word begun, the quote it is in.
  datatype Scan = Scan(out: seq<string>, word: string, quote: Option<char>, active: bool, escape: bool)

  const Start := Scan([], "", None, false, false)

  function Flush(sc: Scan): Scan {
    if sc.active then sc.(out := sc.out + [sc.word], word := "", active := false) else sc
  }

  // An operator starts here.
  predicate Operates(s: string)
    requires s != []
  {
    s[0] == '|' || s[0] == ';' || (s[0] == '&' && |s| > 1 && s[1] == '&')
  }

  // How many characters it has.
  function Width(s: string): nat
    requires s != []
  {
    if |s| > 1 && s[1] == s[0] && s[0] != ';' then 2 else 1
  }

  // One character that is no operator outside quotes.
  function Step(sc: Scan, c: char): Scan {
    if sc.escape then
      if c == NL then sc.(escape := false) else sc.(word := sc.word + [c], active := true, escape := false)
    else if c == '\\' && sc.quote != Some('\'') then sc.(escape := true)
    else if sc.quote.Some? then
      if c == sc.quote.value then sc.(quote := None) else sc.(word := sc.word + [c])
    else if c == '\'' || c == '\"' then sc.(quote := Some(c), active := true)
    else if c == NL then var f := Flush(sc); f.(out := f.out + [[NUL, ';']])
    else if IsSpace(c) then Flush(sc)
    else sc.(word := sc.word + [c], active := true)
  }

  function Operator(sc: Scan, s: string): Scan
    requires s != []
  {
    var f := Flush(sc);
    f.(out := f.out + [[NUL] + s[..Width(s)]])
  }

  predicate Plain(sc: Scan) {
    !sc.escape && sc.quote.None?
  }

  function Run(sc: Scan, s: string): Scan
    decreases |s|
  {
    if s == [] then sc
    else if Plain(sc) && Operates(s) then Run(Operator(sc, s), s[Width(s)..])
    else Run(Step(sc, s[0]), s[1..])
  }

  function Tokens(s: string): seq<string> {
    Flush(Run(Start, s)).out
  }

  /** One pass over the command line, character by character, that collects what
      Tokens is of it. */
  method CommandTokens(chars: string) returns (out: seq<string>)
    ensures out == Tokens(chars)
  {
    var word: string, quote: Option<char>, active, escape := "", None, false, false;
    out := [];
    var i := 0;
    while i < |chars|
      invariant 0 <= i <= |chars|
      invariant Run(Start, chars) == Run(Scan(out, word, quote, active, escape), chars[i..])
    {
      var c := chars[i];
      ghost var sc, s := Scan(out, word, quote, active, escape), chars[i..];
      assert s[0] == c && s[1..] == chars[i + 1..] && (i + 1 < |chars| ==> s[1] == chars[i + 1] && s[2..] == chars[i + 2..]);
      if escape {
        if c != NL {
          word, active := word + [c], true;
        }
        escape := false;
      } else if c == '\\' && quote != Some('\'') {
        escape := true;
      } else if quote.Some? {
        if c == quote.value {
          quote := None;
        } else {
          word := word + [c];
        }
      } else if c == '\'' || c == '\"' {
        quote, active := Some(c), true;
      } else if c == '|' || c == ';' || (c == '&' && i + 1 < |chars| && chars[i + 1] == '&') {
        if active {
          out, word, active := out + [word], "", false;
        }
        var op := [c];
        if i + 1 < |chars| && chars[i + 1] == c && c != ';' {
          op := op + [c];
          i := i + 1;
        }
        assert s[..Width(s)] == op;
        out := out + [[NUL] + op];
        assert Scan(out, word, quote, active, escape) == Operator(sc, s);
      } else if c == NL {
        if active {
          out, word, active := out + [word], "", false;
        }
        out := out + [[NUL, ';']];
      } else if IsSpace(c) {
        if active {
          out, word, active := out + [word], "", false;
        }
      } else {
        word, active := word + [c], true;
      }
      assert !(Plain(sc) && Operates(s)) ==> Scan(out, word, quote, active, escape) == Step(sc, c);
      i := i + 1;
    }
    if active {
      out := out + [word];
    }
  }

  // ---------- quoting ----------

  /** What a word is put together of: stretches in single or in double quotes, letters
      as they are or behind a backslash, and line ends taken away by one. */
  datatype Piece = Single(s: string) | Double(s: string) | Letter(c: char) | Escaped(c: char) | Continued

  // In double quotes a quote and a backslash have one before them.
  function Inner(s: string): string {
    if s == [] then [] else (if s[0] == '\"' || s[0] == '\\' then ['\\', s[0]] else [s[0]]) + Inner(s[1..])
  }

  function PieceText(p: Piece): string {
    match p
    case Single(s) => "'" + s + "'"
    case Double(s) => "\"" + Inner(s) + "\""
    case Letter(c) => [c]
    case Escaped(c) => ['\\', c]
    case Continued => ['\\', NL]
  }

  function PieceWord(p: Piece): string {
    match p
    case Single(s) => s
    case Double(s) => s
    case Letter(c) => [c]
    case Escaped(c) => [c]
    case Continued => []
  }

  predicate IsPiece(p: Piece) {
    match p
    case Single(s) => '\'' !in s
    case Letter(c) => !IsSpace(c) && c !in {'\\', '\'', '\"', '|', ';'}
    case Escaped(c) => c != NL
    case _ => true
  }

  // Pieces of a word; two ampersands would be an operator.
  predicate ArePieces(ps: seq<Piece>) {
    forall k :: 0 <= k < |ps| ==> IsPiece(ps[k]) && OneAmpersand(ps, k)
  }

  predicate OneAmpersand(ps: seq<Piece>, k: nat)
    requires k < |ps|
  {
    ps[k] == Letter('&') ==> k + 1 < |ps| && ps[k + 1] != Letter('&')
  }

  function PiecesText(ps: seq<Piece>): string {
    if ps == [] then [] else PieceText(ps[0]) + PiecesText(ps[1..])
  }

  function PiecesWord(ps: seq<Piece>): string {
    if ps == [] then [] else PieceWord(ps[0]) + PiecesWord(ps[1..])
  }

  // Something of the word is there, if only an empty pair of quotes.
  predicate Begun(ps: seq<Piece>) {
    exists k :: 0 <= k < |ps| && ps[k] != Continued
  }

  datatype Op = Pipe | Or | And | Semicolon | Newline

  function OpText(op: Op): string {
    match op case Pipe => "|" case Or => "||" case And => "&&" case Semicolon => ";" case Newline => [NL]
  }

  function OpToken(op: Op): string {
    if op == Newline then [NUL, ';'] else [NUL] + OpText(op)
  }

  // What a command line is put together of, white space after an item or none.
  datatype Item = Word(pieces: seq<Piece>, gap: string) | Operation(op: Op, gap: string)

  predicate IsItem(it: Item) {
    (it.Word? ==> ArePieces(it.pieces) && Begun(it.pieces)) && forall i :: 0 <= i < |it.gap| ==> IsSpace(it.gap[i]) && it.gap[i] != NL
  }

  function ItemText(it: Item): string {
    (if it.Word? then PiecesText(it.pieces) else OpText(it.op)) + it.gap
  }

  function ItemToken(it: Item): string {
    if it.Word? then PiecesWord(it.pieces) else OpToken(it.op)
  }

  function Text(items: seq<Item>): string {
    if items == [] then [] else ItemText(items[0]) + Text(items[1..])
  }

  function ItemTokens(items: seq<Item>): seq<string> {
    if items == [] then [] else [ItemToken(items[0])] + ItemTokens(items[1..])
  }

  // Two words are spaced, and so is a pipe before another: together they are one.
  predicate Parted(it: Item, next: Item) {
    it.gap == [] ==> !(it.Word? && next.Word?) && !(it == Operation(Pipe, []) && next.Operation? && (next.op == Pipe || next.op == Or))
  }

  predicate Apart(items: seq<Item>) {
    (forall i :: 0 <= i < |items| ==> IsItem(items[i])) && forall i :: 0 <= i < |items| - 1 ==> Parted(items[i], items[i + 1])
  }

  lemma {:induction false} SingleRun(sc: Scan, s: string, rest: string)
    requires !sc.escape && sc.quote == Some('\'') && '\'' !in s
    ensures Run(sc, s + "'" + rest) == Run(sc.(word := sc.word + s, quote := None), rest)
    decreases |s|
  {
    var text := s + "'" + rest;
    if s == [] {
      assert text[1..] == rest && sc.word + s == sc.word;
    } else {
      var more := s[1..] + "'" + rest;
      assert text[0] == s[0] && text[1..] == more;
      assert sc.word + s == sc.word + [s[0]] + s[1..];
      SingleRun(sc.(word := sc.word + [s[0]]), s[1..], rest);
    }
  }

  lemma {:induction false} DoubleRun(sc: Scan, s: string, rest: string)
    requires !sc.escape && sc.quote == Some('\"') && sc.active
    ensures Run(sc, Inner(s) + "\"" + rest) == Run(sc.(word := sc.word + s, quote := None), rest)
    decreases |s|
  {
    var text := Inner(s) + "\"" + rest;
    if s == [] {
      assert text[0] == '\"' && text[1..] == rest && sc.word + s == sc.word;
    } else {
      var more := Inner(s[1..]) + "\"" + rest;
      InnerStep(sc, s[0], more);
      assert text == (if s[0] == '\"' || s[0] == '\\' then ['\\', s[0]] else [s[0]]) + more;
      assert sc.word + s == sc.word + [s[0]] + s[1..];
      DoubleRun(sc.(word := sc.word + [s[0]]), s[1..], rest);
    }
  }

  lemma InnerStep(sc: Scan, c: char, more: string)
    requires !sc.escape && sc.quote == Some('\"') && sc.active
    ensures Run(sc, (if c == '\"' || c == '\\' then ['\\', c] else [c]) + more) == Run(sc.(word := sc.word + [c]), more)
  {
    if c == '\"' || c == '\\' {
      EscapeRun(sc, c, more);
    } else {
      assert ([c] + more)[1..] == more;
    }
  }

  // A backslash and what it stands before, outside single quotes.
  lemma EscapeRun(sc: Scan, c: char, more: string)
    requires !sc.escape && sc.quote != Some('\'')
    ensures Run(sc, ['\\', c] + more) == Run(if c == NL then sc else sc.(word := sc.word + [c], active := true), more)
  {
    var s := ['\\', c] + more;
    assert s[1..] == [c] + more && s[1..][1..] == more;
    var e := sc.(escape := true);
    assert Run(sc, s) == Run(e, s[1..]);
  }

  // A piece outside quotes, and a word begun.
  function Takes(sc: Scan, p: Piece): Scan {
    sc.(word := sc.word + PieceWord(p), active := sc.active || p != Continued)
  }

  lemma SingleQuoted(sc: Scan, s: string, rest: string)
    requires Plain(sc) && '\'' !in s
    ensures Run(sc, "'" + s + "'" + rest) == Run(sc.(word := sc.word + s, active := true), rest)
  {
    var text := "'" + s + "'" + rest;
    assert text[0] == '\'' && text[1..] == s + "'" + rest;
    SingleRun(sc.(quote := Some('\''), active := true), s, rest);
  }

  lemma DoubleQuoted(sc: Scan, s: string, rest: string)
    requires Plain(sc)
    ensures Run(sc, "\"" + Inner(s) + "\"" + rest) == Run(sc.(word := sc.word + s, active := true), rest)
  {
    var text := "\"" + Inner(s) + "\"" + rest;
    assert text[0] == '\"' && text[1..] == Inner(s) + "\"" + rest;
    DoubleRun(sc.(quote := Some('\"'), active := true), s, rest);
  }

  lemma PieceRun(sc: Scan, p: Piece, rest: string)
    requires Plain(sc) && IsPiece(p) && (p == Letter('&') ==> rest != [] && rest[0] != '&')
    ensures Run(sc, PieceText(p) + rest) == Run(Takes(sc, p), rest)
  {
    match p
    case Single(s) => SingleQuoted(sc, s, rest);
    case Double(s) => DoubleQuoted(sc, s, rest);
    case Letter(c) =>
      var text := [c] + rest;
      assert text[1..] == rest && !Operates(text);
    case Escaped(c) => EscapeRun(sc, c, rest);
    case Continued =>
      EscapeRun(sc, NL, rest);
      assert sc.word + [] == sc.word;
  }

  function TakesAll(sc: Scan, ps: seq<Piece>): Scan {
    sc.(word := sc.word + PiecesWord(ps), active := sc.active || Begun(ps))
  }

  lemma TakesRest(sc: Scan, ps: seq<Piece>)
    requires ps != []
    ensures TakesAll(Takes(sc, ps[0]), ps[1..]) == TakesAll(sc, ps)
  {
    assert sc.word + PieceWord(ps[0]) + PiecesWord(ps[1..]) == sc.word + (PieceWord(ps[0]) + PiecesWord(ps[1..]));
    if k :| 0 <= k < |ps| && ps[k] != Continued {
      assert k > 0 ==> ps[1..][k - 1] == ps[k];
    }
  }

  lemma PiecesRest(ps: seq<Piece>, rest: string)
    requires ps != [] && ArePieces(ps)
    ensures ArePieces(ps[1..]) && IsPiece(ps[0])
    ensures ps[0] == Letter('&') ==> var more := PiecesText(ps[1..]) + rest; more != [] && more[0] != '&'
  {
    forall k | 0 <= k < |ps[1..]| ensures IsPiece(ps[1..][k]) && OneAmpersand(ps[1..], k) {
      assert ps[1..][k] == ps[k + 1] && OneAmpersand(ps, k + 1);
    }
    if ps[0] == Letter('&') {
      assert OneAmpersand(ps, 0);
      assert PiecesText(ps[1..]) == PieceText(ps[1]) + PiecesText(ps[1..][1..]);
    }
  }

  lemma {:induction false} PiecesRun(sc: Scan, ps: seq<Piece>, rest: string)
    requires Plain(sc) && ArePieces(ps)
    ensures Run(sc, PiecesText(ps) + rest) == Run(TakesAll(sc, ps), rest)
    decreases |ps|
  {
    if ps == [] {
      assert PiecesText(ps) + rest == rest && sc.word + [] == sc.word;
    } else {
      var more := PiecesText(ps[1..]) + rest;
      PiecesRest(ps, rest);
      assert PiecesText(ps) + rest == PieceText(ps[0]) + more;
      PieceRun(sc, ps[0], more);
      PiecesRun(Takes(sc, ps[0]), ps[1..], rest);
      TakesRest(sc, ps);
    }
  }

  lemma OpRun(out: seq<string>, op: Op, rest: string)
    requires op == Pipe ==> rest == [] || rest[0] != '|'
    ensures Run(Scan(out, "", None, false, false), OpText(op) + rest) == Run(Scan(out + [OpToken(op)], "", None, false, false), rest)
  {
    var s := OpText(op) + rest;
    assert s[|OpText(op)|..] == rest && s[..|OpText(op)|] == OpText(op);
  }

  // The word begun ends here.
  predicate Ends(rest: string) {
    rest == [] || IsSpace(rest[0]) || Operates(rest)
  }

  lemma WordEnds(out: seq<string>, w: string, rest: string)
    requires Ends(rest)
    ensures Flush(Run(Scan(out, w, None, true, false), rest)) == Flush(Run(Scan(out + [w], "", None, false, false), rest))
  {
  }

  lemma {:induction false} GapRun(sc: Scan, gap: string, rest: string)
    requires Plain(sc) && !sc.active && forall i :: 0 <= i < |gap| ==> IsSpace(gap[i]) && gap[i] != NL
    ensures Run(sc, gap + rest) == Run(sc, rest)
  {
    if gap == [] {
      assert gap + rest == rest;
    } else {
      var s := gap + rest;
      assert s[0] == gap[0] && s[1..] == gap[1..] + rest;
      assert !Operates(s);
      GapRun(sc, gap[1..], rest);
    }
  }

  // What stands behind an item ends a word, and does not go on with a pipe.
  lemma Behinds(it: Item, items: seq<Item>)
    requires IsItem(it) && (items != [] ==> IsItem(items[0]) && Parted(it, items[0]))
    ensures var rest := it.gap + Text(items);
            && (it.Word? ==> Ends(rest)) && (it == Operation(Pipe, it.gap) ==> rest == [] || rest[0] != '|')
  {
    if it.gap == [] {
      assert it.gap + Text(items) == Text(items);
      if items != [] {
        TextBegins(items);
      }
    }
  }

  // Where an item's text may begin.
  lemma TextBegins(items: seq<Item>)
    requires items != [] && IsItem(items[0])
    ensures Text(items) != []
    ensures items[0].Word? ==> Text(items)[0] != '|'
    ensures items[0].Operation? ==> Ends(Text(items)) && (Text(items)[0] == '|' ==> items[0].op == Pipe || items[0].op == Or)
  {
    var it := items[0];
    if it.Word? {
      assert it.pieces != [];
      assert PiecesText(it.pieces) == PieceText(it.pieces[0]) + PiecesText(it.pieces[1..]);
      PieceBegins(it.pieces[0]);
    }
  }

  lemma PieceBegins(p: Piece)
    requires IsPiece(p)
    ensures PieceText(p) != [] && PieceText(p)[0] != '|'
  {
  }

  lemma ApartRest(items: seq<Item>)
    requires items != [] && Apart(items)
    ensures Apart(items[1..]) && IsItem(items[0]) && (items[1..] != [] ==> IsItem(items[1..][0]) && Parted(items[0], items[1..][0]))
  {
    var more := items[1..];
    forall i | 0 <= i < |more| - 1 ensures Parted(more[i], more[i + 1]) {
      assert more[i] == items[i + 1] && more[i + 1] == items[i + 2];
    }
  }

  lemma {:induction false} ItemsRun(out: seq<string>, items: seq<Item>)
    requires Apart(items)
    ensures Flush(Run(Scan(out, "", None, false, false), Text(items))).out == out + ItemTokens(items)
    decreases |items|
  {
    if items != [] {
      var it := items[0];
      ApartRest(items);
      ItemsRun(out + [ItemToken(it)], items[1..]);
      ItemRun(out, it, items[1..]);
      Joins(out, ItemToken(it), ItemTokens(items[1..]));
    }
  }

  lemma Joins(out: seq<string>, token: string, more: seq<string>)
    ensures out + [token] + more == out + ([token] + more)
  {
  }

  lemma ItemRun(out: seq<string>, it: Item, items: seq<Item>)
    requires IsItem(it) && (items != [] ==> IsItem(items[0]) && Parted(it, items[0]))
    ensures Flush(Run(Scan(out, "", None, false, false), ItemText(it) + Text(items)))
         == Flush(Run(Scan(out + [ItemToken(it)], "", None, false, false), Text(items)))
  {
    var more := Text(items);
    var rest := it.gap + more;
    assert ItemText(it) + more == (if it.Word? then PiecesText(it.pieces) else OpText(it.op)) + rest;
    Behinds(it, items);
    if it.Word? {
      var w := PiecesWord(it.pieces);
      PiecesRun(Scan(out, "", None, false, false), it.pieces, rest);
      assert "" + w == w;
      WordEnds(out, w, rest);
    } else {
      OpRun(out, it.op, rest);
    }
    GapRun(Scan(out + [ItemToken(it)], "", None, false, false), it.gap, more);
  }

  /** Quoting is undone: a line put together of words, in whatever quotes, and of
      operators comes apart into exactly those words and operators. */
  lemma QuotedComesBack(items: seq<Item>)
    requires Apart(items)
    ensures Tokens(Text(items)) == ItemTokens(items)
  {
    ItemsRun([], items);
    assert [] + ItemTokens(items) == ItemTokens(items);
  }

  /** Every word can be written so, in double quotes for one. */
  lemma AnyWord(w: string)
    ensures Apart([Word([Double(w)], [])]) && ItemTokens([Word([Double(w)], [])]) == [w]
  {
    assert [Double(w)][0] != Continued;
    assert PiecesWord([Double(w)]) == w + [];
    assert w + [] == w;
  }

  // Whether an item is a word, and which, and an operator by its effect.
  predicate Alike(a: Item, b: Item) {
    if a.Word? then b.Word? && PiecesWord(a.pieces) == PiecesWord(b.pieces)
    else b.Operation? && OpToken(a.op) == OpToken(b.op)
  }

  // No word has a NUL in it.
  predicate NoNul(items: seq<Item>) {
    forall i :: 0 <= i < |items| && items[i].Word? ==> NUL !in PiecesWord(items[i].pieces)
  }

  /** Without NUL in a word the tokens say which items they were. */
  lemma {:induction false} TokensTell(a: seq<Item>, b: seq<Item>)
    requires NoNul(a) && NoNul(b)
    requires ItemTokens(a) == ItemTokens(b)
    ensures |a| == |b| && forall i :: 0 <= i < |a| ==> Alike(a[i], b[i])
  {
    if a != [] && b != [] {
      assert ItemTokens(a)[0] == ItemTokens(b)[0] && ItemTokens(a)[1..] == ItemTokens(b)[1..];
      assert ItemTokens(a)[1..] == ItemTokens(a[1..]) && ItemTokens(b)[1..] == ItemTokens(b[1..]);
      TokensTell(a[1..], b[1..]);
      TokenTells(a[0], b[0]);
      forall i | 0 <= i < |a| ensures Alike(a[i], b[i]) {
        assert i > 0 ==> a[i] == a[1..][i - 1] && b[i] == b[1..][i - 1];
      }
    }
  }

  lemma TokenTells(a: Item, b: Item)
    requires (a.Word? ==> NUL !in PiecesWord(a.pieces)) && (b.Word? ==> NUL !in PiecesWord(b.pieces)) && ItemToken(a) == ItemToken(b)
    ensures Alike(a, b)
  {
    assert a.Operation? ==> OpToken(a.op)[0] == NUL;
    assert b.Operation? ==> OpToken(b.op)[0] == NUL;
  }

  // ---------- what the policy covers ----------

  datatype Repo = Repo(name: string, prefixes: seq<string>)

  const ValueFlags: set<string> :=
    {"--context", "-n", "--namespace", "--kubeconfig", "--cluster", "--user", "--server", "-s", "--token", "--certificate-authority",
     "--client-certificate", "--client-key", "--request-timeout", "--as", "--as-group", "--as-uid", "--tls-server-name",
     "--cache-dir", "--v", "-v"}

  // The first argument that is no flag and no flag's value.
  function Subcommand(args: seq<string>): string
    decreases |args|
  {
    if args == [] then ""
    else if !("-" <= args[0]) then args[0]
    else if !Cut(args[0], '=').2 && args[0] in ValueFlags then Subcommand(if |args| > 1 then args[2..] else [])
    else Subcommand(args[1..])
  }

  datatype Flags = Flags(server: bool, force: bool, files: seq<string>)

  const FileFlags: set<string> := {"-f", "--filename", "-k", "--kustomize"}

  function FlagsOf(args: seq<string>): Flags
    decreases |args|
  {
    if args == [] then Flags(false, false, [])
    else
      var (flag, value, equals) := Cut(args[0], '=');
      var taken := flag in FileFlags && !equals && |args| > 1;
      var more := FlagsOf(if taken then args[2..] else args[1..]);
      var on := !equals || value == "true";
      Flags((flag == "--server-side" && on) || more.server, (flag == "--force-conflicts" && on) || more.force,
            (if flag in FileFlags then Split(if taken then args[1] else value, ',') else []) + more.files)
  }

  // The file a name stands for: what a kustomize build before the pipe builds.
  function Behind(file: string, previous: seq<string>, pipe: bool): string {
    if file == "-" && pipe && |previous| >= 3 && Base(previous[0]) == "kustomize" && previous[1] == "build" then previous[2] else file
  }

  function RepoOf(repos: seq<Repo>, part: string): Option<string> {
    if exists i :: 0 <= i < |repos| && repos[i].name == part then Some(part) else None
  }

  // The repo a path names, the first of the policy otherwise, and the path in it.
  function Place(repos: seq<Repo>, file: string): (string, string) {
    PlaceFrom(repos, file, Split(file, '/'))
  }

  function PlaceFrom(repos: seq<Repo>, file: string, parts: seq<string>): (string, string) {
    if parts == [] then (if repos == [] then "" else repos[0].name, file)
    else if RepoOf(repos, parts[0]).Some? then (parts[0], Join(parts[1..], '/'))
    else PlaceFrom(repos, file, parts[1..])
  }

  ghost predicate CoversIn(repos: seq<Repo>, repo: string, file: string) {
    exists i, k :: 0 <= i < |repos| && 0 <= k < |repos[i].prefixes| && repos[i].name == repo && Beneath(file, repos[i].prefixes[k])
  }

  // A file argument is covered: its repo, or any where none is named, has a prefix for it.
  ghost predicate Covered(repos: seq<Repo>, file: string) {
    file != "" && file != "-" &&
    var (explicit, path) := Place(repos, TrimDot(file));
    if explicit != "" then CoversIn(repos, explicit, path)
    else exists i :: 0 <= i < |repos| && CoversIn(repos, repos[i].name, path)
  }

  // The file argument is placed in repo as manifest, and covered there.
  ghost predicate Hits(repos: seq<Repo>, file: string, repo: string, manifest: string) {
    && file != "" && file != "-" && CoversIn(repos, repo, manifest)
    && var (explicit, path) := Place(repos, TrimDot(file)); manifest == path && (explicit == "" || repo == explicit)
  }

  // A kubectl at j of the segment applies what is not server-side and forced.
  predicate Applies(segment: seq<string>, j: nat)
    requires j < |segment|
  {
    var args := segment[j + 1..];
    var sub := Subcommand(args);
    && Base(segment[j]) == "kubectl" && (sub == "apply" || sub == "create" || sub == "replace")
    && !(FlagsOf(args).server && FlagsOf(args).force)
  }

  ghost predicate CoveredAt(repos: seq<Repo>, segment: seq<string>, previous: seq<string>, pipe: bool, j: nat)
    requires j < |segment|
  {
    Applies(segment, j) && exists f :: f in FlagsOf(segment[j + 1..]).files && Covered(repos, Behind(f, previous, pipe))
  }

  ghost predicate CoveredSegment(repos: seq<Repo>, segment: seq<string>, previous: seq<string>, pipe: bool) {
    exists j :: 0 <= j < |segment| && CoveredAt(repos, segment, previous, pipe, j)
  }

  // It applies a file that is placed in repo as manifest.
  ghost predicate HitAt(repos: seq<Repo>, segment: seq<string>, previous: seq<string>, pipe: bool, j: nat, repo: string, manifest: string)
    requires j < |segment|
  {
    Applies(segment, j) && exists f :: f in FlagsOf(segment[j + 1..]).files && Hits(repos, Behind(f, previous, pipe), repo, manifest)
  }

  ghost predicate HitSegment(repos: seq<Repo>, segment: seq<string>, previous: seq<string>, pipe: bool, repo: string, manifest: string) {
    exists j :: 0 <= j < |segment| && HitAt(repos, segment, previous, pipe, j, repo, manifest)
  }

  // Where a file is covered: the first repo, in the policy's order, that has it.
  method CoverFile(repos: seq<Repo>, name: string) returns (repo: string, manifest: string, ok: bool)
    ensures ok <==> Covered(repos, name)
    ensures ok ==> Hits(repos, name, repo, manifest)
  {
    if name == "" || name == "-" {
      return "", "", false;
    }
    var (explicit, path) := Place(repos, TrimDot(name));
    for i := 0 to |repos|
      invariant forall h :: 0 <= h < i && (explicit == "" || repos[h].name == explicit) ==>
                  forall k :: 0 <= k < |repos[h].prefixes| ==> !Beneath(path, repos[h].prefixes[k])
    {
      if explicit != "" && explicit != repos[i].name {
        continue;
      }
      for k := 0 to |repos[i].prefixes|
        invariant forall m :: 0 <= m < k ==> !Beneath(path, repos[i].prefixes[m])
      {
        UnderMeans(path, repos[i].prefixes[k]);
        if Under(path, repos[i].prefixes[k]) {
          assert CoversIn(repos, repos[i].name, path);
          return repos[i].name, path, true;
        }
      }
    }
    return "", "", false;
  }

  method CoverFiles(repos: seq<Repo>, files: seq<string>, previous: seq<string>, pipe: bool)
    returns (repo: string, manifest: string, ok: bool)
    ensures ok <==> exists f :: f in files && Covered(repos, Behind(f, previous, pipe))
    ensures ok ==> exists f :: f in files && Hits(repos, Behind(f, previous, pipe), repo, manifest)
  {
    for f := 0 to |files|
      invariant forall h :: 0 <= h < f ==> !Covered(repos, Behind(files[h], previous, pipe))
    {
      repo, manifest, ok := CoverFile(repos, Behind(files[f], previous, pipe));
      if ok {
        assert files[f] in files;
        return;
      }
    }
    return "", "", false;
  }

  method CoverWord(repos: seq<Repo>, segment: seq<string>, previous: seq<string>, pipe: bool, j: nat)
    returns (repo: string, manifest: string, ok: bool)
    requires j < |segment|
    ensures ok <==> CoveredAt(repos, segment, previous, pipe, j)
    ensures ok ==> HitAt(repos, segment, previous, pipe, j, repo, manifest)
  {
    if !Applies(segment, j) {
      return "", "", false;
    }
    repo, manifest, ok := CoverFiles(repos, FlagsOf(segment[j + 1..]).files, previous, pipe);
  }

  method CoverSegment(repos: seq<Repo>, segment: seq<string>, previous: seq<string>, pipe: bool)
    returns (repo: string, manifest: string, ok: bool)
    ensures ok <==> CoveredSegment(repos, segment, previous, pipe)
    ensures ok ==> HitSegment(repos, segment, previous, pipe, repo, manifest)
  {
    for j := 0 to |segment|
      invariant forall h :: 0 <= h < j ==> !CoveredAt(repos, segment, previous, pipe, h)
    {
      repo, manifest, ok := CoverWord(repos, segment, previous, pipe, j);
      if ok {
        return;
      }
    }
    return "", "", false;
  }

  predicate IsOperator(token: string) {
    token != [] && token[0] == NUL
  }

  // The segment from b to i, between operators or the ends.
  predicate Segment(tokens: seq<string>, b: nat, i: nat) {
    && b <= i <= |tokens| && (b > 0 ==> IsOperator(tokens[b - 1])) && (i < |tokens| ==> IsOperator(tokens[i]))
    && forall k :: b <= k < i ==> !IsOperator(tokens[k])
  }

  // The segment that ends before the operator at b - 1.
  function Previous(tokens: seq<string>, b: nat): seq<string>
    requires b <= |tokens|
  {
    if b == 0 then [] else tokens[SegmentStart(tokens, b - 1)..b - 1]
  }

  function SegmentStart(tokens: seq<string>, i: nat): (b: nat)
    requires i <= |tokens|
    ensures b <= i
  {
    if i == 0 || IsOperator(tokens[i - 1]) then i else SegmentStart(tokens, i - 1)
  }

  lemma {:induction false} StartIs(tokens: seq<string>, b: nat, i: nat)
    requires b <= i <= |tokens| && (b > 0 ==> IsOperator(tokens[b - 1])) && forall k :: b <= k < i ==> !IsOperator(tokens[k])
    ensures SegmentStart(tokens, i) == b
  {
    if b < i {
      StartIs(tokens, b, i - 1);
    }
  }

  ghost predicate CoveredFrom(repos: seq<Repo>, tokens: seq<string>, b: nat, i: nat)
    requires b <= i <= |tokens|
  {
    Segment(tokens, b, i) &&
    CoveredSegment(repos, tokens[b..i], Previous(tokens, b), b > 0 && tokens[b - 1] == [NUL, '|'])
  }

  // The segment from b to i, the first that is covered, hits this path of this repo.
  ghost predicate FirstHit(repos: seq<Repo>, tokens: seq<string>, b: nat, i: nat, repo: string, manifest: string)
    requires b <= i <= |tokens|
  {
    && Segment(tokens, b, i) && NoneBefore(repos, tokens, i)
    && HitSegment(repos, tokens[b..i], Previous(tokens, b), b > 0 && tokens[b - 1] == [NUL, '|'], repo, manifest)
  }

  // No segment that ends before i is covered.
  ghost predicate NoneBefore(repos: seq<Repo>, tokens: seq<string>, i: nat) {
    forall c, m :: 0 <= c <= m < i && m <= |tokens| ==> !CoveredFrom(repos, tokens, c, m)
  }

  lemma NoneHere(repos: seq<Repo>, tokens: seq<string>, b: nat, i: nat)
    requires i <= |tokens| && NoneBefore(repos, tokens, i) && Segment(tokens, b, i) && !CoveredFrom(repos, tokens, b, i)
    ensures NoneBefore(repos, tokens, i + 1)
  {
    forall c, m | 0 <= c <= m < i + 1 && m <= |tokens| ensures !CoveredFrom(repos, tokens, c, m) {
      if m == i && Segment(tokens, c, i) {
        assert c == b;
      }
    }
  }

  lemma NoneInside(repos: seq<Repo>, tokens: seq<string>, i: nat)
    requires i < |tokens| && NoneBefore(repos, tokens, i) && !IsOperator(tokens[i])
    ensures NoneBefore(repos, tokens, i + 1)
  {
  }

  // The scan stands at i, in the segment that starts at b.
  predicate In(tokens: seq<string>, b: nat, i: nat, segment: seq<string>, previous: seq<string>, pipe: bool) {
    && b <= i <= |tokens| && (b > 0 ==> IsOperator(tokens[b - 1])) && (forall k :: b <= k < i ==> !IsOperator(tokens[k]))
    && segment == tokens[b..i] && previous == Previous(tokens, b) && pipe == (b > 0 && tokens[b - 1] == [NUL, '|'])
  }

  lemma InNext(tokens: seq<string>, b: nat, i: nat, segment: seq<string>, previous: seq<string>, pipe: bool)
    requires In(tokens, b, i, segment, previous, pipe) && i < |tokens|
    ensures if IsOperator(tokens[i]) then In(tokens, i + 1, i + 1, [], segment, tokens[i] == [NUL, '|'])
            else In(tokens, b, i + 1, segment + [tokens[i]], previous, pipe)
  {
    if IsOperator(tokens[i]) {
      StartIs(tokens, b, i);
    }
  }

  lemma HitHere(repos: seq<Repo>, tokens: seq<string>, b: nat, i: nat, segment: seq<string>, previous: seq<string>, pipe: bool,
                repo: string, manifest: string)
    requires In(tokens, b, i, segment, previous, pipe) && (i < |tokens| ==> IsOperator(tokens[i])) && NoneBefore(repos, tokens, i)
    requires CoveredSegment(repos, segment, previous, pipe) && HitSegment(repos, segment, previous, pipe, repo, manifest)
    ensures b <= i <= |tokens| && CoveredFrom(repos, tokens, b, i) && FirstHit(repos, tokens, b, i, repo, manifest)
  {
  }

  method CoverTokens(repos: seq<Repo>, tokens: seq<string>) returns (repo: string, manifest: string, ok: bool)
    ensures ok ==> exists b, i :: 0 <= b <= i <= |tokens| && FirstHit(repos, tokens, b, i, repo, manifest)
    ensures ok <==> exists b, i :: 0 <= b <= i <= |tokens| && CoveredFrom(repos, tokens, b, i)
  {
    var previous: seq<string>, segment: seq<string>, pipe := [], [], false;
    ghost var b := 0;
    var i := 0;
    while true
      invariant In(tokens, b, i, segment, previous, pipe) && NoneBefore(repos, tokens, i)
      decreases |tokens| - i
    {
      if i < |tokens| && !IsOperator(tokens[i]) {
        InNext(tokens, b, i, segment, previous, pipe);
        NoneInside(repos, tokens, i);
        segment := segment + [tokens[i]];
        i := i + 1;
        continue;
      }
      repo, manifest, ok := CoverSegment(repos, segment, previous, pipe);
      if ok {
        HitHere(repos, tokens, b, i, segment, previous, pipe, repo, manifest);
        return;
      }
      NoneHere(repos, tokens, b, i);
      if i == |tokens| {
        return "", "", false;
      }
      InNext(tokens, b, i, segment, previous, pipe);
      previous, segment := segment, [];
      pipe := tokens[i] == [NUL, '|'];
      i := i + 1;
      b := i;
    }
  }

  /** Whether the command applies a file that the policy covers, and where: the path
      and the repo a file of the first such segment is placed in. */
  method CoveredBy(repos: seq<Repo>, command: string) returns (repo: string, manifest: string, ok: bool)
    ensures ok ==> CoversIn(repos, repo, manifest)
    ensures ok ==> exists b, i :: 0 <= b <= i <= |Tokens(command)| && FirstHit(repos, Tokens(command), b, i, repo, manifest)
    ensures ok <==> exists b, i :: 0 <= b <= i <= |Tokens(command)| && CoveredFrom(repos, Tokens(command), b, i)
  {
    var tokens := CommandTokens(command);
    repo, manifest, ok := CoverTokens(repos, tokens);
    if ok {
      ghost var b, i :| 0 <= b <= i <= |tokens| && FirstHit(repos, tokens, b, i, repo, manifest);
    }
  }
}
