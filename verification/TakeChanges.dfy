/** Bringing what an executor changed in its working tree into the judged one: a
    walk that writes and removes files, and the overlay of trees it comes to. */
module TakeChanges {

  import opened Common

  // The names from the tree's root to an entry.
  type Path = p: seq<string> | |p| > 0 witness ["x"]

  type Body = seq<char>

  // A link leads to a file or a directory of its tree; what is none of these is a
  // socket, a device or a pipe.
  datatype Node = File(body: Body) | Link(to: Path) | Special

  // A tree's entries that are no directories.
  type Files = map<Path, Node>

  // ---------- what is protected ----------

  const ProtectedDirs: set<string> :=
    {".git", "node_modules", "__tests__", "__fixtures__", "__mocks__", "testdata", "test", "tests", "_pytest", ".pytest_cache", ".bench"}

  const ProtectedFiles: seq<string> :=
    ["*_test.go", "test_*.py", "*_test.py", "conftest.py", "*.test.ts", "*.test.tsx", "*.spec.ts",
     "*.spec.tsx", "*.test.js", "*.test.mjs", "*.test.cjs", "test_*.sh", "*_test.sh", "vitest.config.*", "vitest.workspace.*",
     "vite.config.*", "jest.config.*", "tsconfig*.json", "pytest.ini", ".pytest.ini", "pytest.toml", ".pytest.toml", "tox.ini",
     "setup.cfg", "pyproject.toml", "package.json", "package-lock.json", "npm-shrinkwrap.json", ".npmrc", "go.mod", "go.sum",
     "go.work", "go.work.sum", "pytest.py", "sitecustomize.py", "usercustomize.py", "*.pth"]

  // A pattern's star stands for any run of characters of a name.
  predicate Match(pattern: string, name: string)
    decreases |pattern| + |name|
  {
    if pattern == [] then name == []
    else if pattern[0] == '*' then Match(pattern[1..], name) || (name != [] && Match(pattern, name[1..]))
    else name != [] && name[0] == pattern[0] && Match(pattern[1..], name[1..])
  }

  // Beneath a directory the walks never enter.
  predicate Beneath(p: Path) {
    exists i :: 0 <= i < |p| - 1 && p[i] in ProtectedDirs
  }

  predicate Named(p: Path) {
    exists i :: 0 <= i < |ProtectedFiles| && Match(ProtectedFiles[i], p[|p|-1])
  }

  predicate Protected(p: Path) {
    Beneath(p) || Named(p)
  }

  // ---------- links ----------

  // The length of the first link p lies beneath, from k on: 0 where there is none.
  function LinkFrom(t: Files, p: Path, k: nat): nat
    requires 0 < k
    decreases |p| - k
  {
    if k >= |p| then 0
    else if p[..k] in t && t[p[..k]].Link? then k
    else LinkFrom(t, p, k + 1)
  }

  function LinkOver(t: Files, p: Path): nat {
    LinkFrom(t, p, 1)
  }

  lemma {:induction false} LinkFromIs(t: Files, p: Path, k: nat)
    requires 0 < k
    ensures var n := LinkFrom(t, p, k);
            if n > 0 then k <= n < |p| && p[..n] in t && t[p[..n]].Link?
            else forall i :: k <= i < |p| ==> p[..i] in t ==> !t[p[..i]].Link?
    decreases |p| - k
  {
    if k < |p| && !(p[..k] in t && t[p[..k]].Link?) {
      LinkFromIs(t, p, k + 1);
    }
  }

  // Where p is once the link it lies beneath is followed.
  function Target(t: Files, p: Path): Path {
    LinkFromIs(t, p, 1);
    var n := LinkOver(t, p);
    if n == 0 then p else t[p[..n]].to + p[n..]
  }

  predicate Regular(t: Files, p: Path) {
    p in t && t[p].File?
  }

  // The body of the file at p, if one is.
  function BodyAt(t: Files, p: Path): seq<Body> {
    if Regular(t, p) then [t[p].body] else []
  }

  // What reading an entry gives, a link followed to its file.
  function Read(t: Files, q: Path): seq<Body> {
    if q in t && t[q].Link? then BodyAt(t, t[q].to) else BodyAt(t, q)
  }

  // What reading p gives: links on the way and p's own are followed.
  function ReadFile(t: Files, p: Path): seq<Body> {
    Read(t, Target(t, p))
  }

  // No entry lies beneath another that is no directory.
  ghost predicate IsTree(t: Files) {
    forall p, q :: p in t && q in t ==> !(p < q)
  }

  // No link is, lies beneath or lies above what a link leads to.
  ghost predicate PlainLinks(t: Files) {
    forall p, q :: p in t && q in t && t[p].Link? && t[q].Link? ==> !(q <= t[p].to) && !(t[p].to <= q)
  }

  // ---------- the walk ----------

  // What is taken from work: an unprotected regular file.
  predicate Taken(work: Files, p: Path) {
    Regular(work, p) && !Protected(p)
  }

  // The judged tree once the first walk was at p.
  function Bring(work: Files, judge: Files, p: Path): Files {
    if Taken(work, p) && ReadFile(judge, p) != [work[p].body] then judge[Target(judge, p) := work[p]] else judge
  }

  function BringAll(work: Files, judge: Files, order: seq<Path>): Files {
    if order == [] then judge else Bring(work, BringAll(work, judge, order[..|order|-1]), order[|order|-1])
  }

  // A regular file beneath a link of work is found there by its path: `through`
  // holds all such paths, wherever work's links lead.
  predicate Found(work: Files, through: set<Path>, p: Path) {
    Regular(work, p) || (LinkOver(work, p) > 0 && p in through)
  }

  // What the second walk finds gone from work.
  predicate Gone(work: Files, through: set<Path>, p: Path) {
    !Protected(p) && !Found(work, through, p)
  }

  function Removed(work: Files, through: set<Path>, judge: Files): Files {
    map p | p in judge && !Gone(work, through, p) :: judge[p]
  }

  // Counted as not taken, when the walk is at p.
  predicate Drops(work: Files, judge: Files, p: Path) {
    p in work && (!Regular(work, p) || (Protected(p) && ReadFile(judge, p) != [work[p].body]))
  }

  function DropsOf(work: Files, judge: Files, order: seq<Path>): nat {
    if order == [] then 0
    else
      var front, p := order[..|order|-1], order[|order|-1];
      DropsOf(work, judge, front) + if Drops(work, BringAll(work, judge, front), p) then 1 else 0
  }

  // The walk comes to p before q: name by name, each directory's in lexical order.
  predicate Before(p: seq<string>, q: seq<string>) {
    q != [] && (p == [] || if p[0] == q[0] then Before(p[1..], q[1..]) else Leq(p[0], q[0]))
  }

  // (Closed as Plain is: only the inputs given below need to look inside.)
  ghost predicate InOrder(order: seq<Path>) {
    forall u: int {:trigger AsksOrder(order, u)} :: AsksOrder(order, u) ==>
      forall i, j :: 0 <= i < j < |order| ==> Before(order[i], order[j])
  }

  ghost predicate AsksOrder(order: seq<Path>, u: int) { true }

  // The walk is at each entry of work once, in its order, but at none beneath a
  // protected directory.
  ghost predicate Walks(work: Files, order: seq<Path>) {
    && (forall i, j :: 0 <= i < j < |order| ==> order[i] != order[j])
    && InOrder(order)
    && (forall p :: p in order <==> p in work && !Beneath(p))
  }

  // How much is written of what work has at p, and by the walk so far.
  function Cost(work: Files, judge: Files, p: Path): nat {
    if Taken(work, p) && ReadFile(judge, p) != [work[p].body] then |work[p].body| else 0
  }

  function CostOf(work: Files, judge: Files, order: seq<Path>): nat {
    if order == [] then 0
    else
      var front, p := order[..|order|-1], order[|order|-1];
      CostOf(work, judge, front) + Cost(work, BringAll(work, judge, front), p)
  }

  lemma {:induction false} CostGrows(work: Files, judge: Files, order: seq<Path>, i: nat)
    requires i <= |order|
    ensures CostOf(work, judge, order[..i]) <= CostOf(work, judge, order)
  {
    if i == |order| {
      assert order[..i] == order;
    } else {
      assert order[..|order|-1][..i] == order[..i];
      CostGrows(work, judge, order[..|order|-1], i);
    }
  }

  predicate SameAt(t: Files, u: Files, p: Path) {
    (p in t <==> p in u) && (p in t ==> t[p] == u[p])
  }

  // ---------- the judged tree through the walk ----------

  // Two trees, the judged one with plain links. (Opened by PlainMeans only, to keep
  // the proofs along the walk small.)
  ghost predicate Plain(work: Files, judge: Files) {
    forall u: int {:trigger AsksPlain(work, judge, u)} :: AsksPlain(work, judge, u) ==>
      IsTree(work) && IsTree(judge) && PlainLinks(judge)
  }

  ghost predicate AsksPlain(work: Files, judge: Files, u: int) { true }

  lemma PlainMeans(work: Files, judge: Files)
    requires Plain(work, judge)
    ensures IsTree(work) && IsTree(judge) && PlainLinks(judge)
  {
    assert AsksPlain(work, judge, 0);
  }

  ghost predicate Trees(work: Files, judge: Files, order: seq<Path>) {
    Plain(work, judge) && Walks(work, order)
  }

  lemma LeadsPlain(work: Files, judge: Files, q: Path)
    requires Plain(work, judge) && q in judge && judge[q].Link?
    ensures judge[q].to in judge ==> !judge[judge[q].to].Link?
  {
    PlainMeans(work, judge);
  }

  // The judged tree once the first walk was at the first i entries.
  function After(work: Files, judge: Files, order: seq<Path>, i: nat): Files
    requires i <= |order|
  {
    BringAll(work, judge, order[..i])
  }

  lemma AfterNext(work: Files, judge: Files, order: seq<Path>, i: nat)
    requires i < |order|
    ensures After(work, judge, order, i + 1) == Bring(work, After(work, judge, order, i), order[i])
  {
    assert order[..i + 1][..i] == order[..i];
  }

  // What links there are were there, but for those work has a file in place of;
  // those entries of work lie beneath are as they were.
  ghost predicate LinksStay(work: Files, judge: Files, t: Files) {
    && (forall p :: p in t && t[p].Link? ==> p in judge && judge[p] == t[p])
    && (forall p :: p in judge && judge[p].Link? ==> SameAt(t, judge, p) || p in work)
  }

  // So entries of work keep their place.
  lemma {:induction false} SameLink(work: Files, judge: Files, t: Files, p: Path, k: nat)
    requires 0 < k && LinksStay(work, judge, t) && IsTree(work) && p in work
    ensures var n := LinkFrom(judge, p, k);
            LinkFrom(t, p, k) == n && (0 < n < |p| ==> p[..n] in judge ==> SameAt(t, judge, p[..n]))
    decreases |p| - k
  {
    if k < |p| {
      assert p[..k] < p && p[..k] !in work;
      SameLink(work, judge, t, p, k + 1);
    }
  }

  lemma SameTarget(work: Files, judge: Files, t: Files, p: Path)
    requires LinksStay(work, judge, t) && IsTree(work) && p in work
    ensures LinkOver(t, p) == LinkOver(judge, p) && Target(t, p) == Target(judge, p)
  {
    SameLink(work, judge, t, p, 1);
    LinkFromIs(judge, p, 1);
  }

  // Of two that do not begin each other, not both begin a third.
  lemma NotBoth(a: seq<string>, b: seq<string>, p: seq<string>)
    requires !(a <= b) && !(b <= a)
    ensures !(a <= p) || !(b <= p)
  {
  }

  // What lies beneath a link leads elsewhere, to what is no link.
  lemma TargetIsPlain(judge: Files, p: Path)
    requires PlainLinks(judge) && LinkOver(judge, p) > 0
    ensures var q := Target(judge, p); q != p && LinkOver(judge, q) == 0 && (q in judge ==> !judge[q].Link?)
  {
    LinkFromIs(judge, p, 1);
    var d, q := p[..LinkOver(judge, p)], Target(judge, p);
    assert judge[d].to <= q;
    NotBoth(d, judge[d].to, p);
    forall e | e in judge && judge[e].Link? ensures !(e <= q) {
      NotBoth(e, judge[d].to, q);
    }
    LinkFromIs(judge, q, 1);
  }

  // A link lies beneath none.
  lemma LinkIsTop(judge: Files, q: Path)
    requires IsTree(judge) && q in judge
    ensures LinkOver(judge, q) == 0 && Target(judge, q) == q
  {
    LinkFromIs(judge, q, 1);
    assert forall i :: 0 < i < |q| ==> q[..i] < q;
  }

  /** What the walk makes of the judged tree at one entry, by where that entry led
      to begin with; only its own file replaces a link. */
  lemma StepIs(work: Files, judge: Files, t: Files, p: Path)
    requires LinksStay(work, judge, t) && Plain(work, judge) && p in work
    ensures var q := Target(judge, p);
            && Target(t, p) == q && ReadFile(t, p) == Read(t, q)
            && Bring(work, t, p) == (if Taken(work, p) && Read(t, q) != [work[p].body] then t[q := work[p]] else t)
            && (q in judge && judge[q].Link? ==> p == q)
  {
    PlainMeans(work, judge);
    SameTarget(work, judge, t, p);
    if LinkOver(judge, p) > 0 {
      TargetIsPlain(judge, p);
    }
  }

  lemma LinksStep(work: Files, judge: Files, t: Files, p: Path)
    requires LinksStay(work, judge, t) && Plain(work, judge) && p in work
    ensures LinksStay(work, judge, Bring(work, t, p))
  {
    StepIs(work, judge, t, p);
  }

  lemma {:induction false} LinksAfter(work: Files, judge: Files, order: seq<Path>, i: nat)
    requires Trees(work, judge, order) && i <= |order|
    ensures LinksStay(work, judge, After(work, judge, order, i))
  {
    if i > 0 {
      LinksAfter(work, judge, order, i - 1);
      AfterNext(work, judge, order, i - 1);
      assert order[i - 1] in order;
      LinksStep(work, judge, After(work, judge, order, i - 1), order[i - 1]);
    }
  }

  // The last of the first i entries that is brought to q: its index and one, 0 for none.
  function LastTo(work: Files, judge: Files, order: seq<Path>, i: nat, q: Path): nat
    requires i <= |order|
  {
    if i == 0 then 0
    else if Taken(work, order[i - 1]) && Target(judge, order[i - 1]) == q then i
    else LastTo(work, judge, order, i - 1, q)
  }

  lemma {:induction false} LastToIs(work: Files, judge: Files, order: seq<Path>, i: nat, q: Path)
    requires i <= |order|
    ensures var j := LastTo(work, judge, order, i, q);
            j <= i && (j > 0 ==> Taken(work, order[j - 1]) && Target(judge, order[j - 1]) == q)
            && forall k :: j <= k < i ==> !(Taken(work, order[k]) && Target(judge, order[k]) == q)
  {
    if i > 0 {
      LastToIs(work, judge, order, i - 1, q);
    }
  }

  /** The file at q after the first i entries: that of the last brought there, or
      the one that was. */
  function Held(work: Files, judge: Files, order: seq<Path>, i: nat, q: Path): seq<Body>
    requires i <= |order|
  {
    LastToIs(work, judge, order, i, q);
    var j := LastTo(work, judge, order, i, q);
    if j > 0 then [work[order[j - 1]].body] else BodyAt(judge, q)
  }

  lemma HeldNext(work: Files, judge: Files, order: seq<Path>, i: nat, q: Path)
    requires i < |order|
    ensures var brought := Taken(work, order[i]) && Target(judge, order[i]) == q;
            && Held(work, judge, order, i + 1, q) == (if brought then [work[order[i]].body] else Held(work, judge, order, i, q))
            && LastTo(work, judge, order, i + 1, q) == (if brought then i + 1 else LastTo(work, judge, order, i, q))
  {
  }

  // One entry more, where the judged tree has no link.
  lemma HeldStep(work: Files, judge: Files, t: Files, p: Path, q: Path)
    requires LinksStay(work, judge, t) && Plain(work, judge) && p in work
    requires q in judge ==> !judge[q].Link?
    ensures var u := Bring(work, t, p);
            if Taken(work, p) && Target(judge, p) == q then BodyAt(u, q) == [work[p].body] else SameAt(u, t, q)
  {
    StepIs(work, judge, t, p);
  }

  ghost predicate Holds(work: Files, judge: Files, order: seq<Path>, i: nat, q: Path, t: Files)
    requires i <= |order|
  {
    BodyAt(t, q) == Held(work, judge, order, i, q) && (LastTo(work, judge, order, i, q) == 0 ==> SameAt(t, judge, q))
  }

  lemma HoldsStep(work: Files, judge: Files, order: seq<Path>, i: nat, q: Path, t: Files)
    requires LinksStay(work, judge, t) && Plain(work, judge) && (q in judge ==> !judge[q].Link?)
    requires i < |order| && order[i] in work && Holds(work, judge, order, i, q, t)
    ensures Holds(work, judge, order, i + 1, q, Bring(work, t, order[i]))
  {
    HeldStep(work, judge, t, order[i], q);
    HeldNext(work, judge, order, i, q);
  }

  // Where the walk comes to next.
  lemma AtNext(work: Files, judge: Files, order: seq<Path>, i: nat)
    requires Trees(work, judge, order) && i < |order|
    ensures order[i] in work && LinksStay(work, judge, After(work, judge, order, i))
    ensures After(work, judge, order, i + 1) == Bring(work, After(work, judge, order, i), order[i])
  {
    assert order[i] in order;
    LinksAfter(work, judge, order, i);
    AfterNext(work, judge, order, i);
  }

  // Where the judged tree has no link, what it holds after i entries is Held.
  lemma {:induction false} HeldIs(work: Files, judge: Files, order: seq<Path>, i: nat, q: Path)
    requires Trees(work, judge, order) && i <= |order| && (q in judge ==> !judge[q].Link?)
    ensures Holds(work, judge, order, i, q, After(work, judge, order, i))
  {
    if i > 0 {
      HeldIs(work, judge, order, i - 1, q);
      AtNext(work, judge, order, i - 1);
      HoldsStep(work, judge, order, i - 1, q, After(work, judge, order, i - 1));
    }
  }

  // The link at q is replaced once the walk was at q, if work has another file there.
  predicate Replaces(work: Files, judge: Files, order: seq<Path>, a: nat, q: Path)
    requires a < |order| && q in judge && judge[q].Link?
  {
    Taken(work, q) && Held(work, judge, order, a, judge[q].to) != [work[q].body]
  }

  // One entry more, where the judged tree has a link.
  lemma LinkStep(work: Files, judge: Files, t: Files, p: Path, q: Path)
    requires LinksStay(work, judge, t) && Plain(work, judge) && p in work
    requires q in judge && judge[q].Link?
    ensures var u := Bring(work, t, p);
            && (p != q || !Taken(work, q) ==> SameAt(u, t, q))
            && (p == q && SameAt(t, judge, q) && Taken(work, q) ==>
                  if BodyAt(t, judge[q].to) != [work[q].body] then q in u && u[q] == work[q] else SameAt(u, judge, q))
  {
    PlainMeans(work, judge);
    StepIs(work, judge, t, p);
    LinkIsTop(judge, q);
  }

  // The link order[a] is still there, or replaced.
  ghost predicate LinkAt(work: Files, judge: Files, order: seq<Path>, i: nat, a: nat, t: Files)
    requires a < |order| && order[a] in judge && judge[order[a]].Link?
  {
    if a < i && Replaces(work, judge, order, a, order[a]) then order[a] in t && t[order[a]] == work[order[a]]
    else SameAt(t, judge, order[a])
  }

  lemma LinkAtStep(work: Files, judge: Files, order: seq<Path>, i: nat, a: nat, t: Files)
    requires LinksStay(work, judge, t) && Plain(work, judge)
    requires i < |order| && order[i] in work && a < |order| && order[a] in judge && judge[order[a]].Link? && (i != a ==> order[i] != order[a])
    requires LinkAt(work, judge, order, i, a, t)
    requires i == a ==> BodyAt(t, judge[order[a]].to) == Held(work, judge, order, a, judge[order[a]].to)
    ensures LinkAt(work, judge, order, i + 1, a, Bring(work, t, order[i]))
  {
    LinkStep(work, judge, t, order[i], order[a]);
  }

  lemma LinkIsNext(work: Files, judge: Files, order: seq<Path>, i: nat, a: nat)
    requires Trees(work, judge, order) && i < |order| && a < |order| && order[a] in judge && judge[order[a]].Link?
    requires LinkAt(work, judge, order, i, a, After(work, judge, order, i))
    ensures LinkAt(work, judge, order, i + 1, a, After(work, judge, order, i + 1))
  {
    AtNext(work, judge, order, i);
    LeadsPlain(work, judge, order[a]);
    if a == i {
      HeldIs(work, judge, order, a, judge[order[a]].to);
    }
    Apart(order, i, a);
    LinkAtStep(work, judge, order, i, a, After(work, judge, order, i));
  }

  lemma {:induction false} LinkIs(work: Files, judge: Files, order: seq<Path>, i: nat, a: nat)
    requires Trees(work, judge, order) && i <= |order| && a < |order| && order[a] in judge && judge[order[a]].Link?
    ensures LinkAt(work, judge, order, i, a, After(work, judge, order, i))
  {
    if i > 0 {
      LinkIs(work, judge, order, i - 1, a);
      LinkIsNext(work, judge, order, i - 1, a);
    } else {
      assert order[..0] == [];
    }
  }

  lemma Apart(order: seq<Path>, i: nat, a: nat)
    requires (forall i, j :: 0 <= i < j < |order| ==> order[i] != order[j]) && i < |order| && a < |order|
    ensures i != a ==> order[i] != order[a]
  {
  }

  lemma {:induction false} LinkLeft(work: Files, judge: Files, order: seq<Path>, i: nat, q: Path)
    requires Trees(work, judge, order) && i <= |order| && q in judge && judge[q].Link? && !Taken(work, q)
    ensures SameAt(After(work, judge, order, i), judge, q)
  {
    if i > 0 {
      LinkLeft(work, judge, order, i - 1, q);
      AtNext(work, judge, order, i - 1);
      LinkStep(work, judge, After(work, judge, order, i - 1), order[i - 1], q);
    }
  }

  // ---------- what is protected stays ----------

  // A protected path is as it was, unless the last that work brings to it through a
  // link has another body.
  predicate Stays(work: Files, judge: Files, order: seq<Path>, q: Path) {
    || (q in judge && judge[q].Link?)
    || LastTo(work, judge, order, |order|, q) == 0
    || (Regular(judge, q) && Held(work, judge, order, |order|, q) == [judge[q].body])
  }

  function Judge(work: Files, through: set<Path>, judge: Files, order: seq<Path>): Files {
    Removed(work, through, BringAll(work, judge, order))
  }

  /** A protected path stays as it was exactly when the last that work brings to it,
      through a link of the judged tree, has the body it had, or nothing is brought. */
  lemma ProtectedStaysIff(work: Files, through: set<Path>, judge: Files, order: seq<Path>, q: Path)
    requires Trees(work, judge, order) && Protected(q)
    ensures SameAt(Judge(work, through, judge, order), judge, q) <==> Stays(work, judge, order, q)
  {
    assert order[..|order|] == order;
    if q in judge && judge[q].Link? {
      LinkLeft(work, judge, order, |order|, q);
    } else {
      HeldIs(work, judge, order, |order|, q);
      LastToIs(work, judge, order, |order|, q);
    }
  }

  // Nothing work takes lies beneath a link that leads to what is protected.
  ghost predicate NoneLedTo(work: Files, judge: Files, q: Path) {
    forall p :: Taken(work, p) ==> Target(judge, p) != q
  }

  /** A link to a protected directory lets a protected file be changed: any file
      beneath it, where work has a directory in the link's place. */
  lemma ProtectedCanChange(d: Path, to: Path, name: string) returns (work: Files, judge: Files, order: seq<Path>)
    requires !Protected(d + [name]) && Protected(to + [name]) && !(d <= to) && !(to <= d)
    ensures Trees(work, judge, order) && d in judge && judge[d] == Link(to)
    ensures forall through :: !SameAt(Judge(work, through, judge, order), judge, to + [name])
  {
    var p, q := d + [name], to + [name];
    work := map[p := File("x")];
    judge := map[d := Link(to), q := File("y")];
    order := [p];
    assert p in order;
    Leads(judge, d, to, name);
    forall through ensures !SameAt(Judge(work, through, judge, order), judge, q) {
      ProtectedStaysIff(work, through, judge, order, q);
      assert LastTo(work, judge, order, 1, q) == 1;
    }
  }

  // The only link of a tree leads what lies beneath it.
  lemma Leads(judge: Files, d: Path, to: Path, name: string)
    requires d in judge && judge[d] == Link(to) && forall e :: e in judge && judge[e].Link? ==> e == d
    ensures Target(judge, d + [name]) == to + [name]
  {
    var p := d + [name];
    LinkFromIs(judge, p, 1);
    assert p[..|d|] == d;
    assert p[|d|..] == [name];
  }

  // ---------- what reads as it should ----------

  // Whether a taken path reads as work's file once all is done.
  predicate ReadsRight(work: Files, through: set<Path>, judge: Files, order: seq<Path>, a: Path)
    requires Taken(work, a)
  {
    ReadFile(Judge(work, through, judge, order), a) == [work[a].body]
  }

  // What is at q once all is done, by what is brought there last and by what work has.
  predicate Lasts(work: Files, through: set<Path>, judge: Files, order: seq<Path>, q: Path, body: Body) {
    Held(work, judge, order, |order|, q) == [body] && !Gone(work, through, q)
  }

  /** When a taken path, the i-th the walk is at, comes to read as work's file:
      - beneath a link, only if that link is protected and the file led to lasts;
      - a link itself, if it did not read so when the walk was there, and is
        replaced, or if it did and the file it leads to lasts so;
      - else if what is brought there last, through a link perhaps, has its body. */
  predicate Right(work: Files, through: set<Path>, judge: Files, order: seq<Path>, i: nat)
    requires i < |order| && Taken(work, order[i])
  {
    var a, n := order[i], LinkOver(judge, order[i]);
    var body := work[a].body;
    LinkFromIs(judge, a, 1);
    if n > 0 then Protected(a[..n]) && Lasts(work, through, judge, order, Target(judge, a), body)
    else if a in judge && judge[a].Link? then
      Held(work, judge, order, i, judge[a].to) != [body] || Lasts(work, through, judge, order, judge[a].to, body)
    else Held(work, judge, order, |order|, a) == [body]
  }

  // Links are gone with the walk, none comes.
  lemma NoLinkOver(judge: Files, t: Files, a: Path)
    requires LinkOver(judge, a) == 0 && forall p :: p in t && t[p].Link? ==> p in judge && judge[p].Link?
    ensures LinkOver(t, a) == 0
  {
    LinkFromIs(judge, a, 1);
    LinkFromIs(t, a, 1);
  }

  // The links that are left.
  lemma LinksLeft(work: Files, through: set<Path>, judge: Files, order: seq<Path>)
    requires Trees(work, judge, order)
    ensures var f := Judge(work, through, judge, order); forall p :: p in f && f[p].Link? ==> p in judge && judge[p] == f[p]
  {
    LinksAfter(work, judge, order, |order|);
    assert order[..|order|] == order;
  }

  // What lasts at a place without a link of its own.
  lemma HeldLasts(work: Files, through: set<Path>, judge: Files, order: seq<Path>, q: Path)
    requires Trees(work, judge, order) && (q in judge ==> !judge[q].Link?)
    ensures BodyAt(Judge(work, through, judge, order), q) ==
            if Gone(work, through, q) then [] else Held(work, judge, order, |order|, q)
  {
    HeldIs(work, judge, order, |order|, q);
    assert order[..|order|] == order;
  }

  lemma ReadPlain(work: Files, through: set<Path>, judge: Files, order: seq<Path>, a: Path)
    requires Trees(work, judge, order) && Taken(work, a) && LinkOver(judge, a) == 0 && (a in judge ==> !judge[a].Link?)
    ensures ReadFile(Judge(work, through, judge, order), a) == Held(work, judge, order, |order|, a)
  {
    LinksLeft(work, through, judge, order);
    NoLinkOver(judge, Judge(work, through, judge, order), a);
    HeldLasts(work, through, judge, order, a);
  }

  lemma ReadLink(work: Files, through: set<Path>, judge: Files, order: seq<Path>, i: nat)
    requires Trees(work, judge, order) && i < |order| && Taken(work, order[i]) && order[i] in judge && judge[order[i]].Link?
    ensures ReadsRight(work, through, judge, order, order[i]) <==> Right(work, through, judge, order, i)
  {
    var a, f := order[i], Judge(work, through, judge, order);
    PlainMeans(work, judge);
    LinkIsTop(judge, a);
    LinksLeft(work, through, judge, order);
    NoLinkOver(judge, f, a);
    LinkIs(work, judge, order, |order|, i);
    assert order[..|order|] == order;
    LeadsPlain(work, judge, a);
    HeldLasts(work, through, judge, order, judge[a].to);
  }

  // Beneath an unprotected link nothing is left: the link is gone, and nothing was
  // in its place.
  lemma ReadBeneath(work: Files, through: set<Path>, judge: Files, order: seq<Path>, a: Path)
    requires Trees(work, judge, order) && Taken(work, a) && LinkOver(judge, a) > 0
    ensures ReadsRight(work, through, judge, order, a) <==>
            Protected(a[..LinkAbove(judge, a)]) && Lasts(work, through, judge, order, Target(judge, a), work[a].body)
  {
    var f, n, q := Judge(work, through, judge, order), LinkAbove(judge, a), Target(judge, a);
    var d := a[..n];
    PlainMeans(work, judge);
    TargetIsPlain(judge, a);
    LinksLeft(work, through, judge, order);
    LinkAboveStays(work, through, judge, order, a);
    if Protected(d) {
      OnlyLink(judge, f, a);
      HeldLasts(work, through, judge, order, q);
    } else {
      NoneAbove(judge, f, a);
      assert d < a && a !in judge;
      NothingLedTo(work, judge, order, |order|, a);
      HeldLasts(work, through, judge, order, a);
    }
  }

  // The length of the link a lies beneath.
  function LinkAbove(judge: Files, a: Path): (n: nat)
    requires LinkOver(judge, a) > 0
    ensures 0 < n < |a| && a[..n] in judge && judge[a[..n]].Link?
  {
    LinkFromIs(judge, a, 1);
    LinkOver(judge, a)
  }

  // It is left exactly when it is protected: work has a directory in its place.
  lemma LinkAboveStays(work: Files, through: set<Path>, judge: Files, order: seq<Path>, a: Path)
    requires Trees(work, judge, order) && a in work && LinkOver(judge, a) > 0
    ensures var d, f := a[..LinkAbove(judge, a)], Judge(work, through, judge, order);
            if Protected(d) then SameAt(f, judge, d) else d !in f
  {
    var n := LinkAbove(judge, a);
    var d := a[..n];
    PlainMeans(work, judge);
    assert d < a && d !in work;
    LinkFromIs(work, d, 1);
    assert forall k :: 0 < k < n ==> d[..k] == a[..k] && a[..k] < a;
    LinkLeft(work, judge, order, |order|, d);
    assert order[..|order|] == order;
  }

  // Of a tree's links a path lies beneath one at most.
  lemma OnlyLink(judge: Files, t: Files, a: Path)
    requires IsTree(judge) && LinkOver(judge, a) > 0 && SameAt(t, judge, a[..LinkAbove(judge, a)])
    requires forall p :: p in t && t[p].Link? ==> p in judge && judge[p] == t[p]
    ensures LinkOver(t, a) == LinkOver(judge, a) && Target(t, a) == Target(judge, a)
  {
    var n := LinkAbove(judge, a);
    LinkFromIs(t, a, 1);
    var m := LinkOver(t, a);
    assert m > 0;
    OneAbove(judge, a, m, n);
  }

  lemma OneAbove(judge: Files, a: Path, m: nat, n: nat)
    requires IsTree(judge) && 0 < m < |a| && 0 < n < |a| && a[..m] in judge && a[..n] in judge
    ensures m == n
  {
  }

  lemma NoneAbove(judge: Files, t: Files, a: Path)
    requires IsTree(judge) && LinkOver(judge, a) > 0 && a[..LinkAbove(judge, a)] !in t
    requires forall p :: p in t && t[p].Link? ==> p in judge && judge[p] == t[p]
    ensures LinkOver(t, a) == 0
  {
    var n := LinkAbove(judge, a);
    LinkFromIs(t, a, 1);
    var m := LinkOver(t, a);
    if m > 0 {
      OneAbove(judge, a, m, n);
      assert false;
    }
  }

  // Nothing is brought to a path beneath a link.
  lemma {:induction false} NothingLedTo(work: Files, judge: Files, order: seq<Path>, i: nat, a: Path)
    requires IsTree(judge) && PlainLinks(judge) && i <= |order| && LinkOver(judge, a) > 0
    ensures LastTo(work, judge, order, i, a) == 0
  {
    if i > 0 {
      NothingLedTo(work, judge, order, i - 1, a);
      if LinkOver(judge, order[i - 1]) > 0 {
        TargetIsPlain(judge, order[i - 1]);
      }
    }
  }

  /** Each taken path reads as work's file exactly when it is right. */
  lemma ReadsRightIff(work: Files, through: set<Path>, judge: Files, order: seq<Path>, i: nat)
    requires Trees(work, judge, order) && i < |order| && Taken(work, order[i])
    ensures ReadsRight(work, through, judge, order, order[i]) <==> Right(work, through, judge, order, i)
  {
    var a := order[i];
    if LinkOver(judge, a) > 0 {
      ReadBeneath(work, through, judge, order, a);
    } else if a in judge && judge[a].Link? {
      ReadLink(work, through, judge, order, i);
    } else {
      ReadPlain(work, through, judge, order, a);
    }
  }

  /** A judged tree without links reads as work's files, all of them. */
  lemma NoLinksReadsRight(work: Files, through: set<Path>, judge: Files, order: seq<Path>)
    requires Trees(work, judge, order) && forall p :: p in judge ==> !judge[p].Link?
    ensures forall a :: Taken(work, a) ==> ReadsRight(work, through, judge, order, a)
  {
    forall a | Taken(work, a) ensures ReadsRight(work, through, judge, order, a) {
      assert a in order;
      var i :| 0 <= i < |order| && order[i] == a;
      OwnHeld(work, judge, order, i);
      OwnTarget(judge, a);
      ReadsRightIff(work, through, judge, order, i);
    }
  }

  // Without links a path is brought to itself alone.
  lemma OwnHeld(work: Files, judge: Files, order: seq<Path>, i: nat)
    requires i < |order| && Taken(work, order[i]) && forall p :: p in judge ==> !judge[p].Link?
    ensures Held(work, judge, order, |order|, order[i]) == [work[order[i]].body]
  {
    LastToIs(work, judge, order, |order|, order[i]);
    OwnTarget(judge, order[i]);
    var j := LastTo(work, judge, order, |order|, order[i]);
    if j > 0 {
      OwnTarget(judge, order[j - 1]);
    }
  }

  lemma OwnTarget(judge: Files, p: Path)
    requires forall q :: q in judge ==> !judge[q].Link?
    ensures LinkOver(judge, p) == 0 && Target(judge, p) == p
  {
    LinkFromIs(judge, p, 1);
  }

  lemma Straight(judge: Files, p: Path)
    requires forall k :: 0 < k < |p| ==> p[..k] !in judge
    ensures LinkOver(judge, p) == 0 && Target(judge, p) == p
  {
    LinkFromIs(judge, p, 1);
  }

  // Neither begins the other.
  predicate Beside(a: Path, b: Path) {
    !(a <= b) && !(b <= a)
  }

  // Two paths beside each other, the first a link to the second.
  lemma TwoBeside(a: Path, b: Path, judge: Files)
    requires Beside(a, b) && judge.Keys == {a, b} && judge[a] == Link(b) && !judge[b].Link?
    ensures Target(judge, a) == a && Target(judge, b) == b && LinkOver(judge, a) == 0 && IsTree(judge) && PlainLinks(judge)
  {
    Straight(judge, a);
    Straight(judge, b);
  }

  // A walk over two files.
  lemma WalksTwo(a: Path, b: Path, work: Files)
    requires Beside(a, b) && Before(a, b) && work.Keys == {a, b} && !Beneath(a) && !Beneath(b)
    ensures Walks(work, [a, b]) && IsTree(work)
  {
    assert a in [a, b] && b in [a, b];
  }

  /** A link that reads wrong, at any unprotected path the walk comes to before another:
      it read as the executor's file and was left, and then the file it leads to changed. */
  lemma LinkReadsWrong(a: Path, b: Path) returns (work: Files, judge: Files, order: seq<Path>)
    requires Beside(a, b) && Before(a, b) && !Protected(a) && !Protected(b)
    ensures Trees(work, judge, order) && Taken(work, a)
    ensures forall through :: !ReadsRight(work, through, judge, order, a)
  {
    work := map[a := File("x"), b := File("y")];
    judge := map[a := Link(b), b := File("x")];
    order := [a, b];
    WalksTwo(a, b, work);
    TwoBeside(a, b, judge);
    assert LastTo(work, judge, order, 2, b) == 2;
    forall through ensures !ReadsRight(work, through, judge, order, a) {
      ReadsRightIff(work, through, judge, order, 0);
    }
  }

  // ---------- what is there ----------

  /** What is there once all is done: what was there or was brought, and is not
      gone from work; it is work's file, or what the judged tree had. */
  lemma Overlay(work: Files, through: set<Path>, judge: Files, order: seq<Path>, p: Path)
    requires Trees(work, judge, order)
    ensures var f := Judge(work, through, judge, order);
            && (p in f <==> !Gone(work, through, p) && (p in judge || LastTo(work, judge, order, |order|, p) > 0))
            && (p in f && LastTo(work, judge, order, |order|, p) == 0 ==> p in judge && f[p] == judge[p])
  {
    assert order[..|order|] == order;
    if p in judge && judge[p].Link? {
      if p in order {
        var a :| 0 <= a < |order| && order[a] == p;
        LinkIs(work, judge, order, |order|, a);
        LastToIs(work, judge, order, |order|, p);
        PlainMeans(work, judge);
        LinkIsTop(judge, p);
      } else {
        assert !Taken(work, p);
        LinkLeft(work, judge, order, |order|, p);
      }
    } else {
      HeldIs(work, judge, order, |order|, p);
    }
  }

  /** A path no file of work is at by the walk is left, as it was, where work has a
      link above it through which a regular file is found: any path beneath any. */
  lemma StaleBeneathLink(d: Path, name: string, to: Path) returns (work: Files, judge: Files, order: seq<Path>)
    requires !Protected(d + [name]) && !Beneath(d)
    ensures Trees(work, judge, order) && d + [name] in judge && !Regular(work, d + [name])
    ensures SameAt(Judge(work, {d + [name]}, judge, order), judge, d + [name])
  {
    var p := d + [name];
    work := map[d := Link(to)];
    judge := map[p := File("x")];
    order := [d];
    assert d in order && p[..|d|] == d && !(p <= d);
    LinkFromIs(work, p, 1);
    Overlay(work, {p}, judge, order, p);
    assert LastTo(work, judge, order, 1, p) == 0;
  }

  // ---------- what is counted ----------

  // The file that reading p comes to, a link followed.
  function Source(judge: Files, p: Path): Path {
    var q := Target(judge, p);
    if q in judge && judge[q].Link? then judge[q].to else q
  }

  // Whether the i-th entry is counted, by what was brought before it to the file
  // it is compared with.
  predicate Counts(work: Files, judge: Files, order: seq<Path>, i: nat)
    requires i < |order|
  {
    var p := order[i];
    p in work && (!Regular(work, p) || (Protected(p) && Held(work, judge, order, i, Source(judge, p)) != [work[p].body]))
  }

  lemma CountsIs(work: Files, judge: Files, order: seq<Path>, i: nat)
    requires Trees(work, judge, order) && i < |order|
    ensures Drops(work, After(work, judge, order, i), order[i]) == Counts(work, judge, order, i)
  {
    var p, t := order[i], After(work, judge, order, i);
    AtNext(work, judge, order, i);
    StepIs(work, judge, t, p);
    var q := Target(judge, p);
    if q in judge && judge[q].Link? {
      LeadsPlain(work, judge, q);
      if Protected(p) {
        LinkLeft(work, judge, order, i, q);
        HeldIs(work, judge, order, i, judge[q].to);
      }
    } else {
      HeldIs(work, judge, order, i, q);
    }
  }

  // The first i entries that are counted.
  ghost function CountedOf(work: Files, judge: Files, order: seq<Path>, i: nat): set<nat>
    requires i <= |order|
  {
    set k | 0 <= k < i && Counts(work, judge, order, k)
  }

  lemma CountedNext(work: Files, judge: Files, order: seq<Path>, i: nat)
    requires i < |order|
    ensures |CountedOf(work, judge, order, i + 1)| == |CountedOf(work, judge, order, i)| + if Counts(work, judge, order, i) then 1 else 0
  {
    assert CountedOf(work, judge, order, i + 1) == CountedOf(work, judge, order, i) + if Counts(work, judge, order, i) then {i} else {};
  }

  lemma DropsNext(work: Files, judge: Files, order: seq<Path>, i: nat)
    requires i < |order|
    ensures DropsOf(work, judge, order[..i + 1]) ==
            DropsOf(work, judge, order[..i]) + if Drops(work, After(work, judge, order, i), order[i]) then 1 else 0
    ensures CostOf(work, judge, order[..i + 1]) == CostOf(work, judge, order[..i]) + Cost(work, After(work, judge, order, i), order[i])
  {
    assert order[..i + 1][..i] == order[..i];
  }

  /** The count is that of the entries that are no regular file, and of the protected
      files that differ from what they are compared with, or are new, by then. */
  lemma {:induction false} CountIs(work: Files, judge: Files, order: seq<Path>, i: nat)
    requires Trees(work, judge, order) && i <= |order|
    ensures DropsOf(work, judge, order[..i]) == |CountedOf(work, judge, order, i)|
  {
    if i > 0 {
      CountIs(work, judge, order, i - 1);
      DropsNext(work, judge, order, i - 1);
      CountsIs(work, judge, order, i - 1);
      CountedNext(work, judge, order, i - 1);
    }
  }

  // What is compared with was changed before, to or from the body it is compared with.
  predicate ComparedLate(work: Files, judge: Files, order: seq<Path>, i: nat)
    requires i < |order| && order[i] in work
  {
    LastToIs(work, judge, order, i, Source(judge, order[i]));
    var p, j := order[i], LastTo(work, judge, order, i, Source(judge, order[i]));
    && Regular(work, p) && Protected(p) && j > 0
    && (work[order[j - 1]].body == work[p].body) != (ReadFile(judge, p) == [work[p].body])
  }

  /** An entry is counted as the trees were to begin with, but exactly for one that
      is compared late. */
  lemma CountsEarlyIff(work: Files, judge: Files, order: seq<Path>, i: nat)
    requires Trees(work, judge, order) && i < |order|
    ensures order[i] in work
    ensures Counts(work, judge, order, i) == Drops(work, judge, order[i]) <==> !ComparedLate(work, judge, order, i)
  {
    assert order[i] in order;
    LastToIs(work, judge, order, i, Source(judge, order[i]));
  }

  // Counted by the trees as they were to begin with.
  ghost function Dropped(work: Files, judge: Files): set<Path> {
    set p | p in work && !Beneath(p) && Drops(work, judge, p)
  }

  /** Where none is compared late, the count is that of the entries that are no
      regular file and of the protected files that differ or are new. */
  lemma CountIsDropped(work: Files, judge: Files, order: seq<Path>)
    requires Trees(work, judge, order)
    requires forall i :: 0 <= i < |order| && order[i] in work ==> !ComparedLate(work, judge, order, i)
    ensures DropsOf(work, judge, order) == |Dropped(work, judge)|
  {
    CountIs(work, judge, order, |order|);
    assert order[..|order|] == order;
    DroppedIndices(work, judge, order, |order|);
    forall i | 0 <= i < |order| ensures Counts(work, judge, order, i) == Drops(work, judge, order[i]) {
      CountsEarlyIff(work, judge, order, i);
    }
    assert CountedOf(work, judge, order, |order|) == PlacesOf(work, judge, order, |order|);
    assert Dropped(work, judge) == PathsOf(work, judge, order, |order|);
  }

  // The entries dropped to begin with, and their places.
  ghost function PlacesOf(work: Files, judge: Files, order: seq<Path>, i: nat): set<nat>
    requires i <= |order|
  {
    set k | 0 <= k < i && Drops(work, judge, order[k])
  }

  ghost function PathsOf(work: Files, judge: Files, order: seq<Path>, i: nat): set<Path>
    requires i <= |order|
  {
    set p | p in order[..i] && Drops(work, judge, p)
  }

  lemma PlacesNext(work: Files, judge: Files, order: seq<Path>, i: nat)
    requires i < |order|
    ensures |PlacesOf(work, judge, order, i + 1)| == |PlacesOf(work, judge, order, i)| + if Drops(work, judge, order[i]) then 1 else 0
  {
    assert PlacesOf(work, judge, order, i + 1) == PlacesOf(work, judge, order, i) + if Drops(work, judge, order[i]) then {i} else {};
  }

  lemma PathsNext(work: Files, judge: Files, order: seq<Path>, i: nat)
    requires i < |order| && order[i] !in order[..i]
    ensures |PathsOf(work, judge, order, i + 1)| == |PathsOf(work, judge, order, i)| + if Drops(work, judge, order[i]) then 1 else 0
  {
    assert order[..i + 1] == order[..i] + [order[i]];
    assert PathsOf(work, judge, order, i + 1) == PathsOf(work, judge, order, i) + if Drops(work, judge, order[i]) then {order[i]} else {};
  }

  lemma NotBefore(order: seq<Path>, i: nat)
    requires (forall i, j :: 0 <= i < j < |order| ==> order[i] != order[j]) && i < |order|
    ensures order[i] !in order[..i]
  {
  }

  // As many paths as places of them.
  lemma {:induction false} DroppedIndices(work: Files, judge: Files, order: seq<Path>, i: nat)
    requires Walks(work, order) && i <= |order|
    ensures |PlacesOf(work, judge, order, i)| == |PathsOf(work, judge, order, i)|
  {
    if i > 0 {
      DroppedIndices(work, judge, order, i - 1);
      PlacesNext(work, judge, order, i - 1);
      NotBefore(order, i - 1);
      PathsNext(work, judge, order, i - 1);
    }
  }

  // work has two files, and of the judged tree one is a link to the other.
  lemma ComparedSecond(a: Path, c: Path, work: Files, judge: Files, order: seq<Path>)
    requires Beside(a, c) && !Protected(a) && Protected(c) && !Beneath(c)
    requires work == map[a := File("x"), c := File("y")] && judge == map[c := Link(a), a := File("y")] && order == [a, c]
    requires Trees(work, judge, order)
    ensures !Counts(work, judge, order, 0) && Counts(work, judge, order, 1)
  {
    TwoBeside(c, a, judge);
    assert LastTo(work, judge, order, 1, a) == 1;
  }

  /** A protected link compared late, at any protected path the walk comes to after an
      unprotected one: it read as work's file until the file it leads to was brought. */
  lemma CountsLate(a: Path, c: Path) returns (work: Files, judge: Files, order: seq<Path>)
    requires Beside(a, c) && Before(a, c) && !Protected(a) && Protected(c) && !Beneath(c)
    ensures Trees(work, judge, order) && DropsOf(work, judge, order) == 1 && Dropped(work, judge) == {}
  {
    work := map[a := File("x"), c := File("y")];
    judge := map[c := Link(a), a := File("y")];
    order := [a, c];
    WalksTwo(a, c, work);
    TwoBeside(c, a, judge);
    CountIs(work, judge, order, 2);
    assert order[..2] == order;
    ComparedSecond(a, c, work, judge, order);
    assert CountedOf(work, judge, order, 2) == {1};
  }

  // ---------- as the source does it ----------

  // No protected path is touched that no link leads to.
  ghost predicate KeepsUnled(work: Files, judge: Files, t: Files) {
    forall q :: Protected(q) && NoneLedTo(work, judge, q) ==> SameAt(judge, t, q)
  }

  lemma UnledStep(work: Files, judge: Files, t: Files, u: Files, p: Path)
    requires KeepsUnled(work, judge, t) && Target(t, p) == Target(judge, p)
    requires forall q :: !Taken(work, p) || q != Target(t, p) ==> SameAt(t, u, q)
    ensures KeepsUnled(work, judge, u)
  {
    forall q | Protected(q) && NoneLedTo(work, judge, q) ensures SameAt(judge, u, q) {
      assert SameAt(judge, t, q);
      assert SameAt(t, u, q);
    }
  }

  // What the walk comes to at its next entry.
  lemma AtEntry(work: Files, judge: Files, order: seq<Path>, i: nat)
    requires Trees(work, judge, order) && i < |order|
    ensures var t := After(work, judge, order, i);
            && After(work, judge, order, i + 1) == Bring(work, t, order[i]) && Target(t, order[i]) == Target(judge, order[i])
            && DropsOf(work, judge, order[..i + 1]) == DropsOf(work, judge, order[..i]) + (if Drops(work, t, order[i]) then 1 else 0)
            && CostOf(work, judge, order[..i + 1]) == CostOf(work, judge, order[..i]) + Cost(work, t, order[i]) <= CostOf(work, judge, order)
  {
    AtNext(work, judge, order, i);
    StepIs(work, judge, After(work, judge, order, i), order[i]);
    DropsNext(work, judge, order, i);
    CostGrows(work, judge, order, i + 1);
  }

  class Judged {
    var files: Files
    const maxTakenFile: nat
    const maxTakenTotal: nat
    ghost var failures: nat // how often a write or a removal failed

    constructor (files: Files, maxTakenFile: nat, maxTakenTotal: nat)
      ensures this.files == files && this.maxTakenFile == maxTakenFile && this.maxTakenTotal == maxTakenTotal
    {
      this.files, this.maxTakenFile, this.maxTakenTotal, failures := files, maxTakenFile, maxTakenTotal, 0;
    }

    // Writes a file in place of what is there; a failure leaves anything there, and
    // a file or a link in a directory's place is one, and so is a directory in its own.
    method Write(p: Path, body: Body) returns (ok: bool)
      modifies this
      ensures forall q: Path :: q != p ==> SameAt(old(files), files, q)
      ensures ok ==> files == old(files)[p := File(body)] && forall q :: q in files ==> !(q < p) && !(p < q)
      ensures failures == old(failures) + if ok then 0 else 1
    {
      var part: Body;
      ok, part := *, *;
      ok := ok && forall q :: q in files ==> !(q < p) && !(p < q);
      files := if ok then files[p := File(body)] else if part == [] then files - {p} else files[p := File(part)];
      failures := failures + if ok then 0 else 1;
    }

    // The first walk, at one entry: whether it was dropped, what of it was taken.
    method Visit(work: Files, p: Path, total: nat) returns (drop: bool, taken: nat, ok: bool)
      requires p in work && !Beneath(p)
      modifies this
      ensures forall q :: !Taken(work, p) || q != Target(old(files), p) ==> SameAt(old(files), files, q)
      ensures old(failures) <= failures
      ensures ok ==> files == Bring(work, old(files), p) && drop == Drops(work, old(files), p) && taken == Cost(work, old(files), p)
      ensures ok && taken > 0 ==> total + taken <= maxTakenTotal
      ensures ok && Taken(work, p) ==> |work[p].body| <= maxTakenFile
      ensures !ok ==> || failures > old(failures) || (Taken(work, p) && |work[p].body| > maxTakenFile)
                      || total + Cost(work, old(files), p) > maxTakenTotal
    {
      drop, taken, ok := false, 0, true;
      var before := ReadFile(files, p);
      if !work[p].File? || Protected(p) {
        drop := !work[p].File? || before == [] || before[0] != work[p].body;
        return;
      }
      var body := work[p].body;
      if |body| > maxTakenFile {
        ok := false;
        return;
      }
      if before != [] && before[0] == body {
        return;
      }
      taken := |body|;
      if total + taken > maxTakenTotal {
        ok := false;
        return;
      }
      ok := Write(Target(files, p), body);
    }

    // Something is too large to be taken.
    ghost predicate TooLarge(work: Files, judge: Files, order: seq<Path>) {
      (exists p :: p in order && Taken(work, p) && |work[p].body| > maxTakenFile) || CostOf(work, judge, order) > maxTakenTotal
    }

    /** Both walks, one after the other: work's files written over the judged tree and
        counted, then what work lacks removed. It fails where a step fails or something
        is too large, and even then no protected path is touched that no link leads to. */
    method TakeChanges(work: Files, through: set<Path>, order: seq<Path>) returns (dropped: nat, ok: bool)
      requires Trees(work, files, order)
      modifies this
      ensures KeepsUnled(work, old(files), files)
      ensures ok ==> files == Judge(work, through, old(files), order) && dropped == DropsOf(work, old(files), order)
      ensures ok ==> !TooLarge(work, old(files), order)
      ensures !ok ==> failures > old(failures) || TooLarge(work, old(files), order)
    {
      dropped, ok := BringChanges(work, order);
      if ok {
        ok := RemoveGone(work, through);
      }
    }

    // The first walk: what the executor changed.
    method BringChanges(work: Files, order: seq<Path>) returns (dropped: nat, ok: bool)
      requires Trees(work, files, order)
      modifies this
      ensures KeepsUnled(work, old(files), files) && old(failures) <= failures
      ensures ok ==> files == BringAll(work, old(files), order) && dropped == DropsOf(work, old(files), order)
      ensures ok ==> !TooLarge(work, old(files), order)
      ensures !ok ==> failures > old(failures) || TooLarge(work, old(files), order)
    {
      dropped, ok := 0, true;
      var total := 0;
      ghost var judge := files;
      for i := 0 to |order|
        invariant files == After(work, judge, order, i) && dropped == DropsOf(work, judge, order[..i])
        invariant total == CostOf(work, judge, order[..i]) <= maxTakenTotal && old(failures) <= failures
        invariant forall k :: 0 <= k < i && Taken(work, order[k]) ==> |work[order[k]].body| <= maxTakenFile
        invariant KeepsUnled(work, judge, files)
      {
        assert order[i] in order;
        AtEntry(work, judge, order, i);
        ghost var t := files;
        var drop, taken;
        drop, taken, ok := Visit(work, order[i], total);
        UnledStep(work, judge, t, files, order[i]);
        if !ok {
          return;
        }
        total, dropped := total + taken, dropped + if drop then 1 else 0;
      }
      assert order[..|order|] == order;
    }

    // The second walk: what the executor removed.
    method RemoveGone(work: Files, through: set<Path>) returns (ok: bool)
      modifies this
      ensures forall q :: Protected(q) ==> SameAt(old(files), files, q)
      ensures ok ==> files == Removed(work, through, old(files))
      ensures failures == old(failures) + if ok then 0 else 1
    {
      ok := true;
      var gone := set p | p in files && Gone(work, through, p);
      var left := gone;
      while left != {}
        invariant left <= gone && files == old(files) - (gone - left) && failures == old(failures)
        invariant forall q :: Protected(q) ==> SameAt(old(files), files, q)
        decreases |left|
      {
        var failed: bool := *;
        if failed {
          failures := failures + 1;
          return false;
        }
        var p :| p in left;
        assert !Protected(p);
        files, left := files - {p}, left - {p};
      }
      assert files == old(files) - gone;
    }
  }
}
