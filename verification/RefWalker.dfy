/** The accessibility walker that stamps refs on the page, and the resolver that accepts them.

    Elements are kept in document order with the index of their parent; whether one is visible, its role
    and its name are given. The stamps are the attributes the walker writes, one record per node. */
module RefWalker {
  import opened Tombstones
  import opened Numerals

  type NodeId = nat

  datatype Look = Look(visible: bool, role: Option<string>, name: string)

  datatype Element = Element(node: NodeId, parent: Option<nat>, look: Look)

  datatype Doc = Doc(elements: seq<Element>, body: nat)

  /** An absent ref reads as the empty string. */
  datatype Stamp = Stamp(ref: string, role: Option<string>, name: Option<string>)

  const BLANK: Stamp := Stamp("", None, None)

  ghost predicate ValidDoc(d: Doc) {
    && d.body < |d.elements|
    && (forall i | 0 <= i < |d.elements| :: d.elements[i].parent.Some? ==> d.elements[i].parent.value < i)
    && (forall i, j | 0 <= i < j < |d.elements| :: d.elements[i].node != d.elements[j].node)
  }

  ghost predicate Stamped(d: Doc, stamps: map<NodeId, Stamp>) {
    forall i | 0 <= i < |d.elements| :: d.elements[i].node in stamps
  }

  // ---------------------------------------------------------------- refs and numbers

  /** Where a script's counter stops advancing: 2^53. */
  const LIMIT: nat := 9007199254740992

  function Succ(n: nat): nat { if n < LIMIT then n + 1 else n }

  predicate IsRef(s: string) { |s| >= 2 && s[0] == 'e' && forall k | 1 <= k < |s| :: Digit(s[k]) }

  function NumberOf(ref: string): nat
    requires IsRef(ref)
  {
    Value(ref[1..])
  }

  function RefOf(n: nat): (s: string)
    ensures IsRef(s)
  {
    "e" + Decimal(n)
  }

  lemma RefReadsBack(n: nat)
    ensures NumberOf(RefOf(n)) == n
  {
    DecimalReadsBack(n);
    assert RefOf(n)[1..] == Decimal(n);
  }

  // ---------------------------------------------------------------- the document's stamps

  function StampAt(d: Doc, stamps: map<NodeId, Stamp>, i: nat): Stamp
    requires i < |d.elements|
  {
    if d.elements[i].node in stamps then stamps[d.elements[i].node] else BLANK
  }

  /** How many of the first `n` elements carry `ref`. */
  function CarriersIn(d: Doc, stamps: map<NodeId, Stamp>, ref: string, n: nat): nat
    requires n <= |d.elements|
  {
    if n == 0 then 0 else CarriersIn(d, stamps, ref, n - 1) + (if StampAt(d, stamps, n - 1).ref == ref then 1 else 0)
  }

  function Carriers(d: Doc, stamps: map<NodeId, Stamp>, ref: string): nat { CarriersIn(d, stamps, ref, |d.elements|) }

  function HighestIn(d: Doc, stamps: map<NodeId, Stamp>, n: nat): nat
    requires n <= |d.elements|
  {
    if n == 0 then 0
    else
      var h, ref := HighestIn(d, stamps, n - 1), StampAt(d, stamps, n - 1).ref;
      if IsRef(ref) then Max(h, NumberOf(ref)) else h
  }

  /** The highest number stamped anywhere in the document. */
  function Highest(d: Doc, stamps: map<NodeId, Stamp>): nat { HighestIn(d, stamps, |d.elements|) }

  /** Where fresh numbers start. */
  function Start(d: Doc, stamps: map<NodeId, Stamp>, next: nat): nat { Max(if next == 0 then 1 else next, Succ(Highest(d, stamps))) }

  lemma {:induction false} HighestBounds(d: Doc, stamps: map<NodeId, Stamp>, n: nat, i: nat)
    requires i < n <= |d.elements| && IsRef(StampAt(d, stamps, i).ref)
    ensures NumberOf(StampAt(d, stamps, i).ref) <= HighestIn(d, stamps, n)
  {
    if i < n - 1 { HighestBounds(d, stamps, n - 1, i); }
  }

  lemma {:induction false} CarriedTwice(d: Doc, stamps: map<NodeId, Stamp>, ref: string, n: nat, i: nat, j: nat)
    requires i < n <= |d.elements| && StampAt(d, stamps, i).ref == ref
    ensures CarriersIn(d, stamps, ref, n) >= 1
    ensures i < j < n && StampAt(d, stamps, j).ref == ref ==> CarriersIn(d, stamps, ref, n) >= 2
  {
    if i < n - 1 { CarriedTwice(d, stamps, ref, n - 1, i, j); }
  }

  /** Exactly one carrier, and it is `i`. */
  lemma {:induction false} SoleCarrier(d: Doc, stamps: map<NodeId, Stamp>, ref: string, n: nat, i: nat)
    requires i < n <= |d.elements| && StampAt(d, stamps, i).ref == ref
    requires forall j | 0 <= j < n && j != i :: StampAt(d, stamps, j).ref != ref
    ensures CarriersIn(d, stamps, ref, n) == 1
  {
    if i < n - 1 { SoleCarrier(d, stamps, ref, n - 1, i); } else { NoCarrier(d, stamps, ref, n - 1); }
  }

  lemma {:induction false} NoCarrier(d: Doc, stamps: map<NodeId, Stamp>, ref: string, n: nat)
    requires n <= |d.elements| && forall j | 0 <= j < n :: StampAt(d, stamps, j).ref != ref
    ensures CarriersIn(d, stamps, ref, n) == 0
  {
    if n > 0 { NoCarrier(d, stamps, ref, n - 1); }
  }

  // ---------------------------------------------------------------- what is listed

  /** The indices the walk from `i` lists, in the order it lists them. */
  function Visit(d: Doc, i: nat): seq<nat>
    requires i < |d.elements|
    decreases |d.elements| - i, 0
  {
    if !d.elements[i].look.visible then []
    else (if d.elements[i].look.role.Some? then [i] else []) + VisitKids(d, i, i + 1)
  }

  /** The same for those children of `i` that stand at `j` or later. */
  function VisitKids(d: Doc, i: nat, j: nat): seq<nat>
    requires i < j <= |d.elements|
    decreases |d.elements| - j, 1
  {
    if j == |d.elements| then []
    else (if d.elements[j].parent == Some(i) then Visit(d, j) else []) + VisitKids(d, i, j + 1)
  }

  datatype Cause = Missing | Hidden | Changed

  /** The way up from `i` to the body. */
  function WayUp(d: Doc, i: nat): Option<Cause>
    requires i < |d.elements| && ValidDoc(d)
  {
    if !d.elements[i].look.visible then Some(Hidden)
    else if i == d.body then None
    else if d.elements[i].parent.None? then Some(Missing)
    else WayUp(d, d.elements[i].parent.value)
  }

  /** Why a snapshot taken now would not list element `i` under its stamped ref, if so. */
  function Ineligible(d: Doc, stamps: map<NodeId, Stamp>, i: nat): Option<Cause>
    requires i < |d.elements| && ValidDoc(d)
  {
    var up, look, stamp := WayUp(d, i), d.elements[i].look, StampAt(d, stamps, i);
    if up.Some? then up
    else if look.role.None? then Some(Changed)
    else if look.role != stamp.role || Some(look.name) != stamp.name then Some(Changed)
    else None
  }

  function FirstCarrier(d: Doc, stamps: map<NodeId, Stamp>, ref: string, n: nat): (i: nat)
    requires n <= |d.elements| && CarriersIn(d, stamps, ref, n) >= 1
    ensures i < n && StampAt(d, stamps, i).ref == ref
  {
    if CarriersIn(d, stamps, ref, n - 1) >= 1 then FirstCarrier(d, stamps, ref, n - 1) else n - 1
  }

  /** The resolver: nothing is wrong with `ref`, or why it does not resolve. */
  function CheckRef(d: Doc, stamps: map<NodeId, Stamp>, ref: string): Option<Cause>
    requires ValidDoc(d)
  {
    if !IsRef(ref) || Carriers(d, stamps, ref) != 1 then Some(Missing)
    else Ineligible(d, stamps, FirstCarrier(d, stamps, ref, |d.elements|))
  }

  /** `top` is an ancestor of `k` or `k` itself, and everything from one to the other is visible. */
  predicate Under(d: Doc, k: nat, top: nat)
    requires k < |d.elements| && ValidDoc(d)
  {
    d.elements[k].look.visible && (k == top || (d.elements[k].parent.Some? && Under(d, d.elements[k].parent.value, top)))
  }

  lemma {:induction false} UnderIsWayUp(d: Doc, k: nat)
    requires k < |d.elements| && ValidDoc(d)
    ensures Under(d, k, d.body) <==> WayUp(d, k).None?
  {
    if d.elements[k].look.visible && k != d.body && d.elements[k].parent.Some? { UnderIsWayUp(d, d.elements[k].parent.value); }
  }

  lemma {:induction false} UnderIsLater(d: Doc, k: nat, top: nat)
    requires k < |d.elements| && ValidDoc(d) && Under(d, k, top)
    ensures top <= k
  {
    if k != top { UnderIsLater(d, d.elements[k].parent.value, top); }
  }

  lemma {:induction false} UnderAChild(d: Doc, k: nat, c: nat, i: nat)
    requires k < |d.elements| && c < |d.elements| && i < |d.elements| && ValidDoc(d) && d.elements[c].parent == Some(i)
    requires Under(d, k, c) && d.elements[i].look.visible
    ensures Under(d, k, i)
  {
    if k != c { UnderAChild(d, d.elements[k].parent.value, c, i); }
  }

  /** The child of `i` on the way up from `k`. */
  lemma {:induction false} OneChildAbove(d: Doc, k: nat, i: nat) returns (c: nat)
    requires k < |d.elements| && i < |d.elements| && ValidDoc(d) && Under(d, k, i) && k != i
    ensures i < c < |d.elements| && d.elements[c].parent == Some(i) && Under(d, k, c) && d.elements[i].look.visible
  {
    var p := d.elements[k].parent.value;
    if p == i { c := k; } else { c := OneChildAbove(d, p, i); }
  }

  lemma {:induction false} SubtreesAreDisjoint(d: Doc, k: nat, a: nat, b: nat, i: nat)
    requires k < |d.elements| && a < |d.elements| && b < |d.elements| && ValidDoc(d)
    requires d.elements[a].parent == Some(i) && d.elements[b].parent == Some(i) && Under(d, k, a) && Under(d, k, b)
    ensures a == b
  {
    if k == a || k == b {
      if k != a { UnderIsLater(d, i, a); }
      if k != b { UnderIsLater(d, i, b); }
    } else {
      SubtreesAreDisjoint(d, d.elements[k].parent.value, a, b, i);
    }
  }

  ghost predicate NoRepeats<T>(s: seq<T>) { forall a, b | 0 <= a < b < |s| :: s[a] != s[b] }

  /** The walk down lists exactly the elements with a role that the way up reaches. */
  lemma {:induction false} VisitIsUnder(d: Doc, i: nat, k: nat)
    requires i < |d.elements| && ValidDoc(d)
    ensures k in Visit(d, i) <==> k < |d.elements| && Under(d, k, i) && d.elements[k].look.role.Some?
    decreases |d.elements| - i, 0
  {
    if d.elements[i].look.visible {
      VisitKidsIsUnder(d, i, i + 1, k);
      if k < |d.elements| && Under(d, k, i) && k != i { var c := OneChildAbove(d, k, i); }
      if c :| i < c < |d.elements| && d.elements[c].parent == Some(i) && k < |d.elements| && Under(d, k, c) { UnderAChild(d, k, c, i); }
    } else if k < |d.elements| && Under(d, k, i) {
      if k != i { var c := OneChildAbove(d, k, i); }
      assert false;
    }
  }

  ghost predicate UnderKid(d: Doc, k: nat, i: nat, j: nat)
    requires ValidDoc(d)
  {
    k < |d.elements| && exists c :: j <= c < |d.elements| && d.elements[c].parent == Some(i) && Under(d, k, c)
  }

  lemma {:induction false} VisitKidsIsUnder(d: Doc, i: nat, j: nat, k: nat)
    requires i < j <= |d.elements| && ValidDoc(d)
    ensures k in VisitKids(d, i, j) <==> UnderKid(d, k, i, j) && d.elements[k].look.role.Some?
    decreases |d.elements| - j, 1
  {
    if j < |d.elements| {
      VisitKidsIsUnder(d, i, j + 1, k);
      if d.elements[j].parent == Some(i) { VisitIsUnder(d, j, k); }
    }
  }

  /** `x` comes before `y` in the document: it is above it, or stands under an earlier sibling. */
  ghost predicate ComesBefore(d: Doc, x: nat, y: nat)
    requires ValidDoc(d)
  {
    && x < |d.elements| && y < |d.elements|
    && (|| (x != y && Under(d, y, x))
        || exists a, b :: BeforeAsSiblings(d, a, b) && Under(d, x, a) && Under(d, y, b))
  }

  ghost predicate BeforeAsSiblings(d: Doc, a: nat, b: nat) {
    a < b < |d.elements| && d.elements[a].parent.Some? && d.elements[a].parent == d.elements[b].parent
  }

  ghost predicate InDocumentOrder(d: Doc, order: seq<nat>)
    requires ValidDoc(d)
  {
    forall k, l | 0 <= k < l < |order| :: ComesBefore(d, order[k], order[l])
  }

  lemma OrdersJoin(d: Doc, a: seq<nat>, b: seq<nat>)
    requires ValidDoc(d) && InDocumentOrder(d, a) && InDocumentOrder(d, b)
    requires forall k, l | 0 <= k < |a| && 0 <= l < |b| :: ComesBefore(d, a[k], b[l])
    ensures InDocumentOrder(d, a + b)
  {
    hide ComesBefore;
  }

  lemma AboveItsKids(d: Doc, i: nat, y: nat)
    requires i < |d.elements| && ValidDoc(d) && d.elements[i].look.visible && y in VisitKids(d, i, i + 1)
    ensures ComesBefore(d, i, y)
  {
    VisitKidsIsUnder(d, i, i + 1, y);
    var c :| i + 1 <= c < |d.elements| && d.elements[c].parent == Some(i) && Under(d, y, c);
    UnderAChild(d, y, c, i);
    UnderIsLater(d, y, c);
  }

  lemma BeforeLaterKids(d: Doc, i: nat, j: nat, x: nat, y: nat)
    requires i < j < |d.elements| && ValidDoc(d) && d.elements[j].parent == Some(i)
    requires x in Visit(d, j) && y in VisitKids(d, i, j + 1)
    ensures ComesBefore(d, x, y)
  {
    VisitIsUnder(d, j, x);
    VisitKidsIsUnder(d, i, j + 1, y);
    var c :| j + 1 <= c < |d.elements| && d.elements[c].parent == Some(i) && Under(d, y, c);
    assert BeforeAsSiblings(d, j, c);
  }

  /** The walk lists elements in document order. */
  lemma {:induction false} VisitsInOrder(d: Doc, i: nat)
    requires i < |d.elements| && ValidDoc(d)
    ensures InDocumentOrder(d, Visit(d, i))
    decreases |d.elements| - i, 0
  {
    hide ComesBefore;
    if d.elements[i].look.visible {
      VisitsKidsInOrder(d, i, i + 1);
      var kids := VisitKids(d, i, i + 1);
      if d.elements[i].look.role.Some? {
        forall l | 0 <= l < |kids| ensures ComesBefore(d, i, kids[l]) { AboveItsKids(d, i, kids[l]); }
        OrdersJoin(d, [i], kids);
      } else {
        assert Visit(d, i) == kids;
      }
    }
  }

  lemma {:induction false} VisitsKidsInOrder(d: Doc, i: nat, j: nat)
    requires i < j <= |d.elements| && ValidDoc(d)
    ensures InDocumentOrder(d, VisitKids(d, i, j))
    decreases |d.elements| - j, 1
  {
    hide ComesBefore;
    if j < |d.elements| {
      VisitsKidsInOrder(d, i, j + 1);
      var rest := VisitKids(d, i, j + 1);
      if d.elements[j].parent == Some(i) {
        VisitsInOrder(d, j);
        var own := Visit(d, j);
        forall k, l | 0 <= k < |own| && 0 <= l < |rest| ensures ComesBefore(d, own[k], rest[l]) { BeforeLaterKids(d, i, j, own[k], rest[l]); }
        OrdersJoin(d, own, rest);
      } else {
        assert VisitKids(d, i, j) == rest;
      }
    }
  }

  lemma JoinedWithoutRepeats<T>(a: seq<T>, b: seq<T>)
    requires NoRepeats(a) && NoRepeats(b) && forall x, y | 0 <= x < |a| && 0 <= y < |b| :: a[x] != b[y]
    ensures NoRepeats(a + b)
  {}

  lemma SiblingsShareNothing(d: Doc, i: nat, j: nat, k: nat)
    requires i < j < |d.elements| && ValidDoc(d) && d.elements[j].parent == Some(i) && k in Visit(d, j)
    ensures k !in VisitKids(d, i, j + 1)
  {
    VisitIsUnder(d, j, k);
    VisitKidsIsUnder(d, i, j + 1, k);
    if k in VisitKids(d, i, j + 1) {
      var c :| j + 1 <= c < |d.elements| && d.elements[c].parent == Some(i) && Under(d, k, c);
      SubtreesAreDisjoint(d, k, j, c, i);
      assert false;
    }
  }

  lemma {:induction false} VisitsOnce(d: Doc, i: nat)
    requires i < |d.elements| && ValidDoc(d)
    ensures NoRepeats(Visit(d, i))
    decreases |d.elements| - i, 0
  {
    if d.elements[i].look.visible {
      VisitsKidsOnce(d, i, i + 1);
      var rest := VisitKids(d, i, i + 1);
      forall a | 0 <= a < |rest| ensures rest[a] != i {
        VisitKidsIsUnder(d, i, i + 1, rest[a]);
        var c :| i + 1 <= c < |d.elements| && d.elements[c].parent == Some(i) && Under(d, rest[a], c);
        UnderIsLater(d, rest[a], c);
      }
    }
  }

  lemma {:induction false} VisitsKidsOnce(d: Doc, i: nat, j: nat)
    requires i < j <= |d.elements| && ValidDoc(d)
    ensures NoRepeats(VisitKids(d, i, j))
    decreases |d.elements| - j, 1
  {
    if j < |d.elements| {
      VisitsKidsOnce(d, i, j + 1);
      if d.elements[j].parent == Some(i) {
        VisitsOnce(d, j);
        var a, b := Visit(d, j), VisitKids(d, i, j + 1);
        forall x, y | 0 <= x < |a| && 0 <= y < |b| ensures a[x] != b[y] { SiblingsShareNothing(d, i, j, a[x]); }
        JoinedWithoutRepeats(a, b);
      }
    }
  }

  // ---------------------------------------------------------------- stamping

  /** A listed node, with the ref it is listed under. */
  datatype Item = Item(node: NodeId, ref: string, role: string, name: string)

  /** The walk's state: the attributes as they are now, the counter, the refs given out, the listing. */
  datatype Walk = Walk(stamps: map<NodeId, Stamp>, counter: nat, issued: set<string>, out: seq<Item>)

  /** The element keeps its ref: it is the only one that carries it and still looks as stamped. */
  predicate Keeps(d: Doc, first: map<NodeId, Stamp>, i: nat)
    requires i < |d.elements|
  {
    var stamp, look := StampAt(d, first, i), d.elements[i].look;
    IsRef(stamp.ref) && Carriers(d, first, stamp.ref) == 1 && stamp.role == look.role && stamp.name == Some(look.name)
  }

  /** `first` are the stamps before the walk, by which the carriers were counted. */
  function RefFor(d: Doc, first: map<NodeId, Stamp>, w: Walk, i: nat): Walk
    requires i < |d.elements| && d.elements[i].look.role.Some?
  {
    var e := d.elements[i];
    var existing := StampAt(d, w.stamps, i);
    if IsRef(existing.ref) && Carriers(d, first, existing.ref) == 1 && existing.ref !in w.issued
       && existing.role == e.look.role && existing.name == Some(e.look.name)
    then w.(issued := w.issued + {existing.ref}, out := w.out + [Item(e.node, existing.ref, e.look.role.value, e.look.name)])
    else
      var ref := RefOf(w.counter);
      Walk(w.stamps[e.node := Stamp(ref, e.look.role, Some(e.look.name))], Succ(w.counter), w.issued + {ref},
           w.out + [Item(e.node, ref, e.look.role.value, e.look.name)])
  }

  ghost predicate Listable(d: Doc, order: seq<nat>) {
    NoRepeats(order) && forall a | 0 <= a < |order| :: order[a] < |d.elements| && d.elements[order[a]].look.role.Some?
  }

  /** Everything to be listed is in the document and has a role. */
  ghost predicate Walkable(d: Doc, order: seq<nat>) {
    forall a | 0 <= a < |order| :: order[a] < |d.elements| && d.elements[order[a]].look.role.Some?
  }

  ghost function StampAll(d: Doc, first: map<NodeId, Stamp>, w: Walk, order: seq<nat>): Walk
    requires Walkable(d, order)
    decreases |order|
  {
    if order == [] then w else RefFor(d, first, StampAll(d, first, w, order[..|order| - 1]), order[|order| - 1])
  }

  lemma VisitIsListable(d: Doc)
    requires ValidDoc(d)
    ensures Listable(d, Visit(d, d.body))
  {
    VisitsOnce(d, d.body);
    forall a | 0 <= a < |Visit(d, d.body)|
      ensures Visit(d, d.body)[a] < |d.elements| && d.elements[Visit(d, d.body)[a]].look.role.Some?
    {
      VisitIsUnder(d, d.body, Visit(d, d.body)[a]);
    }
  }

  /** The snapshot script: `next` is the lowest number the caller permits. */
  ghost function Snapshot(d: Doc, stamps: map<NodeId, Stamp>, next: nat): Walk
    requires ValidDoc(d)
  {
    VisitIsListable(d);
    StampAll(d, stamps, Walk(stamps, Start(d, stamps, next), {}, []), Visit(d, d.body))
  }

  // ---------------------------------------------------------------- the walk in closed form

  /** How many of `order` get a fresh ref. */
  function Fresh(d: Doc, first: map<NodeId, Stamp>, order: seq<nat>): nat
    requires forall a | 0 <= a < |order| :: order[a] < |d.elements|
    decreases |order|
  {
    if order == [] then 0 else Fresh(d, first, order[..|order| - 1]) + (if Keeps(d, first, order[|order| - 1]) then 0 else 1)
  }

  /** The ref of the `k`-th listed element: its own if it keeps it, else the next number, which sticks at
      the limit. */
  function RefAt(d: Doc, first: map<NodeId, Stamp>, start: nat, order: seq<nat>, k: nat): string
    requires k < |order| && forall a | 0 <= a < |order| :: order[a] < |d.elements|
  {
    if Keeps(d, first, order[k]) then StampAt(d, first, order[k]).ref else RefOf(Min(start + Fresh(d, first, order[..k]), LIMIT))
  }

  ghost predicate ClosedForm(d: Doc, first: map<NodeId, Stamp>, start: nat, order: seq<nat>, w: Walk)
    requires forall a | 0 <= a < |order| :: order[a] < |d.elements| && d.elements[order[a]].look.role.Some?
  {
    && |w.out| == |order|
    && w.counter == Min(start + Fresh(d, first, order), LIMIT)
    && (forall k | 0 <= k < |order| :: ItemAt(d, first, start, order, w, k))
    && (forall r <- w.issued :: exists k :: 0 <= k < |order| && w.out[k].ref == r)
    && OthersUntouched(d, first, order, w.stamps)
  }

  ghost predicate OthersUntouched(d: Doc, first: map<NodeId, Stamp>, order: seq<nat>, stamps: map<NodeId, Stamp>)
    requires forall a | 0 <= a < |order| :: order[a] < |d.elements|
  {
    stamps.Keys == first.Keys && forall n <- first :: InOrder(d, order, n) || stamps[n] == first[n]
  }

  ghost predicate InOrder(d: Doc, order: seq<nat>, n: NodeId)
    requires forall a | 0 <= a < |order| :: order[a] < |d.elements|
  {
    exists k :: 0 <= k < |order| && d.elements[order[k]].node == n
  }

  ghost predicate ItemAt(d: Doc, first: map<NodeId, Stamp>, start: nat, order: seq<nat>, w: Walk, k: nat)
    requires forall a | 0 <= a < |order| :: order[a] < |d.elements| && d.elements[order[a]].look.role.Some?
    requires k < |order| == |w.out|
  {
    var e := d.elements[order[k]];
    && w.out[k] == Item(e.node, RefAt(d, first, start, order, k), e.look.role.value, e.look.name)
    && e.node in w.stamps && w.stamps[e.node] == Stamp(w.out[k].ref, e.look.role, Some(e.look.name))
  }

  /** What the walk starts from: a counter above every stamp of the document, below the limit. */
  ghost predicate Ready(d: Doc, first: map<NodeId, Stamp>, start: nat) {
    ValidDoc(d) && Stamped(d, first) && Highest(d, first) < start <= LIMIT
  }

  /** The same, or every number is used up: a stamp has reached the limit and the counter is stuck there. */
  ghost predicate Poised(d: Doc, first: map<NodeId, Stamp>, start: nat) {
    ValidDoc(d) && Stamped(d, first) && (Highest(d, first) < start <= LIMIT || Highest(d, first) == LIMIT == start)
  }

  /** A number the walk gives out is not on the page, and a kept ref has no second carrier. */
  lemma NotGivenOut(d: Doc, first: map<NodeId, Stamp>, start: nat, order: seq<nat>, i: nat, k: nat)
    requires Ready(d, first, start) && Listable(d, order) && i < |d.elements| && k < |order| && order[k] != i
    requires IsRef(StampAt(d, first, i).ref)
    ensures RefAt(d, first, start, order, k) == StampAt(d, first, i).ref ==> Carriers(d, first, StampAt(d, first, i).ref) >= 2
    ensures !Keeps(d, first, order[k]) ==> RefAt(d, first, start, order, k) != StampAt(d, first, i).ref
  {
    var ref := StampAt(d, first, i).ref;
    HighestBounds(d, first, |d.elements|, i);
    if Keeps(d, first, order[k]) {
      if StampAt(d, first, order[k]).ref == ref {
        if i < order[k] { CarriedTwice(d, first, ref, |d.elements|, i, order[k]); }
        else { CarriedTwice(d, first, ref, |d.elements|, order[k], i); }
      }
    } else {
      RefReadsBack(Min(start + Fresh(d, first, order[..k]), LIMIT));
    }
  }

  /** One more element, by `Keeps` alone. */
  function Extended(d: Doc, first: map<NodeId, Stamp>, w: Walk, i: nat): Walk
    requires i < |d.elements| && d.elements[i].look.role.Some?
  {
    var e, kept := d.elements[i], Keeps(d, first, i);
    var ref := if kept then StampAt(d, first, i).ref else RefOf(w.counter);
    Walk(w.stamps[e.node := Stamp(ref, e.look.role, Some(e.look.name))], if kept then w.counter else Succ(w.counter),
         w.issued + {ref}, w.out + [Item(e.node, ref, e.look.role.value, e.look.name)])
  }

  ghost predicate Grown(d: Doc, prev: seq<nat>, i: nat, order: seq<nat>) {
    order == prev + [i] && Listable(d, order) && Listable(d, prev) && i < |d.elements| && d.elements[i].look.role.Some?
  }

  lemma EarlierOnesDiffer(d: Doc, order: seq<nat>, prev: seq<nat>, i: nat, k: nat)
    requires ValidDoc(d) && Grown(d, prev, i, order) && k < |prev|
    ensures order[k] == prev[k] != i && d.elements[prev[k]].node != d.elements[i].node
  {
    assert order[|prev|] == i && order[k] == prev[k];
  }

  /** A ref that some element carries and the walk gives out to another one is either carried twice or
      the last one there is. */
  lemma GivenOutOnlyAtTheLimit(d: Doc, first: map<NodeId, Stamp>, start: nat, order: seq<nat>, i: nat, k: nat)
    requires Poised(d, first, start) && Listable(d, order) && i < |d.elements| && k < |order| && order[k] != i
    requires IsRef(StampAt(d, first, i).ref) && RefAt(d, first, start, order, k) == StampAt(d, first, i).ref
    ensures Carriers(d, first, StampAt(d, first, i).ref) >= 2 || (start == LIMIT && StampAt(d, first, i).ref == RefOf(LIMIT) && !Keeps(d, first, order[k]))
  {
    hide CarriersIn, IsRef, RefOf, Decimal, Value, NumberOf, HighestIn, Fresh;
    if Highest(d, first) < start {
      hide RefAt, Keeps, Carriers;
      NotGivenOut(d, first, start, order, i, k);
    } else if Keeps(d, first, order[k]) {
      var ref := StampAt(d, first, i).ref;
      if i < order[k] { CarriedTwice(d, first, ref, |d.elements|, i, order[k]); }
      else { CarriedTwice(d, first, ref, |d.elements|, order[k], i); }
    }
  }

  /** The walker's own test for keeping a ref comes to `Keeps`. */
  lemma StepIsClosedForm(d: Doc, first: map<NodeId, Stamp>, start: nat, prev: seq<nat>, w: Walk, i: nat, order: seq<nat>)
    requires Poised(d, first, start) && Grown(d, prev, i, order)
    requires ClosedForm(d, first, start, prev, w)
    ensures RefFor(d, first, w, i) == Extended(d, first, w, i)
  {
    hide Carriers, IsRef, RefOf, Highest, Fresh, RefAt;
    assert order[|prev|] == i;
    var existing := StampAt(d, first, i);
    forall k | 0 <= k < |prev| ensures d.elements[prev[k]].node != d.elements[i].node && prev[k] != i {
      EarlierOnesDiffer(d, order, prev, i, k);
    }
    assert StampAt(d, w.stamps, i) == existing;
    if IsRef(existing.ref) && existing.ref in w.issued {
      var k :| 0 <= k < |prev| && w.out[k].ref == existing.ref;
      assert ItemAt(d, first, start, prev, w, k);
      GivenOutOnlyAtTheLimit(d, first, start, prev, i, k);
    }
    if Keeps(d, first, i) { assert w.stamps[d.elements[i].node := existing] == w.stamps; }
  }

  lemma ExtendItems(d: Doc, first: map<NodeId, Stamp>, start: nat, prev: seq<nat>, i: nat, w: Walk, order: seq<nat>, k: nat)
    requires Poised(d, first, start) && Grown(d, prev, i, order) && k < |order|
    requires ClosedForm(d, first, start, prev, w)
    ensures var w' := Extended(d, first, w, i); |w'.out| == |order| && ItemAt(d, first, start, order, w', k)
  {
    hide Carriers, IsRef, RefOf, Highest, Keeps, Fresh, OthersUntouched;
    assert order[|prev|] == i && order[..|prev|] == prev;
    if k < |prev| {
      EarlierOnesDiffer(d, order, prev, i, k);
      assert ItemAt(d, first, start, prev, w, k);
      assert order[..k] == prev[..k];
    }
  }

  lemma ExtendStamps(d: Doc, first: map<NodeId, Stamp>, start: nat, prev: seq<nat>, i: nat, w: Walk, order: seq<nat>)
    requires Poised(d, first, start) && Grown(d, prev, i, order)
    requires OthersUntouched(d, first, prev, w.stamps)
    ensures OthersUntouched(d, first, order, Extended(d, first, w, i).stamps)
  {
    hide Keeps, RefOf, Highest;
    assert order[|prev|] == i;
    var w' := Extended(d, first, w, i);
    assert d.elements[i].node in first;
    forall n <- first ensures InOrder(d, order, n) || w'.stamps[n] == first[n] {
      if n == d.elements[i].node {
        assert d.elements[order[|prev|]].node == n;
      } else if InOrder(d, prev, n) {
        var k :| 0 <= k < |prev| && d.elements[prev[k]].node == n;
        assert d.elements[order[k]].node == n;
      }
    }
  }

  lemma ExtendClosedForm(d: Doc, first: map<NodeId, Stamp>, start: nat, prev: seq<nat>, i: nat, w: Walk, order: seq<nat>)
    requires Poised(d, first, start) && Grown(d, prev, i, order)
    requires ClosedForm(d, first, start, prev, w)
    ensures ClosedForm(d, first, start, order, Extended(d, first, w, i))
  {
    hide Keeps, RefOf, Highest, ItemAt, OthersUntouched;
    assert order[|prev|] == i && order[..|prev|] == prev;
    var w' := Extended(d, first, w, i);
    forall k | 0 <= k < |order| ensures ItemAt(d, first, start, order, w', k) { ExtendItems(d, first, start, prev, i, w, order, k); }
    forall r <- w'.issued ensures exists k :: 0 <= k < |order| && w'.out[k].ref == r {
      if r in w.issued {
        var k :| 0 <= k < |prev| && w.out[k].ref == r;
        assert w'.out[k].ref == r;
      } else {
        assert w'.out[|prev|].ref == r;
      }
    }
    ExtendStamps(d, first, start, prev, i, w, order);
  }

  lemma {:induction false} WalkIsClosedForm(d: Doc, first: map<NodeId, Stamp>, start: nat, order: seq<nat>)
    requires Poised(d, first, start) && Listable(d, order)
    ensures ClosedForm(d, first, start, order, StampAll(d, first, Walk(first, start, {}, []), order))
    decreases |order|
  {
    if order != [] {
      hide ClosedForm, RefFor, Keeps, Poised, Extended;
      var prev, i := order[..|order| - 1], order[|order| - 1];
      assert prev + [i] == order && order[|prev|] == i && Grown(d, prev, i, order);
      WalkIsClosedForm(d, first, start, prev);
      var w := StampAll(d, first, Walk(first, start, {}, []), prev);
      StepIsClosedForm(d, first, start, prev, w, i, order);
      ExtendClosedForm(d, first, start, prev, i, w, order);
    } else {
      assert ClosedForm(d, first, start, [], Walk(first, start, {}, []));
    }
  }

  // ---------------------------------------------------------------- the scripts, step by step

  lemma {:induction false} StampAllTwice(d: Doc, first: map<NodeId, Stamp>, w: Walk, a: seq<nat>, b: seq<nat>)
    requires Walkable(d, a) && Walkable(d, b)
    ensures Walkable(d, a + b) && StampAll(d, first, w, a + b) == StampAll(d, first, StampAll(d, first, w, a), b)
    decreases |b|
  {
    if b == [] {
      assert a + b == a;
    } else {
      var c := b[..|b| - 1];
      assert Walkable(d, c);
      assert (a + b)[..|a + b| - 1] == a + c;
      StampAllTwice(d, first, w, a, c);
    }
  }

  lemma VisitIsWalkable(d: Doc, i: nat)
    requires ValidDoc(d) && i < |d.elements|
    ensures Walkable(d, Visit(d, i))
    ensures forall j | i < j <= |d.elements| :: Walkable(d, VisitKids(d, i, j))
  {
    forall a | 0 <= a < |Visit(d, i)| ensures Visit(d, i)[a] < |d.elements| && d.elements[Visit(d, i)[a]].look.role.Some? {
      VisitIsUnder(d, i, Visit(d, i)[a]);
    }
    forall j | i < j <= |d.elements| ensures Walkable(d, VisitKids(d, i, j)) {
      forall a | 0 <= a < |VisitKids(d, i, j)|
        ensures VisitKids(d, i, j)[a] < |d.elements| && d.elements[VisitKids(d, i, j)[a]].look.role.Some?
      {
        VisitKidsIsUnder(d, i, j, VisitKids(d, i, j)[a]);
      }
    }
  }

  /** The walk from `i`: the element itself, if it has a role, then its children. */
  lemma WalkUnfolds(d: Doc, first: map<NodeId, Stamp>, w: Walk, i: nat)
    requires ValidDoc(d) && i < |d.elements| && d.elements[i].look.visible
    ensures Walkable(d, Visit(d, i)) && Walkable(d, VisitKids(d, i, i + 1))
    ensures StampAll(d, first, w, Visit(d, i)) ==
            StampAll(d, first, if d.elements[i].look.role.Some? then RefFor(d, first, w, i) else w, VisitKids(d, i, i + 1))
  {
    hide RefFor;
    VisitIsWalkable(d, i);
    if d.elements[i].look.role.Some? {
      assert [i][..0] == [];
      StampAllTwice(d, first, w, [i], VisitKids(d, i, i + 1));
    } else {
      assert Visit(d, i) == VisitKids(d, i, i + 1);
    }
  }

  lemma KidsUnfold(d: Doc, first: map<NodeId, Stamp>, w: Walk, i: nat, j: nat)
    requires ValidDoc(d) && i < j < |d.elements|
    ensures Walkable(d, VisitKids(d, i, j)) && Walkable(d, Visit(d, j)) && Walkable(d, VisitKids(d, i, j + 1))
    ensures StampAll(d, first, w, VisitKids(d, i, j)) ==
            StampAll(d, first, if d.elements[j].parent == Some(i) then StampAll(d, first, w, Visit(d, j)) else w, VisitKids(d, i, j + 1))
  {
    hide RefFor;
    VisitIsWalkable(d, i);
    VisitIsWalkable(d, j);
    if d.elements[j].parent == Some(i) {
      StampAllTwice(d, first, w, Visit(d, j), VisitKids(d, i, j + 1));
    } else {
      assert VisitKids(d, i, j) == VisitKids(d, i, j + 1);
    }
  }

  function CountOf(carriers: map<string, nat>, ref: string): nat { if ref in carriers then carriers[ref] else 0 }

  /** The counting was done on the stamps `first`. */
  ghost predicate Counted(d: Doc, carriers: map<string, nat>, first: map<NodeId, Stamp>) {
    forall ref | IsRef(ref) :: CountOf(carriers, ref) == Carriers(d, first, ref)
  }

  lemma NoMoreKids(d: Doc, first: map<NodeId, Stamp>, w: Walk, i: nat)
    requires i < |d.elements|
    ensures Walkable(d, VisitKids(d, i, |d.elements|)) && StampAll(d, first, w, VisitKids(d, i, |d.elements|)) == w
  {}

  class Walker {
    const doc: Doc
    var stamps: map<NodeId, Stamp>
    var carriers: map<string, nat>
    var highest: nat
    var counter: nat
    var issued: set<string>
    var out: seq<Item>

    function State(): Walk
      reads this
    {
      Walk(stamps, counter, issued, out)
    }

    constructor (doc: Doc, stamps: map<NodeId, Stamp>)
      ensures this.doc == doc && this.stamps == stamps
    {
      this.doc, this.stamps := doc, stamps;
      carriers, highest, counter, issued, out := map[], 0, 0, {}, [];
    }

    method CountCarriers()
      modifies this`carriers, this`highest
      ensures Counted(doc, carriers, stamps) && highest == Highest(doc, stamps)
    {
      carriers, highest := map[], 0;
      for i := 0 to |doc.elements|
        invariant highest == HighestIn(doc, stamps, i)
        invariant forall ref | IsRef(ref) :: CountOf(carriers, ref) == CarriersIn(doc, stamps, ref, i)
      {
        var ref := StampAt(doc, stamps, i).ref;
        if IsRef(ref) {
          carriers := carriers[ref := CountOf(carriers, ref) + 1];
          if NumberOf(ref) > highest { highest := NumberOf(ref); }
        }
      }
    }

    method List(i: nat, ghost first: map<NodeId, Stamp>)
      requires i < |doc.elements| && doc.elements[i].look.role.Some? && Counted(doc, carriers, first)
      modifies this`stamps, this`counter, this`issued, this`out
      ensures State() == RefFor(doc, first, old(State()), i)
    {
      var e := doc.elements[i];
      var existing := StampAt(doc, stamps, i);
      var ref := existing.ref;
      if !(IsRef(ref) && CountOf(carriers, ref) == 1 && ref !in issued && existing.role == e.look.role && existing.name == Some(e.look.name)) {
        ref := RefOf(counter);
        counter := Succ(counter);
        stamps := stamps[e.node := Stamp(ref, e.look.role, Some(e.look.name))];
      }
      issued := issued + {ref};
      out := out + [Item(e.node, ref, e.look.role.value, e.look.name)];
    }

    method WalkFrom(i: nat, ghost first: map<NodeId, Stamp>)
      requires ValidDoc(doc) && i < |doc.elements| && Counted(doc, carriers, first)
      modifies this`stamps, this`counter, this`issued, this`out
      ensures Walkable(doc, Visit(doc, i))
      ensures State() == StampAll(doc, first, old(State()), Visit(doc, i))
      decreases |doc.elements| - i, 1
    {
      VisitIsWalkable(doc, i);
      if !doc.elements[i].look.visible { return; }
      hide RefFor, StampAll, Visit, VisitKids, Counted;
      WalkUnfolds(doc, first, State(), i);
      if doc.elements[i].look.role.Some? { List(i, first); }
      WalkChildren(i, first);
    }

    method WalkChildren(i: nat, ghost first: map<NodeId, Stamp>)
      requires ValidDoc(doc) && i < |doc.elements| && Counted(doc, carriers, first)
      modifies this`stamps, this`counter, this`issued, this`out
      ensures Walkable(doc, VisitKids(doc, i, i + 1))
      ensures State() == StampAll(doc, first, old(State()), VisitKids(doc, i, i + 1))
      decreases |doc.elements| - i, 0
    {
      hide RefFor, StampAll, Visit, VisitKids, Counted, Walkable;
      VisitIsWalkable(doc, i);
      for j := i + 1 to |doc.elements|
        invariant Walkable(doc, VisitKids(doc, i, i + 1)) && Walkable(doc, VisitKids(doc, i, j))
        invariant StampAll(doc, first, State(), VisitKids(doc, i, j)) == StampAll(doc, first, old(State()), VisitKids(doc, i, i + 1))
      {
        KidsUnfold(doc, first, State(), i, j);
        if doc.elements[j].parent == Some(i) { WalkFrom(j, first); }
      }
      NoMoreKids(doc, first, State(), i);
    }

    method TakeSnapshot(next: nat)
      requires ValidDoc(doc)
      modifies this
      ensures State() == Snapshot(doc, old(stamps), next)
    {
      CountCarriers();
      counter, issued, out := Max(if next == 0 then 1 else next, Succ(highest)), {}, [];
      ghost var first := stamps;
      VisitIsListable(doc);
      WalkFrom(doc.body, first);
    }

    method Resolve(ref: string) returns (r: Option<Cause>)
      requires ValidDoc(doc)
      ensures r == CheckRef(doc, stamps, ref)
    {
      if !IsRef(ref) { return Some(Missing); }
      var found: seq<nat> := [];
      for i := 0 to |doc.elements|
        invariant |found| == CarriersIn(doc, stamps, ref, i)
        invariant found != [] ==> found[0] < i && StampAt(doc, stamps, found[0]).ref == ref
        invariant found != [] ==> found[0] == FirstCarrier(doc, stamps, ref, i)
      {
        if StampAt(doc, stamps, i).ref == ref { found := found + [i]; }
      }
      if |found| != 1 { return Some(Missing); }
      var n: nat := found[0];
      while n != doc.body
        invariant n < |doc.elements|
        invariant WayUp(doc, n) == WayUp(doc, found[0])
        decreases n
      {
        if !doc.elements[n].look.visible { return Some(Hidden); }
        if doc.elements[n].parent.None? { return Some(Missing); }
        n := doc.elements[n].parent.value;
      }
      if !doc.elements[n].look.visible { return Some(Hidden); }
      var look, stamp := doc.elements[found[0]].look, StampAt(doc, stamps, found[0]);
      if look.role.None? || look.role != stamp.role || Some(look.name) != stamp.name { return Some(Changed); }
      r := None;
    }
  }
}
