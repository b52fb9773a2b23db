/** What one snapshot promises, on any document and any stamps, forged and cloned ones included. */
module RefGuarantees {
  import opened Tombstones
  import opened Numerals
  import opened RefWalker

  /** The document's elements are known, and no stamp and no counter is beyond the limit. */
  ghost predicate Sound(d: Doc, stamps: map<NodeId, Stamp>, next: nat) {
    ValidDoc(d) && Stamped(d, stamps) && Highest(d, stamps) <= LIMIT && next <= LIMIT
  }

  /** How many listed elements need a fresh number. */
  ghost function Needed(d: Doc, stamps: map<NodeId, Stamp>): nat
    requires ValidDoc(d)
  {
    VisitIsListable(d);
    Fresh(d, stamps, Visit(d, d.body))
  }

  /** There is a number left for every element that needs a fresh one. With a stamp at the limit that is
      the last number, so one element at most may need it and no other listed element may keep it. */
  ghost predicate Room(d: Doc, stamps: map<NodeId, Stamp>, next: nat)
    requires ValidDoc(d)
  {
    && Start(d, stamps, next) + Needed(d, stamps) <= LIMIT + 1
    && (Highest(d, stamps) == LIMIT && Needed(d, stamps) == 1 ==>
          forall i <- Visit(d, d.body) | i < |d.elements| && Keeps(d, stamps, i) :: StampAt(d, stamps, i).ref != RefOf(LIMIT))
  }

  /** Nor does any element that is not listed carry the last number, where it is given out. */
  ghost predicate Clear(d: Doc, stamps: map<NodeId, Stamp>)
    requires ValidDoc(d)
  {
    Highest(d, stamps) == LIMIT && Needed(d, stamps) >= 1 ==>
      forall j | 0 <= j < |d.elements| && j !in Visit(d, d.body) :: StampAt(d, stamps, j).ref != RefOf(LIMIT)
  }

  ghost predicate DistinctRefs(out: seq<Item>) { forall a, b | 0 <= a < b < |out| :: out[a].ref != out[b].ref }

  lemma SnapshotClosed(d: Doc, stamps: map<NodeId, Stamp>, next: nat)
    requires Sound(d, stamps, next)
    ensures var order, start := Visit(d, d.body), Start(d, stamps, next);
      && Listable(d, order) && Poised(d, stamps, start) && start <= LIMIT
      && (Highest(d, stamps) < LIMIT ==> Ready(d, stamps, start))
      && Needed(d, stamps) == Fresh(d, stamps, order)
      && ClosedForm(d, stamps, start, order, Snapshot(d, stamps, next))
  {
    VisitIsListable(d);
    hide ClosedForm, StampAll;
    WalkIsClosedForm(d, stamps, Start(d, stamps, next), Visit(d, d.body));
  }

  // ---------------------------------------------------------------- distinct refs

  lemma {:induction false} FreshGrows(d: Doc, first: map<NodeId, Stamp>, order: seq<nat>, a: nat, b: nat)
    requires Listable(d, order) && a <= b <= |order|
    ensures Fresh(d, first, order[..a]) <= Fresh(d, first, order[..b])
    ensures a < b && !Keeps(d, first, order[a]) ==> Fresh(d, first, order[..a]) < Fresh(d, first, order[..b])
    decreases b
  {
    if a < b {
      assert order[..b][..b - 1] == order[..b - 1];
      FreshGrows(d, first, order, a, b - 1);
    }
  }

  /** The element that gets the fresh number `t`. */
  lemma {:induction false} FreshIndex(d: Doc, first: map<NodeId, Stamp>, order: seq<nat>, n: nat, t: nat) returns (k: nat)
    requires Listable(d, order) && n <= |order| && t < Fresh(d, first, order[..n])
    ensures k < n && !Keeps(d, first, order[k]) && Fresh(d, first, order[..k]) == t
    decreases n
  {
    assert order[..n][..n - 1] == order[..n - 1];
    if t < Fresh(d, first, order[..n - 1]) { k := FreshIndex(d, first, order, n - 1, t); } else { k := n - 1; }
  }

  /** The fresh number of the `k`-th listed element. */
  function NumberAt(d: Doc, first: map<NodeId, Stamp>, start: nat, order: seq<nat>, k: nat): nat
    requires k < |order| && forall a | 0 <= a < |order| :: order[a] < |d.elements|
  {
    Min(start + Fresh(d, first, order[..k]), LIMIT)
  }

  lemma FreshNumber(d: Doc, first: map<NodeId, Stamp>, start: nat, order: seq<nat>, k: nat)
    requires Listable(d, order) && k < |order| && !Keeps(d, first, order[k])
    ensures var ref := RefAt(d, first, start, order, k); IsRef(ref) && NumberOf(ref) == NumberAt(d, first, start, order, k)
  {
    hide Keeps, Fresh, NumberOf, IsRef;
    RefReadsBack(NumberAt(d, first, start, order, k));
  }

  lemma FreshBelow(d: Doc, first: map<NodeId, Stamp>, start: nat, order: seq<nat>, a: nat, b: nat)
    requires Listable(d, order) && a < b <= |order| && !Keeps(d, first, order[a]) && start + Fresh(d, first, order) <= LIMIT + 1
    ensures start <= NumberAt(d, first, start, order, a) < start + Fresh(d, first, order)
    ensures b < |order| && !Keeps(d, first, order[b]) ==> NumberAt(d, first, start, order, a) < NumberAt(d, first, start, order, b)
  {
    hide Keeps, Fresh;
    assert order[..|order|] == order;
    FreshGrows(d, first, order, a, |order|);
    FreshGrows(d, first, order, a, b);
    if b < |order| { FreshGrows(d, first, order, b, |order|); }
  }

  /** A fresh ref that some element of the page carries is the last one, and the counter is stuck there. */
  lemma FreshOnThePage(d: Doc, first: map<NodeId, Stamp>, start: nat, order: seq<nat>, k: nat, j: nat)
    requires Poised(d, first, start) && Listable(d, order) && k < |order| && j < |d.elements| && !Keeps(d, first, order[k])
    requires RefAt(d, first, start, order, k) == StampAt(d, first, j).ref
    ensures Highest(d, first) == LIMIT == start && RefAt(d, first, start, order, k) == RefOf(LIMIT) && Fresh(d, first, order) >= 1
  {
    FreshNumber(d, first, start, order, k);
    HighestBounds(d, first, |d.elements|, j);
    hide Keeps, NumberOf, IsRef, HighestIn, Fresh;
    assert order[..|order|] == order;
    FreshGrows(d, first, order, k, |order|);
  }

  lemma KeepersDiffer(d: Doc, first: map<NodeId, Stamp>, i: nat, j: nat)
    requires i < |d.elements| && j < |d.elements| && i != j && Keeps(d, first, i)
    ensures StampAt(d, first, i).ref != StampAt(d, first, j).ref
  {
    hide IsRef, CarriersIn;
    if StampAt(d, first, i).ref == StampAt(d, first, j).ref { CarriedTwiceAround(d, first, StampAt(d, first, i).ref, i, j); }
  }

  /** Two elements listed under one ref: both got the last number, or one got it and the other keeps it. */
  lemma SharedRefIsLast(d: Doc, first: map<NodeId, Stamp>, start: nat, order: seq<nat>, a: nat, b: nat)
    requires Poised(d, first, start) && Listable(d, order) && a < |order| && b < |order| && a != b
    requires RefAt(d, first, start, order, a) == RefAt(d, first, start, order, b)
    ensures RefAt(d, first, start, order, a) == RefOf(LIMIT)
    ensures || (!Keeps(d, first, order[a]) && !Keeps(d, first, order[b]) && start + Fresh(d, first, order) > LIMIT + 1)
            || (Keeps(d, first, order[a]) != Keeps(d, first, order[b]) && Highest(d, first) == LIMIT == start && Fresh(d, first, order) >= 1)
  {
    assert order[a] != order[b];
    if Keeps(d, first, order[a]) && Keeps(d, first, order[b]) {
      KeepersDiffer(d, first, order[a], order[b]);
    } else if Keeps(d, first, order[a]) {
      hide Keeps, Fresh;
      FreshOnThePage(d, first, start, order, b, order[a]);
    } else if Keeps(d, first, order[b]) {
      hide Keeps, Fresh;
      FreshOnThePage(d, first, start, order, a, order[b]);
    } else {
      TwoFreshShare(d, first, start, order, if a < b then a else b, if a < b then b else a);
    }
  }

  lemma TwoFreshShare(d: Doc, first: map<NodeId, Stamp>, start: nat, order: seq<nat>, a: nat, b: nat)
    requires Listable(d, order) && a < b < |order| && !Keeps(d, first, order[a]) && !Keeps(d, first, order[b])
    requires RefAt(d, first, start, order, a) == RefAt(d, first, start, order, b)
    ensures RefAt(d, first, start, order, a) == RefOf(LIMIT) && start + Fresh(d, first, order) > LIMIT + 1
  {
    FreshNumber(d, first, start, order, a);
    FreshNumber(d, first, start, order, b);
    hide Keeps, Fresh, NumberOf, IsRef;
    assert order[..|order|] == order;
    FreshGrows(d, first, order, a, b);
    FreshGrows(d, first, order, b, |order|);
  }

  lemma ItemsFollow(d: Doc, stamps: map<NodeId, Stamp>, next: nat, k: nat)
    requires Sound(d, stamps, next)
    ensures var order, out := Visit(d, d.body), Snapshot(d, stamps, next).out;
      |out| == |order| && Listable(d, order) && (k < |order| ==> out[k].ref == RefAt(d, stamps, Start(d, stamps, next), order, k))
  {
    SnapshotClosed(d, stamps, next);
    hide StampAll, Visit, RefAt, Snapshot;
    if k < |Visit(d, d.body)| { assert ItemAt(d, stamps, Start(d, stamps, next), Visit(d, d.body), Snapshot(d, stamps, next), k); }
  }

  /** When the numbers run out the last two fresh ones are the same. */
  lemma LastTwoCollide(d: Doc, first: map<NodeId, Stamp>, start: nat, order: seq<nat>) returns (a: nat, b: nat)
    requires Listable(d, order) && start <= LIMIT && start + Fresh(d, first, order) > LIMIT + 1
    ensures a < b < |order| && RefAt(d, first, start, order, a) == RefAt(d, first, start, order, b)
  {
    hide Keeps, Fresh, RefOf, StampAt;
    assert order[..|order|] == order;
    var n := Fresh(d, first, order);
    b := FreshIndex(d, first, order, |order|, n - 1);
    a := FreshIndex(d, first, order, b, n - 2);
  }

  lemma FirstFreshIsLast(d: Doc, first: map<NodeId, Stamp>, order: seq<nat>) returns (k: nat)
    requires Listable(d, order) && Fresh(d, first, order) >= 1
    ensures k < |order| && !Keeps(d, first, order[k]) && RefAt(d, first, LIMIT, order, k) == RefOf(LIMIT)
  {
    hide Keeps, Fresh, RefOf;
    assert order[..|order|] == order;
    k := FreshIndex(d, first, order, |order|, 0);
  }

  lemma KeeperCollides(d: Doc, first: map<NodeId, Stamp>, order: seq<nat>, i: nat) returns (a: nat, b: nat)
    requires Listable(d, order) && Fresh(d, first, order) >= 1
    requires i in order && i < |d.elements| && Keeps(d, first, i) && StampAt(d, first, i).ref == RefOf(LIMIT)
    ensures a < |order| && b < |order| && a != b && RefAt(d, first, LIMIT, order, a) == RefAt(d, first, LIMIT, order, b)
  {
    b := FirstFreshIsLast(d, first, order);
    hide Keeps, Fresh, RefOf;
    a :| 0 <= a < |order| && order[a] == i;
  }

  lemma NumbersRunOut(d: Doc, stamps: map<NodeId, Stamp>, next: nat) returns (a: nat, b: nat)
    requires Sound(d, stamps, next) && !Room(d, stamps, next)
    ensures a < |Snapshot(d, stamps, next).out| && b < |Snapshot(d, stamps, next).out| && a != b
    ensures Snapshot(d, stamps, next).out[a].ref == Snapshot(d, stamps, next).out[b].ref
  {
    SnapshotClosed(d, stamps, next);
    var order, start := Visit(d, d.body), Start(d, stamps, next);
    assert Highest(d, stamps) == LIMIT ==> start == LIMIT;
    hide StampAll, Visit, Keeps, HighestIn, Highest, Snapshot, ClosedForm, Fresh, RefAt, Start, Poised, Ready, RefOf, Carriers;
    if start + Needed(d, stamps) > LIMIT + 1 {
      a, b := LastTwoCollide(d, stamps, start, order);
    } else {
      var i :| i in order && i < |d.elements| && Keeps(d, stamps, i) && StampAt(d, stamps, i).ref == RefOf(LIMIT);
      a, b := KeeperCollides(d, stamps, order, i);
    }
    ItemsFollow(d, stamps, next, a);
    ItemsFollow(d, stamps, next, b);
  }

  /** On any page with stamps up to the limit, clones and forgeries included, the refs of a listing are
      distinct exactly if the numbers last for the elements that need one. */
  lemma ListedRefsAreDistinct(d: Doc, stamps: map<NodeId, Stamp>, next: nat)
    requires Sound(d, stamps, next)
    ensures DistinctRefs(Snapshot(d, stamps, next).out) <==> Room(d, stamps, next)
  {
    var out := Snapshot(d, stamps, next).out;
    if Room(d, stamps, next) {
      forall a, b | 0 <= a < b < |out| ensures out[a].ref != out[b].ref { RoomKeepsApart(d, stamps, next, a, b); }
    } else {
      hide *;
      var a, b := NumbersRunOut(d, stamps, next);
      NotDistinct(out, a, b);
    }
  }

  lemma NotDistinct(out: seq<Item>, a: nat, b: nat)
    requires a < |out| && b < |out| && a != b && out[a].ref == out[b].ref
    ensures !DistinctRefs(out)
  {
    assert out[if a < b then a else b].ref == out[if a < b then b else a].ref;
  }

  lemma RoomKeepsApart(d: Doc, stamps: map<NodeId, Stamp>, next: nat, a: nat, b: nat)
    requires Sound(d, stamps, next) && Room(d, stamps, next)
    requires a < |Snapshot(d, stamps, next).out| && b < |Snapshot(d, stamps, next).out| && a != b
    ensures Snapshot(d, stamps, next).out[a].ref != Snapshot(d, stamps, next).out[b].ref
  {
    SnapshotClosed(d, stamps, next);
    var order, start := Visit(d, d.body), Start(d, stamps, next);
    ItemsFollow(d, stamps, next, a);
    ItemsFollow(d, stamps, next, b);
    assert order[a] in order && order[b] in order && order[a] < |d.elements| && order[b] < |d.elements|;
    hide StampAll, Visit, HighestIn, Snapshot, ClosedForm, Fresh, Carriers, IsRef;
    if RefAt(d, stamps, start, order, a) == RefAt(d, stamps, start, order, b) {
      SharedRefIsLast(d, stamps, start, order, a, b);
      assert false;
    }
  }

  // ---------------------------------------------------------------- the resolver

  /** What a listed element looks like after the walk. */
  lemma ListedStamp(d: Doc, stamps: map<NodeId, Stamp>, next: nat, k: nat)
    requires Sound(d, stamps, next) && k < |Snapshot(d, stamps, next).out|
    ensures var order, w := Visit(d, d.body), Snapshot(d, stamps, next);
      && |order| == |w.out| && Listable(d, order)
      && StampAt(d, w.stamps, order[k]) == Stamp(w.out[k].ref, Some(w.out[k].role), Some(w.out[k].name))
      && d.elements[order[k]].look.role == Some(w.out[k].role) && d.elements[order[k]].look.name == w.out[k].name
      && d.elements[order[k]].node == w.out[k].node
      && IsRef(w.out[k].ref)
  {
    SnapshotClosed(d, stamps, next);
    hide StampAll, Visit, Highest, Snapshot, Carriers, Fresh;
    assert ItemAt(d, stamps, Start(d, stamps, next), Visit(d, d.body), Snapshot(d, stamps, next), k);
  }

  /** Another element carries the ref of a listed one after the walk only where it is the last ref, the
      counter is stuck, and there was no room or the page was not clear. */
  lemma SharedAfterTheWalk(d: Doc, stamps: map<NodeId, Stamp>, next: nat, k: nat, j: nat)
    requires Sound(d, stamps, next) && k < |Snapshot(d, stamps, next).out| && j < |d.elements|
    requires |Visit(d, d.body)| == |Snapshot(d, stamps, next).out| && j != Visit(d, d.body)[k]
    requires StampAt(d, Snapshot(d, stamps, next).stamps, j).ref == Snapshot(d, stamps, next).out[k].ref
    ensures Snapshot(d, stamps, next).out[k].ref == RefOf(LIMIT) && Snapshot(d, stamps, next).counter == LIMIT
    ensures !(Room(d, stamps, next) && Clear(d, stamps))
  {
    SnapshotClosed(d, stamps, next);
    var order, start, w := Visit(d, d.body), Start(d, stamps, next), Snapshot(d, stamps, next);
    hide *;
    if j in order {
      var m := ListedShare(d, stamps, start, order, w, k, j);
      SnapshotLength(d, stamps, next);
      RoomOrShared(d, stamps, next, m, k);
    } else {
      UnlistedShare(d, stamps, start, order, w, k, j);
      NotClear(d, stamps, j);
    }
    CounterIsStuck(d, stamps, start, order, w);
  }

  lemma CounterIsStuck(d: Doc, stamps: map<NodeId, Stamp>, start: nat, order: seq<nat>, w: Walk)
    requires Listable(d, order) && ClosedForm(d, stamps, start, order, w)
    ensures start + Fresh(d, stamps, order) >= LIMIT ==> w.counter == LIMIT
  {
    hide Fresh, ItemAt, OthersUntouched;
  }

  lemma NotClear(d: Doc, stamps: map<NodeId, Stamp>, j: nat)
    requires ValidDoc(d) && j < |d.elements| && j !in Visit(d, d.body) && StampAt(d, stamps, j).ref == RefOf(LIMIT)
    requires Highest(d, stamps) == LIMIT && Needed(d, stamps) >= 1
    ensures !Clear(d, stamps)
  {
    hide Visit, Highest, Needed, RefOf;
  }

  lemma ListedShare(d: Doc, stamps: map<NodeId, Stamp>, start: nat, order: seq<nat>, w: Walk, k: nat, j: nat) returns (m: nat)
    requires Poised(d, stamps, start) && Listable(d, order) && ClosedForm(d, stamps, start, order, w)
    requires k < |order| && j < |d.elements| && j in order && j != order[k] && StampAt(d, w.stamps, j).ref == w.out[k].ref
    ensures m < |order| && m != k && w.out[m].ref == w.out[k].ref == RefOf(LIMIT) && start + Fresh(d, stamps, order) >= LIMIT
  {
    hide Highest, Fresh, Carriers, RefOf, Keeps, RefAt;
    m :| 0 <= m < |order| && order[m] == j;
    assert ItemAt(d, stamps, start, order, w, m) && ItemAt(d, stamps, start, order, w, k);
    SharedRefIsLast(d, stamps, start, order, m, k);
  }

  lemma UnlistedShare(d: Doc, stamps: map<NodeId, Stamp>, start: nat, order: seq<nat>, w: Walk, k: nat, j: nat)
    requires Poised(d, stamps, start) && Listable(d, order) && ClosedForm(d, stamps, start, order, w)
    requires k < |order| && j < |d.elements| && j !in order && StampAt(d, w.stamps, j).ref == w.out[k].ref
    ensures w.out[k].ref == RefOf(LIMIT) == StampAt(d, stamps, j).ref && Highest(d, stamps) == LIMIT == start && Fresh(d, stamps, order) >= 1
  {
    hide HighestIn, Fresh, Carriers, RefOf, Keeps;
    assert ItemAt(d, stamps, start, order, w, k);
    assert !InOrder(d, order, d.elements[j].node);
    assert StampAt(d, w.stamps, j) == StampAt(d, stamps, j);
    if Keeps(d, stamps, order[k]) { KeepersDiffer(d, stamps, order[k], j); } else { FreshOnThePage(d, stamps, start, order, k, j); }
  }

  lemma RoomOrShared(d: Doc, stamps: map<NodeId, Stamp>, next: nat, a: nat, b: nat)
    requires Sound(d, stamps, next) && a < |Snapshot(d, stamps, next).out| && b < |Snapshot(d, stamps, next).out| && a != b
    requires Snapshot(d, stamps, next).out[a].ref == Snapshot(d, stamps, next).out[b].ref
    ensures !Room(d, stamps, next)
  {
    assert ValidDoc(d);
    hide *;
    if Room(d, stamps, next) { RoomKeepsApart(d, stamps, next, a, b); }
  }

  /** With room and a clear page a listed element is the only carrier of its ref after the walk. */
  lemma ListedIsSoleCarrier(d: Doc, stamps: map<NodeId, Stamp>, next: nat, k: nat)
    requires Sound(d, stamps, next) && Room(d, stamps, next) && Clear(d, stamps) && k < |Snapshot(d, stamps, next).out|
    ensures Carriers(d, Snapshot(d, stamps, next).stamps, Snapshot(d, stamps, next).out[k].ref) == 1
  {
    ListedStamp(d, stamps, next, k);
    var w, i := Snapshot(d, stamps, next), Visit(d, d.body)[k];
    var ref := w.out[k].ref;
    hide Visit, Snapshot, Room, Clear, Sound, CarriersIn, IsRef;
    forall j | 0 <= j < |d.elements| && j != i ensures StampAt(d, w.stamps, j).ref != ref {
      if StampAt(d, w.stamps, j).ref == ref { SharedAfterTheWalk(d, stamps, next, k, j); }
    }
    SoleCarrier(d, w.stamps, ref, |d.elements|, i);
  }

  /** Whatever resolves right after a snapshot was listed by it, and for the node it resolves to. */
  lemma ResolvedIsListed(d: Doc, stamps: map<NodeId, Stamp>, next: nat, ref: string)
    requires Sound(d, stamps, next) && CheckRef(d, Snapshot(d, stamps, next).stamps, ref).None?
    ensures var w := Snapshot(d, stamps, next);
      && Carriers(d, w.stamps, ref) == 1
      && exists k :: 0 <= k < |w.out| && w.out[k].ref == ref && w.out[k].node == d.elements[FirstCarrier(d, w.stamps, ref, |d.elements|)].node
  {
    var w, order := Snapshot(d, stamps, next), Visit(d, d.body);
    SnapshotLength(d, stamps, next);
    var i := FirstCarrier(d, w.stamps, ref, |d.elements|);
    VisitIsUnder(d, d.body, i);
    UnderIsWayUp(d, i);
    hide Snapshot, Visit, Sound, CarriersIn, IsRef, WayUp;
    var k :| 0 <= k < |order| && order[k] == i;
    ListedStamp(d, stamps, next, k);
  }

  lemma ListedResolves(d: Doc, stamps: map<NodeId, Stamp>, next: nat, k: nat)
    requires Sound(d, stamps, next) && k < |Snapshot(d, stamps, next).out|
    requires Carriers(d, Snapshot(d, stamps, next).stamps, Snapshot(d, stamps, next).out[k].ref) == 1
    ensures CheckRef(d, Snapshot(d, stamps, next).stamps, Snapshot(d, stamps, next).out[k].ref).None?
  {
    var w, order := Snapshot(d, stamps, next), Visit(d, d.body);
    ListedStamp(d, stamps, next, k);
    VisitIsUnder(d, d.body, order[k]);
    UnderIsWayUp(d, order[k]);
    var i := FirstCarrier(d, w.stamps, w.out[k].ref, |d.elements|);
    hide Snapshot, Visit, Sound, CarriersIn, IsRef, WayUp;
    if i != order[k] { CarriedTwiceAround(d, w.stamps, w.out[k].ref, i, order[k]); }
  }

  /** One element alone carries `ref`, everything from it up to the body is visible, and it has the role
      and the name it was stamped with. */
  ghost predicate LooksAsStamped(d: Doc, stamps: map<NodeId, Stamp>, ref: string, i: nat)
    requires ValidDoc(d)
  {
    && IsRef(ref) && SoleCarrierOf(d, stamps, ref, i)
    && Under(d, i, d.body)
    && d.elements[i].look.role.Some? && d.elements[i].look.role == StampAt(d, stamps, i).role
    && StampAt(d, stamps, i).name == Some(d.elements[i].look.name)
  }

  /** Whatever the page has become and whatever it did to its stamps, a ref resolves exactly if some
      element alone carries it, is still to be seen and looks as it was stamped. */
  lemma ResolvesExactly(d: Doc, stamps: map<NodeId, Stamp>, ref: string)
    requires ValidDoc(d)
    ensures CheckRef(d, stamps, ref).None? <==> exists i :: LooksAsStamped(d, stamps, ref, i)
  {
    hide IsRef, CarriersIn;
    if IsRef(ref) && Carriers(d, stamps, ref) == 1 {
      var i := FirstCarrier(d, stamps, ref, |d.elements|);
      OneCarrier(d, stamps, ref);
      UnderIsWayUp(d, i);
      hide WayUp, Under;
      if CheckRef(d, stamps, ref).None? { assert LooksAsStamped(d, stamps, ref, i); }
    } else if i :| LooksAsStamped(d, stamps, ref, i) {
      SoleCarrier(d, stamps, ref, |d.elements|, i);
      assert false;
    }
  }

  /** From element `i` upwards, to the body or to where there is no parent. */
  function Upwards(d: Doc, i: nat): (path: seq<nat>)
    requires i < |d.elements| && ValidDoc(d)
    ensures forall k <- path :: k < |d.elements|
  {
    [i] + (if i == d.body || d.elements[i].parent.None? then [] else Upwards(d, d.elements[i].parent.value))
  }

  ghost predicate AllSeen(d: Doc, path: seq<nat>) { forall k <- path :: k < |d.elements| && d.elements[k].look.visible }

  lemma {:induction false} WayUpTells(d: Doc, i: nat)
    requires i < |d.elements| && ValidDoc(d)
    ensures var path := Upwards(d, i);
      && (WayUp(d, i) == Some(Missing) ==> d.body !in path)
      && (WayUp(d, i) == Some(Hidden) ==> !AllSeen(d, path))
      && (WayUp(d, i).None? ==> AllSeen(d, path) && d.body in path)
      && (WayUp(d, i) == Some(Missing) ==> AllSeen(d, path))
      && WayUp(d, i) in {None, Some(Missing), Some(Hidden)}
  {
    if d.elements[i].look.visible && i != d.body && d.elements[i].parent.Some? { WayUpTells(d, d.elements[i].parent.value); }
  }

  /** Why a ref that one element alone carries does not resolve: hidden exactly if something above it is
      not visible, missing exactly if all of that is visible and the body is not among it, changed in
      every other case. */
  lemma WhyRefused(d: Doc, stamps: map<NodeId, Stamp>, ref: string, i: nat)
    requires ValidDoc(d) && IsRef(ref) && SoleCarrierOf(d, stamps, ref, i)
    ensures var cause, path := CheckRef(d, stamps, ref), Upwards(d, i);
      && (cause == Some(Hidden) <==> !AllSeen(d, path))
      && (cause == Some(Missing) <==> AllSeen(d, path) && d.body !in path)
      && (cause == Some(Changed) <==> AllSeen(d, path) && d.body in path && !LooksAsStamped(d, stamps, ref, i))
  {
    SoleCarrier(d, stamps, ref, |d.elements|, i);
    assert FirstCarrier(d, stamps, ref, |d.elements|) == i;
    WayUpTells(d, i);
    UnderIsWayUp(d, i);
    hide IsRef, CarriersIn, WayUp, Under, Upwards, FirstCarrier;
    assert CheckRef(d, stamps, ref) == Ineligible(d, stamps, i);
    match WayUp(d, i) {
      case None =>
      case Some(Missing) =>
      case Some(_) =>
    }
  }

  /** A ref that no element carries, or more than one does, or that is none, is missing. */
  lemma NoSoleCarrierIsMissing(d: Doc, stamps: map<NodeId, Stamp>, ref: string)
    requires ValidDoc(d)
    requires !IsRef(ref) || !exists i :: SoleCarrierOf(d, stamps, ref, i)
    ensures CheckRef(d, stamps, ref) == Some(Missing)
  {
    hide IsRef, CarriersIn;
    if Carriers(d, stamps, ref) == 1 { OneCarrier(d, stamps, ref); }
  }

  lemma OneCarrier(d: Doc, stamps: map<NodeId, Stamp>, ref: string)
    requires Carriers(d, stamps, ref) == 1
    ensures SoleCarrierOf(d, stamps, ref, FirstCarrier(d, stamps, ref, |d.elements|))
  {
    var i := FirstCarrier(d, stamps, ref, |d.elements|);
    forall j | 0 <= j < |d.elements| && j != i ensures StampAt(d, stamps, j).ref != ref {
      if StampAt(d, stamps, j).ref == ref { CarriedTwiceAround(d, stamps, ref, i, j); }
    }
  }

  ghost predicate SoleCarrierOf(d: Doc, stamps: map<NodeId, Stamp>, ref: string, i: nat) {
    i < |d.elements| && forall j | 0 <= j < |d.elements| :: StampAt(d, stamps, j).ref == ref <==> j == i
  }

  ghost predicate AllResolve(d: Doc, w: Walk)
    requires ValidDoc(d)
  {
    forall k | 0 <= k < |w.out| :: CheckRef(d, w.stamps, w.out[k].ref).None?
  }

  /** Right after a snapshot whatever resolves was listed, and to the node it was listed for; and every
      listed ref resolves exactly if there was room and the page was clear. */
  lemma ResolverAcceptsTheListing(d: Doc, stamps: map<NodeId, Stamp>, next: nat, ref: string)
    requires Sound(d, stamps, next)
    ensures var w := Snapshot(d, stamps, next);
      && (CheckRef(d, w.stamps, ref).None? ==>
            && Carriers(d, w.stamps, ref) == 1
            && exists k :: 0 <= k < |w.out| && w.out[k].ref == ref && w.out[k].node == d.elements[FirstCarrier(d, w.stamps, ref, |d.elements|)].node)
      && (AllResolve(d, w) <==> Room(d, stamps, next) && Clear(d, stamps))
  {
    var w := Snapshot(d, stamps, next);
    assert ValidDoc(d);
    hide CheckRef, Snapshot, Room, Clear, Sound, Carriers, IsRef;
    if CheckRef(d, w.stamps, ref).None? { ResolvedIsListed(d, stamps, next, ref); }
    if Room(d, stamps, next) && Clear(d, stamps) {
      forall k | 0 <= k < |w.out| ensures CheckRef(d, w.stamps, w.out[k].ref).None? {
        ListedIsSoleCarrier(d, stamps, next, k);
        ListedResolves(d, stamps, next, k);
      }
    } else {
      var k := SomeRefIsShared(d, stamps, next);
      SharedIsRefused(d, w.stamps, w.out[k].ref);
    }
  }

  lemma SharedIsRefused(d: Doc, stamps: map<NodeId, Stamp>, ref: string)
    requires ValidDoc(d) && Carriers(d, stamps, ref) != 1
    ensures CheckRef(d, stamps, ref).Some?
  {}

  lemma SomeRefIsShared(d: Doc, stamps: map<NodeId, Stamp>, next: nat) returns (k: nat)
    requires Sound(d, stamps, next) && !(Room(d, stamps, next) && Clear(d, stamps))
    ensures k < |Snapshot(d, stamps, next).out| && Carriers(d, Snapshot(d, stamps, next).stamps, Snapshot(d, stamps, next).out[k].ref) != 1
  {
    var w, order := Snapshot(d, stamps, next), Visit(d, d.body);
    SnapshotLength(d, stamps, next);
    if !Room(d, stamps, next) {
      var b: nat;
      hide Room, Clear, Sound, Snapshot, Visit, Carriers, IsRef, Stamped;
      k, b := NumbersRunOut(d, stamps, next);
      ListedStamp(d, stamps, next, k);
      ListedStamp(d, stamps, next, b);
      CarriedTwiceAround(d, w.stamps, w.out[k].ref, order[k], order[b]);
    } else {
      var j :| 0 <= j < |d.elements| && j !in order && StampAt(d, stamps, j).ref == RefOf(LIMIT);
      k := UnclearShare(d, stamps, next, j);
    }
  }

  lemma UnclearShare(d: Doc, stamps: map<NodeId, Stamp>, next: nat, j: nat) returns (k: nat)
    requires Sound(d, stamps, next) && Highest(d, stamps) == LIMIT && Needed(d, stamps) >= 1
    requires j < |d.elements| && j !in Visit(d, d.body) && StampAt(d, stamps, j).ref == RefOf(LIMIT)
    ensures k < |Snapshot(d, stamps, next).out| && Carriers(d, Snapshot(d, stamps, next).stamps, Snapshot(d, stamps, next).out[k].ref) != 1
  {
    SnapshotClosed(d, stamps, next);
    var order, start, w := Visit(d, d.body), Start(d, stamps, next), Snapshot(d, stamps, next);
    assert start == LIMIT;
    hide StampAll, Visit, Keeps, HighestIn, Highest, Snapshot, Fresh, RefOf, Carriers, RefAt, Start, Ready, Poised, ItemAt;
    k := FirstFreshIsLast(d, stamps, order);
    ItemsFollow(d, stamps, next, k);
    ListedStamp(d, stamps, next, k);
    UnlistedStays(d, stamps, start, order, w, j);
    CarriedTwiceAround(d, w.stamps, w.out[k].ref, order[k], j);
  }

  lemma UnlistedStays(d: Doc, stamps: map<NodeId, Stamp>, start: nat, order: seq<nat>, w: Walk, j: nat)
    requires ValidDoc(d) && Stamped(d, stamps) && Listable(d, order) && ClosedForm(d, stamps, start, order, w)
    requires j < |d.elements| && j !in order
    ensures StampAt(d, w.stamps, j) == StampAt(d, stamps, j)
  {
    hide Fresh, ItemAt;
    assert !InOrder(d, order, d.elements[j].node);
  }

  lemma SnapshotLength(d: Doc, stamps: map<NodeId, Stamp>, next: nat)
    requires Sound(d, stamps, next)
    ensures |Snapshot(d, stamps, next).out| == |Visit(d, d.body)|
  {
    SnapshotClosed(d, stamps, next);
  }

  // ---------------------------------------------------------------- a second snapshot

  lemma {:induction false} HighestWithin(d: Doc, stamps: map<NodeId, Stamp>, n: nat, bound: nat)
    requires n <= |d.elements| && forall j | 0 <= j < n && IsRef(StampAt(d, stamps, j).ref) :: NumberOf(StampAt(d, stamps, j).ref) <= bound
    ensures HighestIn(d, stamps, n) <= bound
  {
    if n > 0 { HighestWithin(d, stamps, n - 1, bound); }
  }

  lemma CarriedTwiceAround(d: Doc, stamps: map<NodeId, Stamp>, ref: string, i: nat, j: nat)
    requires i < |d.elements| && j < |d.elements| && i != j && StampAt(d, stamps, i).ref == ref == StampAt(d, stamps, j).ref
    ensures Carriers(d, stamps, ref) != 1
  {
    CarriedTwice(d, stamps, ref, |d.elements|, if i < j then i else j, if i < j then j else i);
  }

  /** Every number on the page after the walk is below the counter it leaves, or at the limit. */
  lemma StampWithin(d: Doc, stamps: map<NodeId, Stamp>, start: nat, order: seq<nat>, w: Walk, j: nat)
    requires Poised(d, stamps, start) && Listable(d, order) && ClosedForm(d, stamps, start, order, w)
    requires j < |d.elements| && IsRef(StampAt(d, w.stamps, j).ref)
    ensures NumberOf(StampAt(d, w.stamps, j).ref) <= LIMIT && (w.counter < LIMIT ==> NumberOf(StampAt(d, w.stamps, j).ref) < w.counter)
  {
    hide Keeps, Fresh, NumberOf, IsRef, RefAt;
    if j in order {
      var k :| 0 <= k < |order| && order[k] == j;
      assert ItemAt(d, stamps, start, order, w, k);
      NumberWithin(d, stamps, start, order, k);
    } else {
      assert !InOrder(d, order, d.elements[j].node);
      HighestBounds(d, stamps, |d.elements|, j);
    }
  }

  lemma CounterStands(d: Doc, stamps: map<NodeId, Stamp>, next: nat)
    requires Sound(d, stamps, next)
    ensures var w := Snapshot(d, stamps, next);
      && Start(d, w.stamps, w.counter) == w.counter <= LIMIT && Stamped(d, w.stamps) && Highest(d, w.stamps) <= LIMIT
  {
    SnapshotClosed(d, stamps, next);
    var order, start, w := Visit(d, d.body), Start(d, stamps, next), Snapshot(d, stamps, next);
    var bound := if w.counter < LIMIT then w.counter - 1 else LIMIT;
    hide Visit, Snapshot, Keeps, Fresh, NumberOf, IsRef, HighestIn;
    forall j | 0 <= j < |d.elements| && IsRef(StampAt(d, w.stamps, j).ref) ensures NumberOf(StampAt(d, w.stamps, j).ref) <= bound {
      StampWithin(d, stamps, start, order, w, j);
    }
    HighestWithin(d, w.stamps, |d.elements|, bound);
  }

  lemma NumberWithin(d: Doc, stamps: map<NodeId, Stamp>, start: nat, order: seq<nat>, k: nat)
    requires Poised(d, stamps, start) && Listable(d, order) && k < |order|
    ensures IsRef(RefAt(d, stamps, start, order, k))
    ensures NumberOf(RefAt(d, stamps, start, order, k)) <= LIMIT
    ensures start + Fresh(d, stamps, order) < LIMIT || (Highest(d, stamps) < start && start + Fresh(d, stamps, order) <= LIMIT + 1) ==>
              NumberOf(RefAt(d, stamps, start, order, k)) < start + Fresh(d, stamps, order)
    ensures !Keeps(d, stamps, order[k]) ==> NumberOf(RefAt(d, stamps, start, order, k)) >= start
  {
    hide Fresh, NumberOf, IsRef;
    if Keeps(d, stamps, order[k]) {
      HighestBounds(d, stamps, |d.elements|, order[k]);
    } else {
      hide RefAt, HighestIn;
      FreshNumber(d, stamps, start, order, k);
      if start + Fresh(d, stamps, order) <= LIMIT + 1 { FreshBelow(d, stamps, start, order, k, |order|); }
    }
  }

  /** After the walk a listed element keeps its ref, or it has the last one and the counter is stuck. */
  lemma KeptOrLast(d: Doc, stamps: map<NodeId, Stamp>, next: nat, k: nat)
    requires Sound(d, stamps, next) && k < |Snapshot(d, stamps, next).out| && |Visit(d, d.body)| == |Snapshot(d, stamps, next).out|
    requires Visit(d, d.body)[k] < |d.elements|
    ensures var w := Snapshot(d, stamps, next);
      Keeps(d, w.stamps, Visit(d, d.body)[k]) || (w.out[k].ref == RefOf(LIMIT) && w.counter == LIMIT)
  {
    ListedStamp(d, stamps, next, k);
    var w, i := Snapshot(d, stamps, next), Visit(d, d.body)[k];
    var ref := w.out[k].ref;
    hide Visit, Snapshot, Sound, CarriersIn, IsRef, RefOf, Room, Clear;
    if j :| 0 <= j < |d.elements| && j != i && StampAt(d, w.stamps, j).ref == ref {
      SharedAfterTheWalk(d, stamps, next, k, j);
    } else {
      SoleCarrier(d, w.stamps, ref, |d.elements|, i);
    }
  }

  lemma SameRefAgain(d: Doc, stamps: map<NodeId, Stamp>, next: nat, k: nat)
    requires Sound(d, stamps, next) && k < |Visit(d, d.body)|
    ensures var w := Snapshot(d, stamps, next);
      var again := Snapshot(d, w.stamps, w.counter);
      |again.out| == |w.out| == |Visit(d, d.body)| && again.out[k] == w.out[k]
  {
    var order, w := Visit(d, d.body), Snapshot(d, stamps, next);
    SnapshotLength(d, stamps, next);
    ListedStamp(d, stamps, next, k);
    CounterStands(d, stamps, next);
    KeptOrLast(d, stamps, next, k);
    SnapshotClosed(d, w.stamps, w.counter);
    var again := Snapshot(d, w.stamps, w.counter);
    hide Visit, Snapshot, StampAll, HighestIn, Carriers, Fresh, IsRef, RefOf, Poised, Ready, Start;
    assert ItemAt(d, w.stamps, w.counter, order, again, k);
  }

  /** A second snapshot of the unchanged document with the counter the first one returned gives the same
      listing, the same stamps and the same counter, whether or not the numbers lasted. */
  lemma SnapshotTwice(d: Doc, stamps: map<NodeId, Stamp>, next: nat)
    requires Sound(d, stamps, next)
    ensures var w := Snapshot(d, stamps, next);
      var again := Snapshot(d, w.stamps, w.counter);
      again.out == w.out && again.stamps == w.stamps && again.counter == w.counter
  {
    var order, w := Visit(d, d.body), Snapshot(d, stamps, next);
    var again := Snapshot(d, w.stamps, w.counter);
    SnapshotLength(d, stamps, next);
    CounterStands(d, stamps, next);
    SnapshotLength(d, w.stamps, w.counter);
    hide Snapshot, Visit, Highest, Sound, Start;
    forall k | 0 <= k < |order| ensures again.out[k] == w.out[k] { SameRefAgain(d, stamps, next, k); }
    assert again.out == w.out;
    SameStampsAgain(d, stamps, next);
    SameCounterAgain(d, stamps, next);
  }

  lemma SameStampsAgain(d: Doc, stamps: map<NodeId, Stamp>, next: nat)
    requires Sound(d, stamps, next)
    ensures var w := Snapshot(d, stamps, next); Snapshot(d, w.stamps, w.counter).stamps == w.stamps
  {
    var order, w := Visit(d, d.body), Snapshot(d, stamps, next);
    var again := Snapshot(d, w.stamps, w.counter);
    CounterStands(d, stamps, next);
    SnapshotClosed(d, w.stamps, w.counter);
    assert again.stamps.Keys == w.stamps.Keys;
    hide Visit, Snapshot, StampAll, HighestIn, Carriers, Fresh, IsRef, RefOf, Poised, Ready, Start, Keeps, RefAt;
    forall n <- w.stamps ensures again.stamps[n] == w.stamps[n] {
      if InOrder(d, order, n) {
        var k :| 0 <= k < |order| && d.elements[order[k]].node == n;
        SameStampOfNode(d, stamps, next, k);
      }
    }
  }

  lemma SameStampOfNode(d: Doc, stamps: map<NodeId, Stamp>, next: nat, k: nat)
    requires Sound(d, stamps, next) && k < |Visit(d, d.body)| && Visit(d, d.body)[k] < |d.elements|
    ensures var n, w := d.elements[Visit(d, d.body)[k]].node, Snapshot(d, stamps, next);
      var again := Snapshot(d, w.stamps, w.counter);
      n in w.stamps && n in again.stamps ==> again.stamps[n] == w.stamps[n]
  {
    var order, w := Visit(d, d.body), Snapshot(d, stamps, next);
    var again := Snapshot(d, w.stamps, w.counter);
    CounterStands(d, stamps, next);
    SnapshotLength(d, stamps, next);
    SnapshotLength(d, w.stamps, w.counter);
    hide Visit, Snapshot, Highest, IsRef, Start, StampAt;
    SameRefAgain(d, stamps, next, k);
    ListedStamp(d, stamps, next, k);
    ListedStamp(d, w.stamps, w.counter, k);
    if d.elements[order[k]].node in w.stamps && d.elements[order[k]].node in again.stamps {
      NodeStamp(d, w.stamps, order[k]);
      NodeStamp(d, again.stamps, order[k]);
    }
  }

  lemma NodeStamp(d: Doc, stamps: map<NodeId, Stamp>, i: nat)
    requires i < |d.elements| && d.elements[i].node in stamps
    ensures StampAt(d, stamps, i) == stamps[d.elements[i].node]
  {}

  lemma SameCounterAgain(d: Doc, stamps: map<NodeId, Stamp>, next: nat)
    requires Sound(d, stamps, next)
    ensures var w := Snapshot(d, stamps, next); Snapshot(d, w.stamps, w.counter).counter == w.counter
  {
    var order, w := Visit(d, d.body), Snapshot(d, stamps, next);
    SnapshotLength(d, stamps, next);
    CounterStands(d, stamps, next);
    SnapshotClosed(d, w.stamps, w.counter);
    hide Visit, Snapshot, StampAll, HighestIn, Carriers, IsRef, RefOf, Poised, Ready, Start, Keeps, RefAt, Fresh, ItemAt;
    if Fresh(d, w.stamps, order) > 0 {
      assert order[..|order|] == order;
      var k := FreshIndex(d, w.stamps, order, |order|, 0);
      KeptOrLast(d, stamps, next, k);
    }
  }

  lemma SnapshotIsStampAll(d: Doc, stamps: map<NodeId, Stamp>, next: nat)
    requires ValidDoc(d)
    ensures Listable(d, Visit(d, d.body))
    ensures Snapshot(d, stamps, next) == StampAll(d, stamps, Walk(stamps, Start(d, stamps, next), {}, []), Visit(d, d.body))
  {
    VisitIsListable(d);
  }

  // ---------------------------------------------------------------- a stamp at the limit

  /** A body that carries `stamp` and holds two elements with a role. */
  function TwoButtons(stamp: string): (Doc, map<NodeId, Stamp>) {
    var button := Look(true, Some("button"), "");
    (Doc([Element(0, None, Look(true, None, "")), Element(1, Some(0), button), Element(2, Some(0), button)], 0),
     map[0 := Stamp(stamp, None, None), 1 := BLANK, 2 := BLANK])
  }

  /** The page on which the numbers do not last: one forged stamp with the number 2^53 makes the walker
      list two elements under one ref, and the resolver refuses both. */
  lemma StampAtTheLimitCollides(next: nat)
    requires next <= LIMIT
    ensures var (d, stamps) := TwoButtons(RefOf(LIMIT));
      && ValidDoc(d) && Stamped(d, stamps)
      && var w := Snapshot(d, stamps, next);
         && w.out == [Item(1, RefOf(LIMIT), "button", ""), Item(2, RefOf(LIMIT), "button", "")]
         && CheckRef(d, w.stamps, RefOf(LIMIT)).Some?
  {
    hide Decimal, Value, IsRef, NumberOf;
    var (d, stamps) := TwoButtons(RefOf(LIMIT));
    var w0 := Walk(stamps, LIMIT, {}, []);
    assert Start(d, stamps, next) == LIMIT by { HighestOfTwoButtons(); }
    assert Visit(d, 0) == [1, 2] by { ButtonsAreVisited(RefOf(LIMIT)); }
    SnapshotIsStampAll(d, stamps, next);
    BlankIsNoRef();
    var w1 := RefFor(d, stamps, w0, 1);
    assert w1.out == [Item(1, RefOf(LIMIT), "button", "")] && w1.counter == LIMIT;
    var w2 := RefFor(d, stamps, w1, 2);
    assert [1, 2][..1] == [1] && [1][..0] == [];
    assert StampAll(d, stamps, w0, [1]) == w1;
    assert StampAll(d, stamps, w0, [1, 2]) == w2;
    CarriedTwice(d, w2.stamps, RefOf(LIMIT), 3, 1, 2);
  }

  lemma BlankIsNoRef()
    ensures !IsRef("")
  {}

  lemma ButtonsAreVisited(stamp: string)
    ensures Visit(TwoButtons(stamp).0, 0) == [1, 2]
  {
    var d := TwoButtons(stamp).0;
    assert VisitKids(d, 0, 3) == [];
    assert VisitKids(d, 1, 3) == [] && VisitKids(d, 2, 3) == [];
    assert VisitKids(d, 1, 2) == [];
    assert Visit(d, 2) == [2] && Visit(d, 1) == [1];
    assert VisitKids(d, 0, 2) == [2];
    assert VisitKids(d, 0, 1) == [1, 2];
  }

  lemma HighestOfTwoButtons()
    ensures var (d, stamps) := TwoButtons(RefOf(LIMIT)); Highest(d, stamps) == LIMIT
  {
    hide Decimal, Value, NumberOf, RefOf;
    var (d, stamps) := TwoButtons(RefOf(LIMIT));
    RefReadsBack(LIMIT);
    assert HighestIn(d, stamps, 1) == LIMIT;
    assert HighestIn(d, stamps, 2) == LIMIT;
    assert HighestIn(d, stamps, 3) == LIMIT;
  }
}
