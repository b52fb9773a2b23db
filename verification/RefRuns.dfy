/** Snapshots over whole runs: the page is edited and navigated between them, the caller threads any
    counter, and the worker threads its own. */
module RefRuns {
  import opened Tombstones
  import opened Numerals
  import opened RefWalker
  import opened RefGuarantees

  /** Callers' counters are capped this far below the limit: 2^53 - 2^32. */
  const MAX_SAFE_NEXT_REF: nat := 9007194959773696

  /** `raw` is nothing where the caller's counter is no number. */
  function CoerceNextRef(raw: Option<int>): (n: nat)
    ensures 1 <= n <= MAX_SAFE_NEXT_REF
  {
    if raw.None? then 1 else if raw.value < 1 then 1 else if raw.value > MAX_SAFE_NEXT_REF then MAX_SAFE_NEXT_REF else raw.value
  }

  /** A caller's counter comes to the number from 1 to the cap that is nearest to it, and to 1 where it is
      no number. */
  lemma CoercedToTheNearest(raw: Option<int>, n: int)
    ensures raw.None? ==> CoerceNextRef(raw) == 1
    ensures raw.Some? && 1 <= n <= MAX_SAFE_NEXT_REF ==>
              var c := CoerceNextRef(raw);
              (if c < raw.value then raw.value - c else c - raw.value) <= (if n < raw.value then raw.value - n else n - raw.value)
  {}

  class PageWorker {
    const page: Walker
    var nextRef: nat

    constructor (page: Walker)
      ensures this.page == page && nextRef == 1
    {
      this.page, nextRef := page, 1;
    }

    method SnapshotDocument(raw: Option<int>)
      requires ValidDoc(page.doc)
      modifies this, page
      ensures page.State() == Snapshot(page.doc, old(page.stamps), Max(CoerceNextRef(raw), old(nextRef)))
      ensures nextRef == Max(old(nextRef), CoerceNextRef(Some(page.counter)))
    {
      page.TakeSnapshot(Max(CoerceNextRef(raw), nextRef));
      nextRef := Max(nextRef, CoerceNextRef(Some(page.counter)));
    }
  }

  // ---------------------------------------------------------------- runs

  /** The page with its stamps, the worker's counter, and all that was ever listed. */
  datatype World = World(doc: Doc, stamps: map<NodeId, Stamp>, next: nat, listed: seq<Item>)

  datatype Step = Snap(raw: Option<int>) | Edit(doc: Doc, stamps: map<NodeId, Stamp>)

  function Permitted(w: World, raw: Option<int>): nat { Max(CoerceNextRef(raw), w.next) }

  /** The walk of a snapshot at `w`. */
  ghost function WalkAt(w: World, raw: Option<int>): Walk
    requires ValidDoc(w.doc)
  {
    Snapshot(w.doc, w.stamps, Permitted(w, raw))
  }

  ghost function Snapped(w: World, raw: Option<int>): World
    requires ValidDoc(w.doc)
  {
    var walk := WalkAt(w, raw);
    World(w.doc, walk.stamps, Max(w.next, CoerceNextRef(Some(walk.counter))), w.listed + walk.out)
  }

  function Moved(w: World, doc: Doc, stamps: map<NodeId, Stamp>): World { w.(doc := doc, stamps := stamps) }

  ghost predicate SoundAt(w: World, raw: Option<int>) { Sound(w.doc, w.stamps, Permitted(w, raw)) }

  /** A snapshot of any page with stamps up to the limit, or any edit of the page and of its stamps. */
  ghost predicate Next(w: World, s: Step, w': World) {
    match s
    case Snap(raw) => SoundAt(w, raw) && w' == Snapped(w, raw)
    case Edit(doc, stamps) => ValidDoc(doc) && Stamped(doc, stamps) && w' == Moved(w, doc, stamps)
  }

  /** Up to step `n` the counter has stayed within the cap. */
  ghost predicate WithinCap(ws: seq<World>, steps: seq<Step>, n: nat) {
    forall i | 0 <= i < n && i < |steps| && i < |ws| && steps[i].Snap? && ValidDoc(ws[i].doc) :: WalkAt(ws[i], steps[i].raw).counter <= MAX_SAFE_NEXT_REF
  }

  ghost predicate Follows(ws: seq<World>, steps: seq<Step>, i: nat)
    requires i < |steps| < |ws|
  {
    Next(ws[i], steps[i], ws[i + 1])
  }

  ghost predicate First(w: World) { w.next == 1 && w.listed == [] && ValidDoc(w.doc) && Stamped(w.doc, w.stamps) }

  ghost predicate Run(ws: seq<World>, steps: seq<Step>) {
    |ws| == |steps| + 1 && First(ws[0]) && forall i | 0 <= i < |steps| :: Follows(ws, steps, i)
  }

  /** No number from the cap on has been listed. */
  ghost predicate Unspent(listed: seq<Item>) {
    forall k | 0 <= k < |listed| && IsRef(listed[k].ref) :: NumberOf(listed[k].ref) < MAX_SAFE_NEXT_REF
  }

  ghost predicate Tally(ref: string, next: nat) { IsRef(ref) && (NumberOf(ref) < next || NumberOf(ref) >= MAX_SAFE_NEXT_REF) }

  /** Every number listed is below the worker's counter, or has passed the cap the counter stops at. */
  ghost predicate Tallied(w: World) {
    ValidDoc(w.doc) && 1 <= w.next <= MAX_SAFE_NEXT_REF && forall k | 0 <= k < |w.listed| :: Tally(w.listed[k].ref, w.next)
  }

  /** Every number of a walk is below the counter it leaves, unless that has reached the limit. */
  lemma WalkNumbers(d: Doc, stamps: map<NodeId, Stamp>, next: nat, k: nat)
    requires Sound(d, stamps, next) && k < |Snapshot(d, stamps, next).out|
    ensures var w := Snapshot(d, stamps, next);
      IsRef(w.out[k].ref) && (w.counter < LIMIT ==> NumberOf(w.out[k].ref) < w.counter)
  {
    hide Visit, StampAll, Fresh, Highest;
    SnapshotClosed(d, stamps, next);
    ItemsFollow(d, stamps, next, k);
    NumberWithin(d, stamps, Start(d, stamps, next), Visit(d, d.body), k);
  }

  lemma StepTallies(w: World, s: Step, w': World)
    requires Tallied(w) && Next(w, s, w')
    ensures Tallied(w')
  {
    hide Sound, Snapshot, NumberOf, IsRef;
    if s.Snap? {
      forall k | 0 <= k < |w'.listed| ensures Tally(w'.listed[k].ref, w'.next) {
        if k >= |w.listed| { WalkNumbers(w.doc, w.stamps, Permitted(w, s.raw), k - |w.listed|); }
        else { assert Tally(w.listed[k].ref, w.next); }
      }
    }
  }

  lemma {:induction false} RunTallies(ws: seq<World>, steps: seq<Step>, i: nat)
    requires Run(ws, steps) && i < |ws|
    ensures Tallied(ws[i])
    decreases i
  {
    if i > 0 {
      hide Next, Tallied;
      RunTallies(ws, steps, i - 1);
      assert Follows(ws, steps, i - 1);
      StepTallies(ws[i - 1], steps[i - 1], ws[i]);
    }
  }

  lemma StepStaysUnspent(w: World, s: Step, w': World)
    requires ValidDoc(w.doc) && Unspent(w.listed) && Next(w, s, w') && (s.Snap? ==> WalkAt(w, s.raw).counter <= MAX_SAFE_NEXT_REF)
    ensures Unspent(w'.listed)
  {
    hide Sound, Snapshot, NumberOf, IsRef;
    if s.Snap? {
      forall k | 0 <= k < |w'.listed| && IsRef(w'.listed[k].ref) ensures NumberOf(w'.listed[k].ref) < MAX_SAFE_NEXT_REF {
        if k >= |w.listed| { WalkNumbers(w.doc, w.stamps, Permitted(w, s.raw), k - |w.listed|); }
      }
    }
  }

  /** As long as the counter stays within the cap no number from the cap on is listed. */
  lemma {:induction false} CapLeavesUnspent(ws: seq<World>, steps: seq<Step>, i: nat)
    requires Run(ws, steps) && i < |ws| && WithinCap(ws, steps, i)
    ensures Unspent(ws[i].listed)
    decreases i
  {
    if i > 0 {
      hide Next, Unspent, Tallied;
      CapLeavesUnspent(ws, steps, i - 1);
      RunTallies(ws, steps, i - 1);
      TalliedIsValid(ws[i - 1]);
      assert Follows(ws, steps, i - 1);
      StepStaysUnspent(ws[i - 1], steps[i - 1], ws[i]);
    }
  }

  lemma TalliedIsValid(w: World)
    requires Tallied(w)
    ensures ValidDoc(w.doc)
  {}

  // ---------------------------------------------------------------- fresh numbers

  /** A number given out in a walk. */
  ghost predicate IsFresh(w: World, raw: Option<int>, k: nat)
    requires ValidDoc(w.doc)
  {
    SnapshotIsStampAll(w.doc, w.stamps, Permitted(w, raw));
    k < |Visit(w.doc, w.doc.body)| && !Keeps(w.doc, w.stamps, Visit(w.doc, w.doc.body)[k])
  }

  lemma FreshAbove(w: World, raw: Option<int>, k: nat)
    requires Tallied(w) && Unspent(w.listed) && SoundAt(w, raw) && IsFresh(w, raw, k)
    ensures var out := WalkAt(w, raw).out;
      && k < |out| && IsRef(out[k].ref)
      && (forall m | 0 <= m < |w.listed| :: IsRef(w.listed[m].ref) && NumberOf(out[k].ref) > NumberOf(w.listed[m].ref))
      && (NumberOf(out[k].ref) > Highest(w.doc, w.stamps) <==> Highest(w.doc, w.stamps) < LIMIT)
  {
    var next := Permitted(w, raw);
    hide Visit, StampAll, Fresh, HighestIn, Keeps, Decimal, Value, Snapshot;
    SnapshotClosed(w.doc, w.stamps, next);
    ItemsFollow(w.doc, w.stamps, next, k);
    NumberWithin(w.doc, w.stamps, Start(w.doc, w.stamps, next), Visit(w.doc, w.doc.body), k);
    forall m | 0 <= m < |w.listed| ensures IsRef(w.listed[m].ref) && NumberOf(w.listed[m].ref) < w.next {
      assert Tally(w.listed[m].ref, w.next);
    }
  }

  /** Whatever the page does to its stamps: as long as no number from the cap on was listed, a fresh
      number is above every number listed before, and above every number stamped in the document exactly
      if none of those has reached the limit. */
  lemma FreshNumbersAreNew(ws: seq<World>, steps: seq<Step>, i: nat, k: nat)
    requires Run(ws, steps) && i < |steps| && steps[i].Snap? && ValidDoc(ws[i].doc) && Unspent(ws[i].listed)
    requires IsFresh(ws[i], steps[i].raw, k)
    ensures var w, out := ws[i], WalkAt(ws[i], steps[i].raw).out;
      && k < |out| && IsRef(out[k].ref)
      && (forall m | 0 <= m < |w.listed| :: IsRef(w.listed[m].ref) && NumberOf(out[k].ref) > NumberOf(w.listed[m].ref))
      && (NumberOf(out[k].ref) > Highest(w.doc, w.stamps) <==> Highest(w.doc, w.stamps) < LIMIT)
  {
    RunTallies(ws, steps, i);
    assert Follows(ws, steps, i);
    hide Tallied, Unspent, IsFresh, Sound, Snapshot, Highest, NumberOf, IsRef;
    FreshAbove(ws[i], steps[i].raw, k);
  }

  /** After a move to the page `doc` a snapshot gives out a number that is not above every number listed
      before. */
  ghost predicate GivenOutAgain(w: World, doc: Doc, stamps: map<NodeId, Stamp>, raw: Option<int>, k: nat) {
    && ValidDoc(doc) && SoundAt(Moved(w, doc, stamps), raw) && IsFresh(Moved(w, doc, stamps), raw, k)
    && k < |WalkAt(Moved(w, doc, stamps), raw).out|
    && exists m :: 0 <= m < |w.listed| && NotAbove(WalkAt(Moved(w, doc, stamps), raw).out[k].ref, w.listed[m].ref)
  }

  ghost predicate NotAbove(ref: string, earlier: string) { IsRef(ref) && IsRef(earlier) && NumberOf(ref) <= NumberOf(earlier) }

  /** At every point of every run: every page the browser may be moved to gets numbers above all earlier
      ones if and only if no number from the cap on has been listed. */
  lemma NewUntilTheCap(ws: seq<World>, steps: seq<Step>, i: nat)
    requires Run(ws, steps) && i < |ws|
    ensures Unspent(ws[i].listed) <==> !exists doc, stamps, raw, k :: GivenOutAgain(ws[i], doc, stamps, raw, k)
  {
    RunTallies(ws, steps, i);
    hide *;
    if Unspent(ws[i].listed) {
      forall doc, stamps, raw, k ensures !GivenOutAgain(ws[i], doc, stamps, raw, k) { UnspentIsNew(ws[i], doc, stamps, raw, k); }
    } else {
      SpentComesAgain(ws[i]);
    }
  }

  lemma UnspentIsNew(w: World, doc: Doc, stamps: map<NodeId, Stamp>, raw: Option<int>, k: nat)
    requires Tallied(w) && Unspent(w.listed)
    ensures !GivenOutAgain(w, doc, stamps, raw, k)
  {
    if GivenOutAgain(w, doc, stamps, raw, k) {
      hide Sound, Snapshot, Highest, NumberOf, IsRef, Unspent, IsFresh;
      FreshAbove(Moved(w, doc, stamps), raw, k);
      assert false;
    }
  }

  /** An ordinary page: a body that holds one button, neither of them ever stamped. */
  function OneButton(n: NodeId): (page: (Doc, map<NodeId, Stamp>))
    ensures ValidDoc(page.0) && Stamped(page.0, page.1)
  {
    (Doc([Element(n, None, Look(true, None, "")), Element(n + 1, Some(0), Look(true, Some("button"), ""))], 0),
     map[n := BLANK, n + 1 := BLANK])
  }

  lemma OneButtonIsVisited(n: NodeId)
    ensures Visit(OneButton(n).0, 0) == [1]
  {
    var d := OneButton(n).0;
    assert VisitKids(d, 0, 2) == [] && VisitKids(d, 1, 2) == [];
    assert Visit(d, 1) == [1] && VisitKids(d, 0, 1) == [1];
  }

  lemma OneButtonIsBlank(n: NodeId, next: nat)
    requires 1 <= next <= LIMIT
    ensures var (d, stamps) := OneButton(n);
      Sound(d, stamps, next) && Highest(d, stamps) == 0 && Start(d, stamps, next) == next && !Keeps(d, stamps, 1)
  {
    hide NumberOf, IsRef;
    BlankIsNoRef();
    var (d, stamps) := OneButton(n);
    assert HighestIn(d, stamps, 1) == 0;
    assert HighestIn(d, stamps, 2) == 0;
  }

  lemma OneButtonStep(n: NodeId, next: nat)
    requires 1 <= next <= LIMIT
    ensures var (d, stamps) := OneButton(n);
      var w := RefFor(d, stamps, Walk(stamps, next, {}, []), 1);
      w.out == [Item(n + 1, RefOf(next), "button", "")] && w.counter == Succ(next)
  {
    hide Decimal, Value, IsRef, NumberOf, Carriers;
    BlankIsNoRef();
  }

  lemma StampOne(d: Doc, first: map<NodeId, Stamp>, w: Walk, i: nat)
    requires i < |d.elements| && d.elements[i].look.role.Some?
    ensures Walkable(d, [i]) && StampAll(d, first, w, [i]) == RefFor(d, first, w, i)
  {
    hide RefFor;
    assert [i][..0] == [];
  }

  /** Its one button gets the number the snapshot starts from. */
  lemma OneButtonWalk(n: NodeId, next: nat)
    requires 1 <= next <= LIMIT
    ensures var (d, stamps) := OneButton(n);
      && Visit(d, d.body) == [1]
      && Snapshot(d, stamps, next).out == [Item(n + 1, RefOf(next), "button", "")]
      && Snapshot(d, stamps, next).counter == Succ(next)
  {
    hide RefOf, IsRef, NumberOf, Sound, Highest, Start, Visit, Keeps, StampAll, RefFor, ValidDoc, Stamped, Snapshot;
    OneButtonIsVisited(n);
    OneButtonIsBlank(n, next);
    OneButtonStep(n, next);
    var (d, stamps) := OneButton(n);
    StampOne(d, stamps, Walk(stamps, next, {}, []), 1);
    SnapshotIsStampAll(d, stamps, next);
  }

  lemma OneButtonHasRoom(n: NodeId, next: nat)
    requires 1 <= next <= LIMIT
    ensures var (d, stamps) := OneButton(n); ValidDoc(d) && Room(d, stamps, next) && Clear(d, stamps)
  {
    hide Highest, Start, Visit, Keeps, RefOf, IsRef, ValidDoc, Stamped;
    OneButtonIsVisited(n);
    OneButtonIsBlank(n, next);
    var (d, stamps) := OneButton(n);
    VisitIsListable(d);
    assert [1][..0] == [];
    assert Fresh(d, stamps, []) == 0 && Fresh(d, stamps, [1]) == 1;
  }

  /** The first snapshot after a move to that page. */
  ghost predicate NextButton(w: World, n: NodeId, raw: Option<int>) {
    var (doc, stamps) := OneButton(n);
    var p, next := Moved(w, doc, stamps), Permitted(w, raw);
    && SoundAt(p, raw) && Stamped(doc, stamps) && IsFresh(p, raw, 0) && Room(doc, stamps, next) && Clear(doc, stamps)
    && WalkAt(p, raw).out == [Item(n + 1, RefOf(next), "button", "")]
    && WalkAt(p, raw).counter == Succ(next)
    && IsRef(RefOf(next)) && NumberOf(RefOf(next)) == next
  }

  lemma MoveToOneButton(w: World, n: NodeId, raw: Option<int>)
    requires 1 <= w.next <= MAX_SAFE_NEXT_REF
    ensures NextButton(w, n, raw)
  {
    hide Snapshot, Visit, Keeps, Room, Clear, Sound, Start, NumberOf, IsRef, RefOf, Highest, ValidDoc, Stamped;
    OneButtonIsBlank(n, Permitted(w, raw));
    OneButtonWalk(n, Permitted(w, raw));
    OneButtonHasRoom(n, Permitted(w, raw));
    RefReadsBack(Permitted(w, raw));
  }

  lemma SpentComesAgain(w: World)
    requires Tallied(w) && !Unspent(w.listed)
    ensures exists doc, stamps, raw, k :: GivenOutAgain(w, doc, stamps, raw, k)
  {
    var m :| 0 <= m < |w.listed| && IsRef(w.listed[m].ref) && NumberOf(w.listed[m].ref) >= MAX_SAFE_NEXT_REF;
    MoveToOneButton(w, 0, None);
    var (doc, stamps) := OneButton(0);
    hide Snapshot, Visit, Keeps, Sound, Room, Clear, NumberOf, IsRef, IsFresh, RefOf, Highest, Tally;
    assert NotAbove(WalkAt(Moved(w, doc, stamps), None).out[0].ref, w.listed[m].ref);
    assert GivenOutAgain(w, doc, stamps, None, 0);
  }

  // ---------------------------------------------------------------- pages that leave the stamps alone

  /** The page neither writes stamps nor clones stamped nodes: nodes it had before keep theirs, new ones
      have none. */
  ghost predicate LeavesStamps(w: World, s: Step) {
    s.Edit? ==> forall n <- s.stamps :: if n in w.stamps then s.stamps[n] == w.stamps[n] else s.stamps[n].ref == ""
  }

  ghost predicate LeftAlone(ws: seq<World>, steps: seq<Step>, n: nat) {
    forall i | 0 <= i < n && i < |steps| && i < |ws| :: LeavesStamps(ws[i], steps[i])
  }

  ghost predicate WasListed(w: World, n: NodeId, ref: string) { exists k :: 0 <= k < |w.listed| && w.listed[k].node == n && w.listed[k].ref == ref }

  ghost predicate AllRefs(listed: seq<Item>) { forall k | 0 <= k < |listed| :: IsRef(listed[k].ref) }

  ghost predicate SameNumber(x: Item, y: Item) { IsRef(x.ref) && IsRef(y.ref) && NumberOf(x.ref) == NumberOf(y.ref) }

  ghost predicate OneNodeEach(listed: seq<Item>) {
    forall a, b | 0 <= a < |listed| && 0 <= b < |listed| && SameNumber(listed[a], listed[b]) ::
      listed[a].node == listed[b].node && listed[a].ref == listed[b].ref
  }

  /** Every number listed is below the worker's counter. */
  ghost predicate Numbered(w: World) {
    && ValidDoc(w.doc) && 1 <= w.next <= MAX_SAFE_NEXT_REF
    && forall k | 0 <= k < |w.listed| :: IsRef(w.listed[k].ref) && NumberOf(w.listed[k].ref) < w.next
  }

  lemma NumberedIsUnspent(w: World)
    ensures Numbered(w) <==> Tallied(w) && Unspent(w.listed)
  {
    hide NumberOf, IsRef, ValidDoc;
    if Tallied(w) && Unspent(w.listed) {
      forall k | 0 <= k < |w.listed| ensures IsRef(w.listed[k].ref) && NumberOf(w.listed[k].ref) < w.next {
        assert Tally(w.listed[k].ref, w.next);
      }
    }
  }

  /** Every stamp was listed for its node, and a number names one node. */
  ghost predicate Named(w: World) {
    && Numbered(w)
    && OneNodeEach(w.listed)
    && forall n <- w.stamps :: w.stamps[n].ref == "" || WasListed(w, n, w.stamps[n].ref)
  }

  /** No second element carries the stamp of another. */
  lemma StampsAreUnique(w: World, i: nat, j: nat)
    requires Named(w) && i < |w.doc.elements| && j < |w.doc.elements| && i != j && StampAt(w.doc, w.stamps, i).ref != ""
    ensures IsRef(StampAt(w.doc, w.stamps, i).ref)
    ensures StampAt(w.doc, w.stamps, j).ref != StampAt(w.doc, w.stamps, i).ref
  {
    hide NumberOf, IsRef;
    var ref := StampAt(w.doc, w.stamps, i).ref;
    var a, b := w.doc.elements[i].node, w.doc.elements[j].node;
    assert WasListed(w, a, ref);
    var k :| 0 <= k < |w.listed| && w.listed[k].node == a && w.listed[k].ref == ref;
    assert a != b;
    SameRefSameNode(w, a, b, ref);
  }

  lemma SameRefSameNode(w: World, a: NodeId, b: NodeId, ref: string)
    requires Named(w)
    ensures WasListed(w, a, ref) && WasListed(w, b, ref) ==> a == b
  {
    hide NumberOf, IsRef;
  }

  /** There an element keeps its ref as soon as role and name match its stamp. */
  lemma MatchingKeeps(w: World, i: nat)
    requires Named(w) && i < |w.doc.elements|
    ensures var stamp, look := StampAt(w.doc, w.stamps, i), w.doc.elements[i].look;
      Keeps(w.doc, w.stamps, i) <==> stamp.ref != "" && stamp.role == look.role && stamp.name == Some(look.name)
  {
    hide NumberOf, IsRef, CarriersIn;
    assert !IsRef("") by { BlankIsNoRef(); }
    var ref := StampAt(w.doc, w.stamps, i).ref;
    if ref != "" {
      forall j | 0 <= j < |w.doc.elements| && j != i ensures StampAt(w.doc, w.stamps, j).ref != ref && IsRef(ref) { StampsAreUnique(w, i, j); }
      assert IsRef(ref) by { ListedStampIsRef(w, w.doc.elements[i].node); }
      SoleCarrier(w.doc, w.stamps, ref, |w.doc.elements|, i);
    }
  }

  lemma ListedStampIsRef(w: World, n: NodeId)
    requires Named(w) && n in w.stamps && w.stamps[n].ref != ""
    ensures IsRef(w.stamps[n].ref)
  {
    hide NumberOf, IsRef;
    assert WasListed(w, n, w.stamps[n].ref);
  }

  /** No stamp reaches the worker's counter. */
  lemma NamedIsLow(w: World)
    requires Named(w)
    ensures Highest(w.doc, w.stamps) < w.next
  {
    hide NumberOf, IsRef;
    BlankIsNoRef();
    forall j | 0 <= j < |w.doc.elements| && IsRef(StampAt(w.doc, w.stamps, j).ref)
      ensures NumberOf(StampAt(w.doc, w.stamps, j).ref) <= w.next - 1
    {
      assert WasListed(w, w.doc.elements[j].node, StampAt(w.doc, w.stamps, j).ref);
    }
    HighestWithin(w.doc, w.stamps, |w.doc.elements|, w.next - 1);
  }

  /** What a snapshot lists next is either the ref the node was listed under before or a new number. */
  lemma ItemIsOldOrNew(w: World, raw: Option<int>, k: nat)
    requires Named(w) && SoundAt(w, raw)
    requires k < |WalkAt(w, raw).out|
    ensures var item := WalkAt(w, raw).out[k];
      && IsRef(item.ref)
      && (WasListed(w, item.node, item.ref) || (NumberOf(item.ref) >= w.next && item.ref == RefOf(NumberOf(item.ref))))
  {
    var d, stamps, next := w.doc, w.stamps, Permitted(w, raw);
    SnapshotClosed(d, stamps, next);
    var order, start := Visit(d, d.body), Start(d, stamps, next);
    hide Visit, StampAll, Fresh, HighestIn, Decimal, Value, Snapshot, NumberOf, IsRef, CarriersIn;
    ItemsFollow(d, stamps, next, k);
    NumberWithin(d, stamps, start, order, k);
    assert ItemAt(d, stamps, start, order, WalkAt(w, raw), k);
    if Keeps(d, stamps, order[k]) {
      BlankIsNoRef();
      assert w.stamps[d.elements[order[k]].node].ref != "";
    } else {
      FreshNumber(d, stamps, start, order, k);
    }
  }

  lemma ListedStays(w: World, w': World, n: NodeId, ref: string)
    requires w.listed <= w'.listed && WasListed(w, n, ref)
    ensures WasListed(w', n, ref)
  {
    var k :| 0 <= k < |w.listed| && w.listed[k].node == n && w.listed[k].ref == ref;
    assert w'.listed[k] == w.listed[k];
  }

  /** What one walk lists under a number, and whatever was listed under it before, is one node. */
  lemma SameNumberSameNode(w: World, raw: Option<int>, k: nat, other: Item)
    requires Named(w) && SoundAt(w, raw) && Room(w.doc, w.stamps, Permitted(w, raw))
    requires k < |WalkAt(w, raw).out| && (other in w.listed || other in WalkAt(w, raw).out)
    ensures IsRef(other.ref) && IsRef(WalkAt(w, raw).out[k].ref)
    ensures NumberOf(other.ref) == NumberOf(WalkAt(w, raw).out[k].ref) ==>
              other.node == WalkAt(w, raw).out[k].node && other.ref == WalkAt(w, raw).out[k].ref
  {
    hide Snapshot, NumberOf, IsRef, Room, Sound, RefOf;
    var out := WalkAt(w, raw).out;
    ItemIsOldOrNew(w, raw, k);
    if other in out && other != out[k] {
      var m :| 0 <= m < |out| && out[m] == other;
      ItemIsOldOrNew(w, raw, m);
      RoomKeepsApart(w.doc, w.stamps, Permitted(w, raw), m, k);
    }
    if other in w.listed { InListed(w, other); }
    ListedAgain(w, out[k], other);
  }

  lemma ListedAgain(w: World, x: Item, y: Item)
    requires Named(w)
    ensures WasListed(w, x.node, x.ref) ==> IsRef(x.ref) && NumberOf(x.ref) < w.next
    ensures WasListed(w, y.node, y.ref) ==> IsRef(y.ref) && NumberOf(y.ref) < w.next
    ensures WasListed(w, x.node, x.ref) && WasListed(w, y.node, y.ref) && NumberOf(x.ref) == NumberOf(y.ref) ==> x.node == y.node && x.ref == y.ref
  {
    hide NumberOf, IsRef;
  }

  lemma SnapUnfolds(w: World, raw: Option<int>, w': World)
    requires Next(w, Snap(raw), w')
    ensures SoundAt(w, raw)
    ensures w'.listed == w.listed + WalkAt(w, raw).out && w'.stamps == WalkAt(w, raw).stamps && w'.doc == w.doc
  {}

  lemma StampsAreListed(w: World, raw: Option<int>, w': World, n: NodeId)
    requires Named(w) && Next(w, Snap(raw), w') && n in w'.stamps
    ensures w'.stamps[n].ref == "" || WasListed(w', n, w'.stamps[n].ref)
  {
    var d, stamps, next := w.doc, w.stamps, Permitted(w, raw);
    SnapUnfolds(w, raw, w');
    SnapshotClosed(d, stamps, next);
    var order, start, walk := Visit(d, d.body), Start(d, stamps, next), WalkAt(w, raw);
    hide Visit, StampAll, Fresh, HighestIn, Decimal, Value, Snapshot, NumberOf, IsRef, RefAt, Numbered, OneNodeEach, Next, SoundAt;
    if InOrder(d, order, n) {
      var k :| 0 <= k < |order| && d.elements[order[k]].node == n;
      assert ItemAt(d, stamps, start, order, walk, k);
      assert w'.listed[|w.listed| + k] == walk.out[k];
    } else if w.stamps[n].ref != "" {
      ListedStays(w, w', n, w.stamps[n].ref);
    }
  }

  /** While the counter is below the limit there was room for the walk. */
  lemma BelowTheLimitIsRoom(d: Doc, stamps: map<NodeId, Stamp>, next: nat)
    requires Sound(d, stamps, next) && Snapshot(d, stamps, next).counter < LIMIT
    ensures Room(d, stamps, next)
  {
    SnapshotClosed(d, stamps, next);
    hide Visit, Snapshot, StampAll, Fresh, HighestIn, ItemAt, OthersUntouched, Keeps, RefOf;
  }

  lemma RoomKeepsNames(w: World, raw: Option<int>)
    requires Named(w) && SoundAt(w, raw) && Room(w.doc, w.stamps, Permitted(w, raw))
    ensures OneNodeEach(w.listed + WalkAt(w, raw).out)
  {
    var listed := w.listed + WalkAt(w, raw).out;
    hide Snapshot, NumberOf, IsRef, Room, Sound, RefOf, WasListed;
    forall a, b | 0 <= a < |listed| && 0 <= b < |listed| && SameNumber(listed[a], listed[b])
      ensures listed[a].node == listed[b].node && listed[a].ref == listed[b].ref
    {
      if a >= |w.listed| { SameNumberSameNode(w, raw, a - |w.listed|, listed[b]); }
      else if b >= |w.listed| { SameNumberSameNode(w, raw, b - |w.listed|, listed[a]); }
    }
  }

  lemma NoRoomMixesNames(w: World, raw: Option<int>)
    requires Named(w) && SoundAt(w, raw) && !Room(w.doc, w.stamps, Permitted(w, raw))
    ensures !OneNodeEach(w.listed + WalkAt(w, raw).out)
  {
    var listed := w.listed + WalkAt(w, raw).out;
    hide Snapshot, NumberOf, IsRef, Room, Sound, RefOf, Named;
    var a, b := NumbersRunOut(w.doc, w.stamps, Permitted(w, raw));
    OutNodesDiffer(w.doc, w.stamps, Permitted(w, raw), a, b);
    ItemIsOldOrNew(w, raw, a);
    assert SameNumber(listed[|w.listed| + a], listed[|w.listed| + b]);
  }

  /** One more walk keeps the names apart exactly if there is room for it. */
  lemma WalkKeepsNames(w: World, raw: Option<int>)
    requires Named(w) && SoundAt(w, raw)
    ensures AllRefs(w.listed + WalkAt(w, raw).out)
    ensures OneNodeEach(w.listed + WalkAt(w, raw).out) <==> Room(w.doc, w.stamps, Permitted(w, raw))
  {
    hide Snapshot, NumberOf, IsRef, Room, Sound, RefOf, OneNodeEach;
    var out := WalkAt(w, raw).out;
    forall k | 0 <= k < |out| ensures IsRef(out[k].ref) { ItemIsOldOrNew(w, raw, k); }
    if Room(w.doc, w.stamps, Permitted(w, raw)) { RoomKeepsNames(w, raw); } else { NoRoomMixesNames(w, raw); }
  }

  lemma OutNodesDiffer(d: Doc, stamps: map<NodeId, Stamp>, next: nat, a: nat, b: nat)
    requires Sound(d, stamps, next) && a < |Snapshot(d, stamps, next).out| && b < |Snapshot(d, stamps, next).out| && a != b
    ensures Snapshot(d, stamps, next).out[a].node != Snapshot(d, stamps, next).out[b].node
  {
    hide Visit, Snapshot, Highest, IsRef, StampAt;
    ListedStamp(d, stamps, next, a);
    ListedStamp(d, stamps, next, b);
    assert Visit(d, d.body)[a] != Visit(d, d.body)[b];
  }

  lemma SnapKeepsNames(w: World, raw: Option<int>, w': World)
    requires Named(w) && Next(w, Snap(raw), w') && WalkAt(w, raw).counter <= MAX_SAFE_NEXT_REF
    ensures Named(w')
  {
    SnapUnfolds(w, raw, w');
    forall n <- w'.stamps ensures w'.stamps[n].ref == "" || WasListed(w', n, w'.stamps[n].ref) { StampsAreListed(w, raw, w', n); }
    hide Snapshot, OneNodeEach, Next, Room, Sound, Tallied, Unspent, Numbered;
    NumberedIsUnspent(w);
    TalliedIsValid(w);
    StepTallies(w, Snap(raw), w');
    StepStaysUnspent(w, Snap(raw), w');
    NumberedIsUnspent(w');
    BelowTheLimitIsRoom(w.doc, w.stamps, Permitted(w, raw));
    WalkKeepsNames(w, raw);
  }

  lemma EditKeepsNames(w: World, s: Step, w': World)
    requires Named(w) && Next(w, s, w') && s.Edit? && LeavesStamps(w, s)
    ensures Named(w')
  {
    hide NumberOf, IsRef;
    forall n <- w'.stamps ensures w'.stamps[n].ref == "" || WasListed(w', n, w'.stamps[n].ref) {
      if n in w.stamps && w.stamps[n].ref != "" { ListedStays(w, w', n, w.stamps[n].ref); }
    }
  }

  /** A page whose elements have never been stamped. */
  ghost predicate Unstamped(w: World) { forall n <- w.stamps :: w.stamps[n].ref == "" }

  lemma {:induction false} RunKeepsNames(ws: seq<World>, steps: seq<Step>, i: nat)
    requires Run(ws, steps) && Unstamped(ws[0]) && i < |ws| && WithinCap(ws, steps, i) && LeftAlone(ws, steps, i)
    ensures Named(ws[i])
    decreases i
  {
    if i > 0 {
      hide Named, Next, LeavesStamps, Unstamped;
      RunKeepsNames(ws, steps, i - 1);
      assert Follows(ws, steps, i - 1) && LeavesStamps(ws[i - 1], steps[i - 1]);
      if steps[i - 1].Snap? {
        NamedIsValid(ws[i - 1]);
        SnapKeepsNames(ws[i - 1], steps[i - 1].raw, ws[i]);
      } else {
        EditKeepsNames(ws[i - 1], steps[i - 1], ws[i]);
      }
    }
  }

  lemma NamedIsValid(w: World)
    requires Named(w)
    ensures ValidDoc(w.doc)
  {}

  /** Over any run of snapshots, edits and navigations in which the page leaves the stamps alone and the
      counter has stayed within the cap so far, no number names two nodes, and the next step, whatever
      counter it leaves, keeps it so exactly if it is no walk the numbers run out in. */
  lemma NumbersNameOneNode(ws: seq<World>, steps: seq<Step>, i: nat)
    requires Run(ws, steps) && Unstamped(ws[0]) && i < |steps| && WithinCap(ws, steps, i) && LeftAlone(ws, steps, i)
    ensures |ws| == |steps| + 1 && ValidDoc(ws[i].doc)
    ensures AllRefs(ws[i + 1].listed) && OneNodeEach(ws[i].listed)
    ensures OneNodeEach(ws[i + 1].listed) <==> (steps[i].Snap? ==> Room(ws[i].doc, ws[i].stamps, Permitted(ws[i], steps[i].raw)))
  {
    assert |ws| == |steps| + 1;
    hide NumberOf, IsRef, Run, Room, Snapshot, Sound, OneNodeEach;
    RunKeepsNames(ws, steps, i);
    RunFollows(ws, steps, i);
    if steps[i].Snap? {
      WalkKeepsNames(ws[i], steps[i].raw);
    }
  }

  lemma RunFollows(ws: seq<World>, steps: seq<Step>, i: nat)
    requires Run(ws, steps) && i < |steps|
    ensures |ws| == |steps| + 1 && Follows(ws, steps, i)
  {}

  // ---------------------------------------------------------------- past the cap

  /** The number the counter is coerced back to has been listed. */
  ghost predicate CapIsOut(w: World) {
    w.next == MAX_SAFE_NEXT_REF && exists k :: 0 <= k < |w.listed| && w.listed[k].ref == RefOf(MAX_SAFE_NEXT_REF)
  }

  lemma SomeElementGets(d: Doc, first: map<NodeId, Stamp>, start: nat, order: seq<nat>, n: nat) returns (k: nat)
    requires Listable(d, order) && start <= n < LIMIT && n < start + Fresh(d, first, order)
    ensures k < |order| && RefAt(d, first, start, order, k) == RefOf(n)
  {
    hide Fresh, Keeps, RefOf, StampAt;
    assert order[..|order|] == order;
    k := FreshIndex(d, first, order, |order|, n - start);
  }

  lemma SomeItemGets(d: Doc, stamps: map<NodeId, Stamp>, next: nat, n: nat) returns (k: nat)
    requires Sound(d, stamps, next) && Start(d, stamps, next) <= n < LIMIT && n < Snapshot(d, stamps, next).counter
    ensures k < |Snapshot(d, stamps, next).out| && Snapshot(d, stamps, next).out[k].ref == RefOf(n)
  {
    SnapshotClosed(d, stamps, next);
    hide *;
    CounterCounts(d, stamps, Start(d, stamps, next), Visit(d, d.body), Snapshot(d, stamps, next));
    k := SomeElementGets(d, stamps, Start(d, stamps, next), Visit(d, d.body), n);
    ItemsFollow(d, stamps, next, k);
  }

  lemma CounterCounts(d: Doc, first: map<NodeId, Stamp>, start: nat, order: seq<nat>, w: Walk)
    requires Listable(d, order) && ClosedForm(d, first, start, order, w)
    ensures w.counter <= start + Fresh(d, first, order)
  {
    hide Fresh, ItemAt, OthersUntouched;
  }

  /** A walk whose counter passes the cap has given out the cap itself. */
  lemma PassingTheCap(w: World, raw: Option<int>)
    requires Named(w) && SoundAt(w, raw) && WalkAt(w, raw).counter > MAX_SAFE_NEXT_REF
    ensures CapIsOut(Snapped(w, raw))
  {
    hide Snapshot, Sound, HighestIn, RefOf, NumberOf, IsRef, Named;
    NamedIsLow(w);
    NamedIsCapped(w);
    var k := SomeItemGets(w.doc, w.stamps, Permitted(w, raw), MAX_SAFE_NEXT_REF);
    assert Snapped(w, raw).listed[|w.listed| + k] == WalkAt(w, raw).out[k];
  }

  lemma NamedIsCapped(w: World)
    requires Named(w)
    ensures ValidDoc(w.doc) && 1 <= w.next <= MAX_SAFE_NEXT_REF
  {}

  lemma CapStaysOut(w: World, s: Step, w': World)
    requires CapIsOut(w) && Next(w, s, w')
    ensures CapIsOut(w')
  {
    hide Snapshot, RefOf, Sound;
    var k :| 0 <= k < |w.listed| && w.listed[k].ref == RefOf(MAX_SAFE_NEXT_REF);
    assert w'.listed[k] == w.listed[k];
  }

  lemma {:induction false} RunPassesTheCap(ws: seq<World>, steps: seq<Step>, n: nat)
    requires Run(ws, steps) && Unstamped(ws[0]) && n < |ws| && LeftAlone(ws, steps, n) && !WithinCap(ws, steps, n)
    ensures CapIsOut(ws[n])
    decreases n
  {
    hide Named, Next, LeavesStamps, Unstamped, CapIsOut, First, Snapshot, Snapped;
    assert Follows(ws, steps, n - 1);
    if WithinCap(ws, steps, n - 1) {
      RunKeepsNames(ws, steps, n - 1);
      SnapIsSnapped(ws[n - 1], steps[n - 1], ws[n]);
      PassingTheCap(ws[n - 1], steps[n - 1].raw);
    } else {
      RunPassesTheCap(ws, steps, n - 1);
      CapStaysOut(ws[n - 1], steps[n - 1], ws[n]);
    }
  }

  lemma SnapIsSnapped(w: World, s: Step, w': World)
    requires Named(w) && Next(w, s, w') && s.Snap?
    ensures SoundAt(w, s.raw) && ValidDoc(w.doc) && w' == Snapped(w, s.raw)
  {}

  /** The browser is moved to the page `doc`, which leaves the stamps alone and which the numbers last
      for, and a snapshot is taken there; then a number names two nodes. */
  ghost predicate NamesTwo(w: World, doc: Doc, stamps: map<NodeId, Stamp>, raw: Option<int>) {
    && ValidDoc(doc) && Stamped(doc, stamps) && LeavesStamps(w, Edit(doc, stamps))
    && SoundAt(Moved(w, doc, stamps), raw) && Room(doc, stamps, Permitted(w, raw))
    && !OneNodeEach(w.listed + WalkAt(Moved(w, doc, stamps), raw).out)
  }

  /** Over any run in which the page leaves the stamps alone: the counter has stayed within the cap if and
      only if no move to another page and no snapshot there makes a number name two nodes; and that can
      be seen from the numbers listed. */
  lemma OneNodeUntilTheCap(ws: seq<World>, steps: seq<Step>)
    requires Run(ws, steps) && Unstamped(ws[0]) && LeftAlone(ws, steps, |steps|)
    ensures WithinCap(ws, steps, |steps|) <==> !exists doc, stamps, raw :: NamesTwo(ws[|steps|], doc, stamps, raw)
    ensures WithinCap(ws, steps, |steps|) <==> Unspent(ws[|steps|].listed)
  {
    var n := |steps|;
    assert n < |ws|;
    RunTallies(ws, steps, n);
    hide *;
    if WithinCap(ws, steps, n) {
      CapLeavesUnspent(ws, steps, n);
      RunKeepsNames(ws, steps, n);
      forall doc, stamps, raw ensures !NamesTwo(ws[n], doc, stamps, raw) { NamedNamesOne(ws[n], doc, stamps, raw); }
    } else {
      RunPassesTheCap(ws, steps, n);
      CapComesAgain(ws[n]);
    }
  }

  lemma NamedNamesOne(w: World, doc: Doc, stamps: map<NodeId, Stamp>, raw: Option<int>)
    requires Named(w)
    ensures !NamesTwo(w, doc, stamps, raw)
  {
    if NamesTwo(w, doc, stamps, raw) {
      EditKeepsNames(w, Edit(doc, stamps), Moved(w, doc, stamps));
      hide Named, OneNodeEach, Room, Sound, Snapshot, LeavesStamps, Stamped, ValidDoc;
      WalkKeepsNames(Moved(w, doc, stamps), raw);
      assert false;
    }
  }

  lemma {:induction false} NodesAreBounded(nodes: set<NodeId>) returns (n: NodeId)
    ensures forall m <- nodes :: m < n
  {
    n := 0;
    if m :| m in nodes {
      n := NodesAreBounded(nodes - {m});
      n := Max(n, m + 1);
      assert forall k <- nodes :: k == m || k in nodes - {m};
    }
  }

  lemma CapComesAgain(w: World)
    requires Tallied(w) && CapIsOut(w)
    ensures !Unspent(w.listed) && exists doc, stamps, raw :: NamesTwo(w, doc, stamps, raw)
  {
    hide RefOf, Tally, NumberOf, IsRef, NamesTwo, NextButton, OneButton;
    var k :| 0 <= k < |w.listed| && w.listed[k].ref == RefOf(MAX_SAFE_NEXT_REF);
    var n := NodesAreBounded(w.stamps.Keys + {w.listed[k].node});
    RefReadsBack(MAX_SAFE_NEXT_REF);
    MoveToOneButton(w, n, None);
    NewButtonNamesTwo(w, n, k);
  }

  lemma NewButtonNamesTwo(w: World, n: NodeId, k: nat)
    requires NextButton(w, n, None) && n !in w.stamps && n + 1 !in w.stamps && w.next == MAX_SAFE_NEXT_REF
    requires k < |w.listed| && w.listed[k].ref == RefOf(w.next) && w.listed[k].node < n
    ensures NamesTwo(w, OneButton(n).0, OneButton(n).1, None)
  {
    hide Snapshot, Visit, Keeps, Room, Clear, NumberOf, IsRef, IsFresh, RefOf, Highest, Stamped;
    TwoItemsShare(w.listed, k, Item(n + 1, RefOf(w.next), "button", ""));
  }

  lemma TwoItemsShare(listed: seq<Item>, k: nat, item: Item)
    requires k < |listed| && SameNumber(listed[k], item) && listed[k].node != item.node
    ensures !OneNodeEach(listed + [item])
  {
    hide NumberOf, IsRef;
    assert (listed + [item])[k] == listed[k] && (listed + [item])[|listed|] == item;
  }

  /** Moving to the page with one button and taking a snapshot there are two steps of a run. */
  lemma ButtonIsListed(w: World, n: NodeId, raw: Option<int>)
    requires 1 <= w.next <= MAX_SAFE_NEXT_REF
    ensures var p, next := Moved(w, OneButton(n).0, OneButton(n).1), Permitted(w, raw);
      && ValidDoc(p.doc) && Next(w, Edit(p.doc, p.stamps), p) && Next(p, Snap(raw), Snapped(p, raw)) && OrdinaryAt(p, raw)
      && Snapped(p, raw).listed == w.listed + [Item(n + 1, RefOf(next), "button", "")]
      && Snapped(p, raw).next == Max(w.next, CoerceNextRef(Some(Succ(next))))
      && Snapped(p, raw).stamps.Keys == {n, n + 1}
  {
    hide Snapshot, Visit, Keeps, Room, Clear, NumberOf, IsRef, IsFresh, RefOf, Sound, Stamped;
    MoveToOneButton(w, n, raw);
    SoundIsValid(OneButton(n).0, OneButton(n).1, Permitted(w, raw));
    WalkKeepsKeys(Moved(w, OneButton(n).0, OneButton(n).1), raw);
  }

  lemma SoundIsValid(d: Doc, stamps: map<NodeId, Stamp>, next: nat)
    requires Sound(d, stamps, next)
    ensures ValidDoc(d)
  {}

  lemma WalkKeepsKeys(w: World, raw: Option<int>)
    requires ValidDoc(w.doc) && SoundAt(w, raw)
    ensures WalkAt(w, raw).stamps.Keys == w.stamps.Keys
  {
    SnapshotClosed(w.doc, w.stamps, Permitted(w, raw));
    hide Visit, Snapshot, StampAll, Fresh, Highest, ItemAt, Keeps;
  }

  /** Two ordinary pages, one after the other, with a snapshot of each. */
  ghost function TwoPages(raw: Option<int>, again: Option<int>): (run: (seq<World>, seq<Step>))
    ensures |run.0| == 4 && |run.1| == 3
  {
    var w0 := World(OneButton(0).0, OneButton(0).1, 1, []);
    var w1 := Snapped(w0, raw);
    var w2 := Moved(w1, OneButton(2).0, OneButton(2).1);
    ([w0, w1, w2, Snapped(w2, again)], [Snap(raw), Edit(w2.doc, w2.stamps), Snap(again)])
  }

  /** Nothing is forged there and the numbers last for either snapshot; yet both buttons are listed under
      one ref exactly if the caller's first counter has reached the cap. */
  lemma CappedCounterCollides(raw: Option<int>, again: Option<int>)
    ensures var (ws, steps) := TwoPages(raw, again);
      && Run(ws, steps) && Unstamped(ws[0]) && LeftAlone(ws, steps, 3)
      && OrdinaryAt(ws[0], raw) && OrdinaryAt(ws[2], again)
      && |ws[3].listed| == 2 && ws[3].listed[0].node == 1 && ws[3].listed[1].node == 3
      && (ws[3].listed[0].ref == ws[3].listed[1].ref <==> raw.Some? && raw.value >= MAX_SAFE_NEXT_REF)
  {
    hide *;
    TwoPagesRun(raw, again);
    TwoPagesListing(raw, again);
    CountersMeet(raw, again);
  }

  /** What the second page starts from is what the first one gave out exactly from the cap on. */
  lemma CountersMeet(raw: Option<int>, again: Option<int>)
    ensures var c := CoerceNextRef(raw);
      RefOf(c) == RefOf(Max(CoerceNextRef(again), CoerceNextRef(Some(Succ(c))))) <==> raw.Some? && raw.value >= MAX_SAFE_NEXT_REF
  {
    hide NumberOf, IsRef, RefOf;
    RefReadsBack(CoerceNextRef(raw));
    RefReadsBack(Max(CoerceNextRef(again), CoerceNextRef(Some(Succ(CoerceNextRef(raw))))));
  }

  lemma TwoPagesRun(raw: Option<int>, again: Option<int>)
    ensures var (ws, steps) := TwoPages(raw, again);
      && Run(ws, steps) && Unstamped(ws[0]) && LeftAlone(ws, steps, 3) && OrdinaryAt(ws[0], raw) && OrdinaryAt(ws[2], again)
  {
    var (ws, steps) := TwoPages(raw, again);
    hide Snapped, OrdinaryAt, NumberOf, IsRef, RefOf, SoundAt, Next, ValidDoc;
    assert ws[0] == Moved(ws[0], OneButton(0).0, OneButton(0).1);
    ButtonIsListed(ws[0], 0, raw);
    ButtonIsListed(ws[1], 2, again);
    assert Follows(ws, steps, 0) && Follows(ws, steps, 1) && Follows(ws, steps, 2);
    assert LeavesStamps(ws[1], steps[1]);
  }

  lemma TwoPagesListing(raw: Option<int>, again: Option<int>)
    ensures var ws, c := TwoPages(raw, again).0, CoerceNextRef(raw);
      ws[3].listed == [Item(1, RefOf(c), "button", ""), Item(3, RefOf(Max(CoerceNextRef(again), CoerceNextRef(Some(Succ(c))))), "button", "")]
  {
    var (ws, steps) := TwoPages(raw, again);
    hide Snapped, OrdinaryAt, NumberOf, IsRef, RefOf, SoundAt, Next, ValidDoc;
    assert ws[0] == Moved(ws[0], OneButton(0).0, OneButton(0).1);
    ButtonIsListed(ws[0], 0, raw);
    ButtonIsListed(ws[1], 2, again);
  }

  /** The numbers last for a snapshot at `w`, and no unlisted element carries one of them. */
  ghost predicate OrdinaryAt(w: World, raw: Option<int>) {
    ValidDoc(w.doc) && Room(w.doc, w.stamps, Permitted(w, raw)) && Clear(w.doc, w.stamps)
  }

  // ---------------------------------------------------------------- refs are kept

  ghost predicate KeptIffMatching(w: World, raw: Option<int>, k: nat)
    requires ValidDoc(w.doc) && k < |Visit(w.doc, w.doc.body)|
  {
    var e, out := Visit(w.doc, w.doc.body)[k], WalkAt(w, raw).out;
    && e < |w.doc.elements| && k < |out| && out[k].node == w.doc.elements[e].node
    && var stamp, look := StampAt(w.doc, w.stamps, e), w.doc.elements[e].look;
       out[k].ref == stamp.ref <==> stamp.ref != "" && stamp.role == look.role && stamp.name == Some(look.name)
  }

  /** The listed ref is the one the element carries exactly if the element keeps it. */
  lemma SameRefIffKept(d: Doc, first: map<NodeId, Stamp>, start: nat, order: seq<nat>, k: nat)
    requires Ready(d, first, start) && Listable(d, order) && k < |order|
    ensures RefAt(d, first, start, order, k) == StampAt(d, first, order[k]).ref <==> Keeps(d, first, order[k])
  {
    if !Keeps(d, first, order[k]) {
      FreshNumber(d, first, start, order, k);
      hide Keeps, NumberOf, IsRef, Fresh, RefAt, HighestIn;
      if IsRef(StampAt(d, first, order[k]).ref) { HighestBounds(d, first, |d.elements|, order[k]); }
    }
  }

  lemma SnapKeepsMatching(w: World, raw: Option<int>, k: nat)
    requires Named(w) && SoundAt(w, raw)
    requires k < |Visit(w.doc, w.doc.body)|
    ensures KeptIffMatching(w, raw, k)
  {
    var d, stamps, next := w.doc, w.stamps, Permitted(w, raw);
    NamedIsLow(w);
    SnapshotClosed(d, stamps, next);
    var order, start, walk := Visit(d, d.body), Start(d, stamps, next), WalkAt(w, raw);
    assert k < |order| && order[k] < |d.elements| && |walk.out| == |order|;
    assert ItemAt(d, stamps, start, order, walk, k);
    hide Visit, StampAll, Fresh, Snapshot, Named, Keeps, Room, Sound, Ready, RefAt, StampAt, ClosedForm, Listable, Start;
    MatchingKeeps(w, order[k]);
    SameRefIffKept(d, stamps, start, order, k);
  }

  /** In such a run a snapshot lists an element under the ref it has exactly if it has one and its role
      and name match its stamp. */
  lemma RefsAreKept(ws: seq<World>, steps: seq<Step>, i: nat, k: nat)
    requires Run(ws, steps) && Unstamped(ws[0]) && i < |steps| && WithinCap(ws, steps, i) && LeftAlone(ws, steps, i)
    requires steps[i].Snap? && ValidDoc(ws[i].doc) && k < |Visit(ws[i].doc, ws[i].doc.body)|
    ensures KeptIffMatching(ws[i], steps[i].raw, k)
  {
    RunKeepsNames(ws, steps, i);
    assert Follows(ws, steps, i);
    SnapUnfolds(ws[i], steps[i].raw, ws[i + 1]);
    hide *;
    SnapKeepsMatching(ws[i], steps[i].raw, k);
  }

  // ---------------------------------------------------------------- resolving later on

  /** Only edits of the page from step `i` to step `j`. */
  ghost predicate OnlyEdits(steps: seq<Step>, i: nat, j: nat) { forall k | i <= k < j && k < |steps| :: steps[k].Edit? }

  /** The node has been there from `i` to `j`. */
  ghost predicate Lives(ws: seq<World>, i: nat, j: nat, n: NodeId) { forall k | i <= k <= j && k < |ws| :: n in ws[k].stamps }

  lemma EditLeavesStamp(w: World, s: Step, w': World, n: NodeId)
    requires Next(w, s, w') && s.Edit? && LeavesStamps(w, s) && n in w'.stamps
    ensures n in w.stamps ==> w'.stamps[n] == w.stamps[n]
    ensures n !in w.stamps ==> w'.stamps[n].ref == ""
  {}

  /** While the page only edits, a node keeps its stamp, and a stamped node has been there all along. */
  lemma {:induction false} StampStays(ws: seq<World>, steps: seq<Step>, i: nat, j: nat, n: NodeId)
    requires Run(ws, steps) && i <= j < |ws| && LeftAlone(ws, steps, j) && OnlyEdits(steps, i, j) && n in ws[j].stamps
    ensures Lives(ws, i, j, n) ==> ws[j].stamps[n] == ws[i].stamps[n]
    ensures ws[j].stamps[n].ref != "" ==> Lives(ws, i, j, n)
    decreases j
  {
    if i < j {
      hide Next, LeavesStamps;
      RunFollows(ws, steps, j - 1);
      assert LeavesStamps(ws[j - 1], steps[j - 1]);
      EditLeavesStamp(ws[j - 1], steps[j - 1], ws[j], n);
      if n in ws[j - 1].stamps { StampStays(ws, steps, i, j - 1, n); }
    }
  }

  /** The node is on the page, to be seen, with this role and name. */
  ghost predicate ShowsAs(d: Doc, x: Item, e: nat)
    requires ValidDoc(d)
  {
    && e < |d.elements| && d.elements[e].node == x.node && Under(d, e, d.body)
    && d.elements[e].look.role == Some(x.role) && d.elements[e].look.name == x.name
  }

  /** After a snapshot and any edits that leave the stamps alone, a listed ref resolves exactly if its
      node has been there ever since, is still to be seen and still has the role and the name it was
      listed with. */
  lemma ListedRefResolves(ws: seq<World>, steps: seq<Step>, i: nat, j: nat, k: nat)
    requires Run(ws, steps) && Unstamped(ws[0]) && i < j < |ws| && |ws| == |steps| + 1 && steps[i].Snap?
    requires WithinCap(ws, steps, j) && LeftAlone(ws, steps, j) && OnlyEdits(steps, i + 1, j)
    requires ValidDoc(ws[i].doc) && k < |WalkAt(ws[i], steps[i].raw).out|
    ensures var x, w := WalkAt(ws[i], steps[i].raw).out[k], ws[j];
      && ValidDoc(w.doc)
      && (CheckRef(w.doc, w.stamps, x.ref).None? <==> Lives(ws, i + 1, j, x.node) && exists e :: ShowsAs(w.doc, x, e))
  {
    var x, w := WalkAt(ws[i], steps[i].raw).out[k], ws[j];
    RunKeepsNames(ws, steps, j);
    NamedIsValid(w);
    SnapStamps(ws, steps, i, k);
    hide Run, Named, Snapshot, CheckRef, Under, NumberOf, IsRef, LeftAlone, WithinCap, OnlyEdits, Lives;
    ResolvesExactly(w.doc, w.stamps, x.ref);
    if e :| LooksAsStamped(w.doc, w.stamps, x.ref, e) {
      CarrierIsListed(ws, steps, i, j, x, e);
      assert Lives(ws, i + 1, j, x.node) && ShowsAs(w.doc, x, e);
    }
    if Lives(ws, i + 1, j, x.node) {
      if e :| ShowsAs(w.doc, x, e) { ShownIsStamped(ws, steps, i, j, x, e); }
    }
  }

  /** What the snapshot leaves on a listed node. */
  lemma SnapStamps(ws: seq<World>, steps: seq<Step>, i: nat, k: nat)
    requires Run(ws, steps) && i < |steps| && steps[i].Snap? && ValidDoc(ws[i].doc) && k < |WalkAt(ws[i], steps[i].raw).out|
    ensures var x, w := WalkAt(ws[i], steps[i].raw).out[k], ws[i + 1];
      IsRef(x.ref) && x in w.listed && x.node in w.stamps && w.stamps[x.node] == Stamp(x.ref, Some(x.role), Some(x.name))
  {
    RunFollows(ws, steps, i);
    SnapUnfolds(ws[i], steps[i].raw, ws[i + 1]);
    hide Run, Next, Snapshot, IsRef, Visit;
    WalkStamps(ws[i].doc, ws[i].stamps, Permitted(ws[i], steps[i].raw), k);
    assert ws[i + 1].listed[|ws[i].listed| + k] == WalkAt(ws[i], steps[i].raw).out[k];
  }

  lemma WalkStamps(d: Doc, stamps: map<NodeId, Stamp>, next: nat, k: nat)
    requires Sound(d, stamps, next) && k < |Snapshot(d, stamps, next).out|
    ensures var w := Snapshot(d, stamps, next);
      && IsRef(w.out[k].ref) && w.out[k].node in w.stamps
      && w.stamps[w.out[k].node] == Stamp(w.out[k].ref, Some(w.out[k].role), Some(w.out[k].name))
  {
    ListedStamp(d, stamps, next, k);
    SnapshotClosed(d, stamps, next);
    hide Visit, Snapshot, StampAll, Fresh, Highest, RefAt, IsRef;
    assert ItemAt(d, stamps, Start(d, stamps, next), Visit(d, d.body), Snapshot(d, stamps, next), k);
  }

  lemma CarrierIsListed(ws: seq<World>, steps: seq<Step>, i: nat, j: nat, x: Item, e: nat)
    requires Run(ws, steps) && i < j < |ws| && |ws| == |steps| + 1 && LeftAlone(ws, steps, j) && OnlyEdits(steps, i + 1, j)
    requires Named(ws[j]) && x in ws[i + 1].listed && x.node in ws[i + 1].stamps
    requires ws[i + 1].stamps[x.node] == Stamp(x.ref, Some(x.role), Some(x.name))
    requires ValidDoc(ws[j].doc) && LooksAsStamped(ws[j].doc, ws[j].stamps, x.ref, e)
    ensures Lives(ws, i + 1, j, x.node) && ShowsAs(ws[j].doc, x, e)
  {
    var w := ws[j];
    BlankIsNoRef();
    hide Run, Under, NumberOf, IsRef, LeftAlone, OnlyEdits, CarriersIn;
    var n := w.doc.elements[e].node;
    assert n in w.stamps && w.stamps[n].ref == x.ref;
    ListedGrows(ws, steps, i + 1, j);
    assert WasListed(w, n, x.ref);
    assert WasListed(w, x.node, x.ref) by { InListed(w, x); }
    SameRefSameNode(w, n, x.node, x.ref);
    StampStays(ws, steps, i + 1, j, n);
  }

  lemma InListed(w: World, x: Item)
    requires x in w.listed
    ensures WasListed(w, x.node, x.ref)
  {}

  lemma {:induction false} ListedGrows(ws: seq<World>, steps: seq<Step>, i: nat, j: nat)
    requires Run(ws, steps) && i <= j < |ws|
    ensures ws[i].listed <= ws[j].listed
    decreases j
  {
    if i < j {
      hide Sound, Snapshot;
      ListedGrows(ws, steps, i, j - 1);
      RunFollows(ws, steps, j - 1);
    }
  }

  lemma ShownIsStamped(ws: seq<World>, steps: seq<Step>, i: nat, j: nat, x: Item, e: nat)
    requires Run(ws, steps) && i < j < |ws| && |ws| == |steps| + 1 && LeftAlone(ws, steps, j) && OnlyEdits(steps, i + 1, j)
    requires Named(ws[j]) && IsRef(x.ref) && x.node in ws[i + 1].stamps && ValidDoc(ws[j].doc)
    requires ws[i + 1].stamps[x.node] == Stamp(x.ref, Some(x.role), Some(x.name))
    requires Lives(ws, i + 1, j, x.node) && ShowsAs(ws[j].doc, x, e)
    ensures LooksAsStamped(ws[j].doc, ws[j].stamps, x.ref, e)
  {
    var w := ws[j];
    BlankIsNoRef();
    assert x.node in w.stamps;
    hide Run, Under, NumberOf, IsRef, LeftAlone, OnlyEdits, CarriersIn, Named;
    StampStays(ws, steps, i + 1, j, x.node);
    assert StampAt(w.doc, w.stamps, e) == w.stamps[x.node];
    forall k | 0 <= k < |w.doc.elements| && k != e ensures StampAt(w.doc, w.stamps, k).ref != x.ref { StampsAreUnique(w, e, k); }
  }
}
