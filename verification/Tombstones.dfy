/** The revocation high-water: a MAC-chained append-only log and a signed anchor.

    A MAC is symbolic: `Chain(key, prev, entry)` is the HMAC of `entry` chained from `prev`,
    `MarksMac(key, marks)` the HMAC of an anchor document, `Forged` any other text. Two tags are
    equal exactly when key and content are, which is what an unforgeable MAC gives. */
module Tombstones {

  type JarId = string

  type Key = nat

  datatype Option<+T> = None | Some(value: T)

  datatype Reason = Invalidated | Deleted

  datatype Mark = Mark(generation: int, reason: Reason)

  type Marks = map<JarId, Mark>

  datatype Entry = Entry(jarId: JarId, generation: int, reason: Reason)

  datatype Tag =
    | Root
    | Chain(key: Key, prev: Tag, entry: Entry)
    | MarksMac(key: Key, marks: Marks)
    | Forged(text: nat)

  /** One line of the log file: unparseable, or an entry with the tag it claims. */
  datatype Line = Malformed | Parsed(entry: Entry, tag: Tag)

  /** `torn` says that the file does not end in a newline, so an append is glued to the last line. */
  datatype Log = Log(lines: seq<Line>, torn: bool, readable: bool)

  datatype AnchorFile = Unusable | Signed(marks: Marks, tag: Tag)

  datatype Copies = Copies(log: Log, anchor: AnchorFile)

  const MAX_GENERATION: int := 0x7FFF_FFFF_FFFF_FFFF

  // ---------------------------------------------------------------- folding entries

  function Max(a: int, b: int): int { if a > b then a else b }

  function Min(a: int, b: int): int { if a < b then a else b }

  function Fold(m: Marks, e: Entry): Marks {
    var current := if e.jarId in m then m[e.jarId] else Mark(0, e.reason);
    var reason := if e.reason.Deleted? || current.reason.Deleted? then Deleted else Invalidated;
    m[e.jarId := Mark(Max(e.generation, current.generation), reason)]
  }

  function FoldAll(es: seq<Entry>): Marks {
    if es == [] then map[] else Fold(FoldAll(es[..|es| - 1]), es[|es| - 1])
  }

  /** What a mark means: the greatest tombstoned generation, and whether a delete was ever recorded. */
  ghost predicate Summarises(m: Marks, es: seq<Entry>) {
    && (forall e <- es :: e.jarId in m && e.generation <= m[e.jarId].generation && (e.reason.Deleted? ==> m[e.jarId].reason.Deleted?))
    && (forall id <- m :: Witnessed(m[id], id, es))
  }

  ghost predicate Witnessed(mark: Mark, id: JarId, es: seq<Entry>) {
    && 0 <= mark.generation
    && (exists e :: e in es && e.jarId == id)
    && (mark.generation == 0 || exists e :: e in es && e.jarId == id && e.generation == mark.generation && (e.reason.Deleted? ==> mark.reason.Deleted?))
    && (mark.reason.Deleted? ==> exists e :: e in es && e.jarId == id && e.reason.Deleted?)
  }

  lemma WitnessedLonger(mark: Mark, id: JarId, es: seq<Entry>, e: Entry)
    requires Witnessed(mark, id, es)
    ensures Witnessed(mark, id, es + [e])
  {
    assert forall x <- es :: x in es + [e];
  }

  lemma SummaryStep(m: Marks, es: seq<Entry>, e: Entry)
    requires Summarises(m, es)
    ensures Summarises(Fold(m, e), es + [e])
  {
    var m' := Fold(m, e);
    assert e in es + [e];
    if e.jarId in m { WitnessedLonger(m[e.jarId], e.jarId, es, e); }
    forall id <- m' ensures Witnessed(m'[id], id, es + [e]) {
      if id != e.jarId { WitnessedLonger(m[id], id, es, e); }
    }
  }

  lemma {:induction false} FoldAllSummarises(es: seq<Entry>)
    ensures Summarises(FoldAll(es), es)
  {
    if es != [] {
      FoldAllSummarises(es[..|es| - 1]);
      SummaryStep(FoldAll(es[..|es| - 1]), es[..|es| - 1], es[|es| - 1]);
      assert es == es[..|es| - 1] + [es[|es| - 1]];
    }
  }

  lemma SummaryIsUnique(m1: Marks, m2: Marks, es: seq<Entry>)
    requires Summarises(m1, es) && Summarises(m2, es)
    ensures m1 == m2
  {
    assert forall id <- m1 :: Witnessed(m1[id], id, es);
    assert forall id <- m2 :: Witnessed(m2[id], id, es);
    assert m1.Keys == m2.Keys;
    forall id <- m1 ensures m1[id] == m2[id] {
      assert Witnessed(m1[id], id, es) && Witnessed(m2[id], id, es);
    }
  }

  /** Folding is an order-independent, idempotent join: only the set of entries matters. */
  lemma FoldIsAJoin(es1: seq<Entry>, es2: seq<Entry>)
    requires forall e :: e in es1 <==> e in es2
    ensures FoldAll(es1) == FoldAll(es2)
  {
    FoldAllSummarises(es1);
    FoldAllSummarises(es2);
    assert Summarises(FoldAll(es2), es1);
    SummaryIsUnique(FoldAll(es1), FoldAll(es2), es1);
  }

  // ---------------------------------------------------------------- joining two copies

  function JoinMark(a: Mark, b: Mark): Mark {
    Mark(Max(Max(a.generation, b.generation), 0), if a.reason.Deleted? || b.reason.Deleted? then Deleted else Invalidated)
  }

  function Join(a: Marks, b: Marks): Marks {
    map id | id in a.Keys + b.Keys ::
      if id !in b then a[id] else if id !in a then JoinMark(b[id], b[id]) else JoinMark(a[id], b[id])
  }

  ghost predicate AtMost(a: Marks, b: Marks) {
    forall id <- a :: id in b && a[id].generation <= b[id].generation && (a[id].reason.Deleted? ==> b[id].reason.Deleted?)
  }

  ghost predicate NonNegative(m: Marks) { forall id <- m :: 0 <= m[id].generation }

  lemma JoinAbsorbs(a: Marks, b: Marks)
    requires NonNegative(a) && NonNegative(b)
    ensures AtMost(a, b) ==> Join(a, b) == b
    ensures AtMost(b, a) ==> Join(a, b) == a
    ensures AtMost(a, Join(a, b)) && AtMost(b, Join(a, b)) && NonNegative(Join(a, b))
  {
    if AtMost(a, b) { assert Join(a, b) == b; }
    if AtMost(b, a) { assert Join(a, b) == a; }
  }

  lemma JoinFolds(a: Marks, b: Marks, e: Entry)
    requires NonNegative(a) && NonNegative(b)
    ensures Join(Fold(a, e), b) == Fold(Join(a, b), e)
  {
    var l, r := Join(Fold(a, e), b), Fold(Join(a, b), e);
    var ab := Join(a, b);
    assert l.Keys == r.Keys;
    forall id <- r ensures l[id] == r[id] {
      if id != e.jarId { assert r[id] == ab[id]; }
    }
  }

  lemma FoldedCopyIsAbsorbed(a: Marks, b: Marks, e: Entry)
    requires NonNegative(a) && NonNegative(b)
    ensures Join(Fold(a, e), Fold(Join(a, b), e)) == Fold(Join(a, b), e)
  {
    var ab := Join(a, b);
    JoinAbsorbs(a, b);
    assert AtMost(Fold(a, e), Fold(ab, e)) && NonNegative(Fold(a, e)) && NonNegative(Fold(ab, e));
    JoinAbsorbs(Fold(a, e), Fold(ab, e));
  }

  lemma CopyIsAbsorbed(a: Marks, b: Marks, e: Entry)
    requires NonNegative(a) && NonNegative(b)
    ensures Join(a, Fold(Join(a, b), e)) == Fold(Join(a, b), e)
  {
    JoinAbsorbs(a, b);
    var ab := Join(a, b);
    assert AtMost(a, Fold(ab, e)) && NonNegative(Fold(ab, e));
    JoinAbsorbs(a, Fold(ab, e));
  }

  lemma FoldTwice(m: Marks, e: Entry)
    ensures Fold(Fold(m, e), e) == Fold(m, e)
  {}

  // ---------------------------------------------------------------- replaying the log

  predicate Verifies(keys: seq<Key>, prev: Tag, line: Line) {
    line.Parsed? && Authentic(keys, line) && line.tag.prev == prev
  }

  /** The line carries a MAC that a holder of one of `keys` made for exactly this entry. */
  predicate Authentic(keys: seq<Key>, line: Line) {
    line.Parsed? && line.tag.Chain? && line.tag.key in keys && line.tag.entry == line.entry
  }

  datatype Replayed = Replayed(marks: Marks, prev: Tag)

  function ReplayStep(keys: seq<Key>, acc: Replayed, line: Line): Replayed {
    if Verifies(keys, acc.prev, line) then Replayed(Fold(acc.marks, line.entry), line.tag) else acc
  }

  function Replay(keys: seq<Key>, lines: seq<Line>): Replayed {
    if lines == [] then Replayed(map[], Root)
    else ReplayStep(keys, Replay(keys, lines[..|lines| - 1]), lines[|lines| - 1])
  }

  lemma ReplayAppend(keys: seq<Key>, lines: seq<Line>, line: Line)
    ensures Replay(keys, lines + [line]) == ReplayStep(keys, Replay(keys, lines), line)
  {
    assert (lines + [line])[..|lines|] == lines;
  }

  lemma {:induction false} ReplayNonNegative(keys: seq<Key>, lines: seq<Line>)
    ensures NonNegative(Replay(keys, lines).marks)
  {
    if lines != [] { ReplayNonNegative(keys, lines[..|lines| - 1]); }
  }

  /** `chain` is a log exactly as `record` wrote it: each tag chains from the one before. */
  ghost predicate Linear(keys: seq<Key>, chain: seq<Line>) {
    forall i | 0 <= i < |chain| :: LinkedAt(keys, chain, i)
  }

  ghost predicate LinkedAt(keys: seq<Key>, chain: seq<Line>, i: nat)
    requires i < |chain|
  {
    Authentic(keys, chain[i]) && chain[i].tag.prev == TagBefore(chain, i)
  }

  ghost function TagBefore(chain: seq<Line>, i: nat): Tag
    requires i <= |chain|
  {
    if i == 0 || chain[i - 1].Malformed? then Root else chain[i - 1].tag
  }

  ghost function Depth(t: Tag): nat { if t.Chain? then 1 + Depth(t.prev) else 0 }

  lemma {:induction false} ChainDepth(keys: seq<Key>, chain: seq<Line>, i: nat)
    requires Linear(keys, chain) && i <= |chain|
    ensures Depth(TagBefore(chain, i)) == i
  {
    if i > 0 {
      assert LinkedAt(keys, chain, i - 1);
      ChainDepth(keys, chain, i - 1);
    }
  }

  function EntriesOf(lines: seq<Line>): seq<Entry> {
    if lines == [] then []
    else EntriesOf(lines[..|lines| - 1]) + (if lines[|lines| - 1].Parsed? then [lines[|lines| - 1].entry] else [])
  }

  ghost predicate Subsequence(chain: seq<Line>, lines: seq<Line>) {
    if chain == [] then true
    else if lines == [] then false
    else
      var c, l := chain[..|chain| - 1], lines[..|lines| - 1];
      (chain[|chain| - 1] == lines[|lines| - 1] && Subsequence(c, l)) || Subsequence(chain, l)
  }

  /** How many elements of `chain` a left-to-right scan of `lines` has matched. */
  ghost function Matched(chain: seq<Line>, lines: seq<Line>): (j: nat)
    ensures j <= |chain|
  {
    if lines == [] then 0
    else
      var j := Matched(chain, lines[..|lines| - 1]);
      if j < |chain| && chain[j] == lines[|lines| - 1] then j + 1 else j
  }

  lemma {:induction false} ScanMatchesSubsequence(chain: seq<Line>, i: nat, lines: seq<Line>)
    requires i <= |chain| && Subsequence(chain[..i], lines)
    ensures i <= Matched(chain, lines)
    decreases |lines|
  {
    if i > 0 {
      var l := lines[..|lines| - 1];
      assert chain[..i][..i - 1] == chain[..i - 1];
      if Subsequence(chain[..i], l) {
        ScanMatchesSubsequence(chain, i, l);
      } else {
        ScanMatchesSubsequence(chain, i - 1, l);
      }
    }
  }

  lemma ScanMatchesAll(chain: seq<Line>, lines: seq<Line>)
    requires Subsequence(chain, lines)
    ensures Matched(chain, lines) == |chain|
  {
    var n := |chain|;
    assert chain[..n] == chain;
    ScanMatchesSubsequence(chain, n, lines);
  }

  lemma ScanStep(keys: seq<Key>, chain: seq<Line>, j: nat, l: Line)
    requires Linear(keys, chain) && j <= |chain|
    requires Authentic(keys, l) ==> l in chain
    ensures Verifies(keys, TagBefore(chain, j), l) <==> j < |chain| && chain[j] == l
  {
    if Verifies(keys, TagBefore(chain, j), l) {
      var i :| 0 <= i < |chain| && chain[i] == l;
      assert LinkedAt(keys, chain, i);
      ChainDepth(keys, chain, i);
      ChainDepth(keys, chain, j);
    }
    if j < |chain| { assert LinkedAt(keys, chain, j); }
  }

  lemma EntriesStep(chain: seq<Line>, j: nat)
    requires j < |chain| && chain[j].Parsed?
    ensures FoldAll(EntriesOf(chain[..j + 1])) == Fold(FoldAll(EntriesOf(chain[..j])), chain[j].entry)
  {
    assert chain[..j + 1][..j] == chain[..j];
    var es, e := EntriesOf(chain[..j]), chain[j].entry;
    assert EntriesOf(chain[..j + 1]) == es + [e];
    assert (es + [e])[..|es|] == es;
  }

  lemma {:induction false} ReplayFollowsScan(keys: seq<Key>, chain: seq<Line>, lines: seq<Line>)
    requires Linear(keys, chain)
    requires forall l <- lines :: Authentic(keys, l) ==> l in chain
    ensures var j := Matched(chain, lines);
            Replay(keys, lines) == Replayed(FoldAll(EntriesOf(chain[..j])), TagBefore(chain, j))
    decreases |lines|
  {
    if lines == [] {
      assert chain[..0] == [];
    } else {
      var front, l := lines[..|lines| - 1], lines[|lines| - 1];
      assert forall x <- front :: x in lines;
      ReplayFollowsScan(keys, chain, front);
      var j := Matched(chain, front);
      assert l in lines;
      ScanStep(keys, chain, j, l);
      if j < |chain| && chain[j] == l {
        assert LinkedAt(keys, chain, j);
        EntriesStep(chain, j);
      }
    }
  }

  /** Replay believes exactly what `record` wrote: whatever lines are put anywhere into the log,
      copies of its own lines included, it reads the written chain as long as that chain is still there. */
  lemma ReplayBelievesOnlyTheChain(keys: seq<Key>, chain: seq<Line>, lines: seq<Line>)
    requires Linear(keys, chain) && Subsequence(chain, lines)
    requires forall l <- lines :: Authentic(keys, l) ==> l in chain
    ensures Replay(keys, lines) == Replayed(FoldAll(EntriesOf(chain)), TagBefore(chain, |chain|))
  {
    ScanMatchesAll(chain, lines);
    ReplayFollowsScan(keys, chain, lines);
    var n := |chain|;
    assert chain[..n] == chain;
  }

  // ---------------------------------------------------------------- reading both copies

  function AnchorMarks(keys: seq<Key>, a: AnchorFile): Marks {
    if a.Signed? && a.tag.MarksMac? && a.tag.key in keys && a.tag.marks == a.marks then a.marks else map[]
  }

  /** The high-water in effect: the log's marks joined with the signed anchor's. */
  function Combined(keys: seq<Key>, c: Copies): Marks {
    Join(Replay(keys, c.log.lines).marks, AnchorMarks(keys, c.anchor))
  }

  datatype Block = ByDelete | ByInvalidation | StateUnavailable

  function Blocked(keys: seq<Key>, c: Copies, id: JarId, generation: int): Option<Block> {
    if !c.log.readable then Some(StateUnavailable)
    else
      var m := Combined(keys, c);
      if id !in m then None
      else if m[id].reason.Deleted? then Some(ByDelete)
      else if generation <= m[id].generation then Some(ByInvalidation)
      else None
  }

  predicate IsDeleted(keys: seq<Key>, c: Copies, id: JarId) {
    !c.log.readable || var m := Combined(keys, c); id in m && m[id].reason.Deleted?
  }

  function HighWater(keys: seq<Key>, c: Copies, id: JarId): int {
    if !c.log.readable then MAX_GENERATION
    else var m := Combined(keys, c); if id in m then m[id].generation else 0
  }

  // ---------------------------------------------------------------- recording

  function Append(log: Log, line: Line): Log {
    if log.torn && log.lines != [] then log.(lines := log.lines[..|log.lines| - 1] + [Malformed], torn := false)
    else log.(lines := log.lines + [line], torn := false)
  }

  function NewLine(keys: seq<Key>, c: Copies, e: Entry): Line
    requires keys != []
  {
    Parsed(e, Chain(keys[0], Replay(keys, c.log.lines).prev, e))
  }

  function Appended(keys: seq<Key>, c: Copies, e: Entry): Copies
    requires keys != []
  {
    c.(log := Append(c.log, NewLine(keys, c, e)))
  }

  /** The copies after `record` of `e`; `anchorOk` says whether the best-effort anchor write landed. */
  function AfterRecord(keys: seq<Key>, c: Copies, e: Entry, anchorOk: bool): Copies
    requires keys != []
  {
    var c' := Appended(keys, c, e);
    var marks := Fold(Combined(keys, c'), e);
    if anchorOk then c'.(anchor := Signed(marks, MarksMac(keys[0], marks))) else c'
  }

  /** Where a process ends while it records: nowhere, inside the append with all of the line but its
      newline or less, or after the append. */
  datatype RecordStop = NoStop | InAppend(complete: bool) | AfterAppend

  function Recorded(keys: seq<Key>, c: Copies, e: Entry, anchorOk: bool, stop: RecordStop): Copies
    requires keys != []
  {
    match stop
    case NoStop => AfterRecord(keys, c, e, anchorOk)
    case InAppend(complete) => AppendedInPart(keys, c, e, complete)
    case AfterAppend => Appended(keys, c, e)
  }

  /** Whether the entry outlives every later append. */
  predicate Durable(c: Copies, anchorOk: bool, stop: RecordStop) {
    !stop.InAppend? && (Tight(c) || (anchorOk && stop.NoStop?))
  }

  /** Whether an append starts on a line of its own. */
  predicate Tight(c: Copies) { !c.log.torn || c.log.lines == [] }

  /** The copies without a last line that lacks its newline: what any later append leaves of them. */
  function Cut(c: Copies): (r: Copies)
    ensures Tight(r) && r.log.readable == c.log.readable && r.anchor == c.anchor
  {
    c.(log := if Tight(c) then c.log.(torn := false) else c.log.(lines := c.log.lines[..|c.log.lines| - 1], torn := false))
  }

  /** A process that ends inside the append leaves part of the line, or all of it but the newline. */
  function AppendedInPart(keys: seq<Key>, c: Copies, e: Entry, complete: bool): Copies
    requires keys != []
  {
    var line := if complete && Tight(c) then NewLine(keys, c, e) else Malformed;
    c.(log := Cut(c).log.(lines := Cut(c).log.lines + [line], torn := true))
  }

  ghost predicate Sane(c: Copies) { c.anchor.Signed? && c.anchor.tag.MarksMac? ==> NonNegative(c.anchor.tag.marks) }

  lemma MalformedAddsNothing(keys: seq<Key>, lines: seq<Line>)
    ensures Replay(keys, lines + [Malformed]) == Replay(keys, lines)
  {
    ReplayAppend(keys, lines, Malformed);
  }

  lemma TightReads(keys: seq<Key>, c: Copies)
    requires Tight(c)
    ensures Combined(keys, Cut(c)) == Combined(keys, c) && Replay(keys, Cut(c).log.lines) == Replay(keys, c.log.lines)
  {}

  lemma AppendReplays(keys: seq<Key>, c: Copies, e: Entry)
    requires keys != []
    ensures var l := Replay(keys, Cut(c).log.lines).marks;
            Replay(keys, Appended(keys, c, e).log.lines).marks == (if Tight(c) then Fold(l, e) else l) && NonNegative(l)
    ensures Appended(keys, c, e).anchor == c.anchor && Appended(keys, c, e).log.readable == c.log.readable && !Appended(keys, c, e).log.torn
  {
    var lines := Cut(c).log.lines;
    ReplayNonNegative(keys, lines);
    if Tight(c) { ReplayAppend(keys, lines, NewLine(keys, c, e)); } else { MalformedAddsNothing(keys, lines); }
  }

  /** What an append of `e` adds to the marks: the entry, or nothing where its line is glued. */
  lemma AppendFolds(keys: seq<Key>, c: Copies, e: Entry)
    requires keys != [] && Sane(c)
    ensures var l := Replay(keys, Cut(c).log.lines).marks;
            Replay(keys, Appended(keys, c, e).log.lines).marks == (if Tight(c) then Fold(l, e) else l)
    ensures Combined(keys, Appended(keys, c, e)) == if Tight(c) then Fold(Combined(keys, Cut(c)), e) else Combined(keys, Cut(c))
    ensures NonNegative(Combined(keys, Cut(c))) && NonNegative(Replay(keys, Cut(c).log.lines).marks) && NonNegative(AnchorMarks(keys, c.anchor))
  {
    AppendReplays(keys, c, e);
    var l, a := Replay(keys, Cut(c).log.lines).marks, AnchorMarks(keys, c.anchor);
    assert NonNegative(a);
    hide Replay, Appended, Cut, Tight, Join, Fold, AnchorMarks;
    JoinFolds(l, a, e);
    JoinAbsorbs(l, a);
  }

  /** Recording is one fold of the entry into what the copies hold without a torn last line, whatever
      that is, and does nothing more than drop that line when it is torn and the anchor write fails. */
  lemma RecordFoldsExactly(keys: seq<Key>, c: Copies, e: Entry, anchorOk: bool)
    requires keys != [] && Sane(c)
    ensures Combined(keys, AfterRecord(keys, c, e, anchorOk)) ==
            if Tight(c) || anchorOk then Fold(Combined(keys, Cut(c)), e) else Combined(keys, Cut(c))
    ensures Combined(keys, Appended(keys, c, e)) == if Tight(c) then Fold(Combined(keys, Cut(c)), e) else Combined(keys, Cut(c))
    ensures Sane(AfterRecord(keys, c, e, anchorOk)) && Sane(Appended(keys, c, e))
  {
    AppendFolds(keys, c, e);
    if anchorOk { AnchorTakesIn(keys, c, e); }
  }

  lemma FoldKeepsSigns(m: Marks, e: Entry)
    requires NonNegative(m)
    ensures NonNegative(Fold(m, e))
  {}

  /** What the anchor holds once it has been written. */
  lemma AnchorWritten(keys: seq<Key>, c: Copies, e: Entry)
    requires keys != []
    ensures var c' := AfterRecord(keys, c, e, true);
      && AnchorMarks(keys, c'.anchor) == Fold(Combined(keys, Appended(keys, c, e)), e)
      && c'.anchor == Signed(AnchorMarks(keys, c'.anchor), MarksMac(keys[0], AnchorMarks(keys, c'.anchor)))
      && Combined(keys, c') == Join(Replay(keys, Appended(keys, c, e).log.lines).marks, AnchorMarks(keys, c'.anchor))
  {
    hide Replay, Join, Fold, Appended;
  }

  lemma AnchorTakesIn(keys: seq<Key>, c: Copies, e: Entry)
    requires keys != [] && Sane(c)
    ensures Combined(keys, AfterRecord(keys, c, e, true)) == Fold(Combined(keys, Cut(c)), e)
    ensures Sane(AfterRecord(keys, c, e, true))
  {
    AnchorWritten(keys, c, e);
    AppendFolds(keys, c, e);
    var l, a := Replay(keys, Cut(c).log.lines).marks, AnchorMarks(keys, c.anchor);
    assert Combined(keys, Cut(c)) == Join(l, a);
    hide Combined, Replay, Appended, AfterRecord, AnchorMarks, Cut, Tight, Join, Fold, NonNegative;
    FoldTwice(Join(l, a), e);
    FoldedCopyIsAbsorbed(l, a, e);
    CopyIsAbsorbed(l, a, e);
    FoldKeepsSigns(Join(l, a), e);
  }

  /** An append cut short takes nothing away but an earlier torn line, and adds at most a line that the
      next append destroys. */
  lemma PartialAppend(keys: seq<Key>, c: Copies, e: Entry, complete: bool)
    requires keys != [] && Sane(c)
    ensures var c' := AppendedInPart(keys, c, e, complete);
      && Combined(keys, Cut(c')) == Combined(keys, Cut(c))
      && Combined(keys, c') == (if Tight(c) && complete then Fold(Combined(keys, Cut(c)), e) else Combined(keys, Cut(c)))
      && Sane(c') && !Tight(c')
  {
    var c' := AppendedInPart(keys, c, e, complete);
    var lines := Cut(c).log.lines;
    assert c'.log.lines[..|lines|] == lines;
    if Tight(c) && complete {
      AppendFolds(keys, c, e);
      assert c'.log.lines == Appended(keys, c, e).log.lines;
    } else {
      MalformedAddsNothing(keys, lines);
    }
  }

  predicate Bars(m: Marks, id: JarId, generation: int) {
    id in m && (m[id].reason.Deleted? || generation <= m[id].generation)
  }

  lemma BlockedIsBarred(keys: seq<Key>, c: Copies, id: JarId, generation: int)
    ensures Blocked(keys, c, id, generation).Some? <==> !c.log.readable || Bars(Combined(keys, c), id, generation)
    ensures IsDeleted(keys, c, id) <==> !c.log.readable || (var m := Combined(keys, c); id in m && m[id].reason.Deleted?)
    ensures Blocked(keys, c, id, generation) == Some(StateUnavailable) <==> !c.log.readable
    ensures Blocked(keys, c, id, generation) == Some(ByDelete) <==>
              c.log.readable && var m := Combined(keys, c); id in m && m[id].reason.Deleted?
    ensures c.log.readable ==> HighWater(keys, c, id) == var m := Combined(keys, c); if id in m then m[id].generation else 0
    ensures !c.log.readable ==> HighWater(keys, c, id) == 0x7FFF_FFFF_FFFF_FFFF
  {
    hide Combined;
  }

  /** What an entry blocks. */
  predicate Revokes(e: Entry, id: JarId, generation: int) {
    id == e.jarId && (e.reason.Deleted? || generation <= Max(e.generation, 0))
  }

  lemma FoldBars(m: Marks, e: Entry, id: JarId, generation: int)
    requires NonNegative(m)
    ensures Bars(Fold(m, e), id, generation) <==> Bars(m, id, generation) || Revokes(e, id, generation)
  {}

  /** Which generations are blocked after `record`, for every id and from what the files held before the
      call: those that were blocked without a torn last line, and those the entry names, unless the log
      was torn and the anchor write failed. */
  lemma RecordBlocks(keys: seq<Key>, c: Copies, e: Entry, anchorOk: bool, id: JarId, generation: int)
    requires keys != [] && Sane(c) && c.log.readable
    ensures Blocked(keys, AfterRecord(keys, c, e, anchorOk), id, generation).Some? <==>
              Blocked(keys, Cut(c), id, generation).Some? || ((Tight(c) || anchorOk) && Revokes(e, id, generation))
  {
    AppendFolds(keys, c, e);
    RecordFoldsExactly(keys, c, e, anchorOk);
    FoldBars(Combined(keys, Cut(c)), e, id, generation);
    BlockedIsBarred(keys, AfterRecord(keys, c, e, anchorOk), id, generation);
    BlockedIsBarred(keys, Cut(c), id, generation);
  }

  /** Whether the entry is in effect once recording has ended where it did. */
  predicate Lands(c: Copies, anchorOk: bool, stop: RecordStop) {
    match stop
    case NoStop => Tight(c) || anchorOk
    case InAppend(complete) => Tight(c) && complete
    case AfterAppend => Tight(c)
  }

  lemma RecordedFolds(keys: seq<Key>, c: Copies, e: Entry, anchorOk: bool, stop: RecordStop)
    requires keys != [] && Sane(c)
    ensures var c' := Recorded(keys, c, e, anchorOk, stop);
      && Combined(keys, c') == (if Lands(c, anchorOk, stop) then Fold(Combined(keys, Cut(c)), e) else Combined(keys, Cut(c)))
      && c'.log.readable == c.log.readable && Sane(c') && NonNegative(Combined(keys, Cut(c)))
  {
    StaysReadable(keys, c, e, anchorOk, stop);
    hide Replay, Combined, Fold, Cut, Tight, Append, NewLine, AppendedInPart, AnchorMarks;
    AppendFolds(keys, c, e);
    RecordFoldsExactly(keys, c, e, anchorOk);
    if stop.InAppend? { PartialAppend(keys, c, e, stop.complete); }
  }

  lemma StaysReadable(keys: seq<Key>, c: Copies, e: Entry, anchorOk: bool, stop: RecordStop)
    requires keys != []
    ensures Recorded(keys, c, e, anchorOk, stop).log.readable == c.log.readable
  {
    hide Replay, Combined, Fold, NewLine;
  }

  /** The same wherever recording ended. */
  lemma RecordedBlocks(keys: seq<Key>, c: Copies, e: Entry, anchorOk: bool, stop: RecordStop, id: JarId, generation: int)
    requires keys != [] && Sane(c) && c.log.readable
    ensures Blocked(keys, Recorded(keys, c, e, anchorOk, stop), id, generation).Some? <==>
              Blocked(keys, Cut(c), id, generation).Some? || (Lands(c, anchorOk, stop) && Revokes(e, id, generation))
  {
    RecordedFolds(keys, c, e, anchorOk, stop);
    hide Recorded, Combined, Lands, Fold, Cut;
    FoldBars(Combined(keys, Cut(c)), e, id, generation);
    BlockedIsBarred(keys, Recorded(keys, c, e, anchorOk, stop), id, generation);
    BlockedIsBarred(keys, Cut(c), id, generation);
  }

  /** A torn last line can only add to the marks. */
  lemma CutIsAtMost(keys: seq<Key>, c: Copies)
    requires Sane(c)
    ensures AtMost(Combined(keys, Cut(c)), Combined(keys, c)) && NonNegative(Combined(keys, c))
  {
    var lines := c.log.lines;
    ReplayNonNegative(keys, lines);
    ReplayNonNegative(keys, Cut(c).log.lines);
    var short, long, a := Replay(keys, Cut(c).log.lines).marks, Replay(keys, lines).marks, AnchorMarks(keys, c.anchor);
    if !Tight(c) { assert lines == lines[..|lines| - 1] + [lines[|lines| - 1]]; }
    assert AtMost(short, long) && NonNegative(a);
    hide Replay, AnchorMarks, Cut;
    JoinIsMonotone(short, long, a, a);
    JoinAbsorbs(long, a);
  }

  lemma JoinIsMonotone(a: Marks, b: Marks, m: Marks, n: Marks)
    requires AtMost(a, b) && AtMost(m, n) && NonNegative(a) && NonNegative(b) && NonNegative(m) && NonNegative(n)
    ensures AtMost(Join(a, m), Join(b, n))
  {}

  /** A torn last line is lost with the next record of another jar: a generation that was blocked before
      stays blocked exactly if it is blocked without that line. */
  lemma TornTombstoneStays(keys: seq<Key>, c: Copies, e: Entry, anchorOk: bool, id: JarId, generation: int)
    requires keys != [] && Sane(c) && c.log.readable && e.jarId != id
    requires Blocked(keys, c, id, generation).Some?
    ensures Blocked(keys, AfterRecord(keys, c, e, anchorOk), id, generation).Some? <==> Blocked(keys, Cut(c), id, generation).Some?
  {
    RecordBlocks(keys, c, e, anchorOk, id, generation);
  }

  /** The log holds one valid tombstone, complete but for its newline. Recording it again with a failing
      anchor write undoes it, and so does a wholly successful record about another jar. */
  lemma TornLogLosesATombstone()
    ensures var keys: seq<Key> := [7];
      var e := Entry("jar", 1, Invalidated);
      var c := Copies(Log([Parsed(e, Chain(7, Root, e))], true, true), Unusable);
      && Blocked(keys, c, "jar", 1).Some?
      && c == AppendedInPart(keys, Copies(Log([], false, true), Unusable), e, true)
      && Blocked(keys, AfterRecord(keys, c, e, false), "jar", 1).None?
      && Blocked(keys, AfterRecord(keys, c, Entry("other", 1, Invalidated), true), "jar", 1).None?
  {
    var keys: seq<Key> := [7];
    var e := Entry("jar", 1, Invalidated);
    var line := Parsed(e, Chain(7, Root, e));
    var c := Copies(Log([line], true, true), Unusable);
    ReplayAppend(keys, [], line);
    assert [] + [line] == [line];
    assert Replay(keys, [line]).marks == map["jar" := Mark(1, Invalidated)];
    assert c.log.lines[..0] == [];
    RecordBlocks(keys, c, e, false, "jar", 1);
    RecordBlocks(keys, c, Entry("other", 1, Invalidated), true, "jar", 1);
  }

  // ---------------------------------------------------------------- two copies, one of them intact

  /** Every mark comes from entries in `es`. */
  ghost predicate AllWitnessed(m: Marks, es: seq<Entry>) { forall id <- m :: Witnessed(m[id], id, es) }

  lemma WitnessedIsAtMost(m: Marks, es: seq<Entry>)
    requires AllWitnessed(m, es)
    ensures AtMost(m, FoldAll(es)) && NonNegative(m)
  {
    FoldAllSummarises(es);
    hide FoldAll;
    forall id <- m ensures id in FoldAll(es) && m[id].generation <= FoldAll(es)[id].generation
                           && (m[id].reason.Deleted? ==> FoldAll(es)[id].reason.Deleted?) && 0 <= m[id].generation {
      assert Witnessed(m[id], id, es);
      assert id in FoldAll(es) ==> Witnessed(FoldAll(es)[id], id, es);
    }
  }

  lemma FoldIsWitnessed(m: Marks, es: seq<Entry>, e: Entry)
    requires AllWitnessed(m, es) && e in es
    ensures AllWitnessed(Fold(m, e), es)
  {
    var m' := Fold(m, e);
    if e.jarId in m { assert Witnessed(m[e.jarId], e.jarId, es); }
    forall id <- m' ensures Witnessed(m'[id], id, es) {
      if id != e.jarId { assert Witnessed(m[id], id, es); }
    }
  }

  lemma JoinIsWitnessed(a: Marks, b: Marks, es: seq<Entry>)
    requires AllWitnessed(a, es) && AllWitnessed(b, es)
    ensures AllWitnessed(Join(a, b), es)
  {
    forall id <- Join(a, b) ensures Witnessed(Join(a, b)[id], id, es) {
      assert id in a ==> Witnessed(a[id], id, es);
      assert id in b ==> Witnessed(b[id], id, es);
    }
  }

  /** Every MAC in the two files was made by `record`, over entries it was asked to record. */
  ghost predicate Provenance(keys: seq<Key>, c: Copies, recorded: seq<Entry>) {
    && (forall l <- c.log.lines :: Authentic(keys, l) ==> l.entry in recorded)
    && (c.anchor.Signed? && c.anchor.tag.MarksMac? ==>
          AllWitnessed(c.anchor.tag.marks, recorded))
  }

  ghost predicate LogIntact(keys: seq<Key>, c: Copies, recorded: seq<Entry>) {
    Replay(keys, c.log.lines).marks == FoldAll(recorded)
  }

  ghost predicate AnchorIntact(keys: seq<Key>, c: Copies, recorded: seq<Entry>) {
    AnchorMarks(keys, c.anchor) == FoldAll(recorded)
  }

  lemma {:induction false} ReplayIsWitnessed(keys: seq<Key>, lines: seq<Line>, recorded: seq<Entry>)
    requires forall l <- lines :: Authentic(keys, l) ==> l.entry in recorded
    ensures AllWitnessed(Replay(keys, lines).marks, recorded)
  {
    if lines != [] {
      hide Authentic, Fold, AllWitnessed;
      var front, l := lines[..|lines| - 1], lines[|lines| - 1];
      assert forall x <- front :: x in lines;
      ReplayIsWitnessed(keys, front, recorded);
      assert l in lines;
      if Verifies(keys, Replay(keys, front).prev, l) { FoldIsWitnessed(Replay(keys, front).marks, recorded, l.entry); }
    } else {
      assert AllWitnessed(map[], recorded);
    }
  }

  /** Tampering with one of the two copies neither lowers nor raises the high-water in effect. */
  lemma OneIntactCopySuffices(keys: seq<Key>, c: Copies, recorded: seq<Entry>)
    requires Provenance(keys, c, recorded)
    requires LogIntact(keys, c, recorded) || AnchorIntact(keys, c, recorded)
    ensures Combined(keys, c) == FoldAll(recorded)
  {
    ReplayIsWitnessed(keys, c.log.lines, recorded);
    WitnessedIsAtMost(Replay(keys, c.log.lines).marks, recorded);
    WitnessedIsAtMost(AnchorMarks(keys, c.anchor), recorded);
    hide Replay, FoldAll;
    FoldAllIsSigned(recorded);
    JoinAbsorbs(Replay(keys, c.log.lines).marks, AnchorMarks(keys, c.anchor));
  }

  lemma FoldAllIsSigned(es: seq<Entry>)
    ensures NonNegative(FoldAll(es)) && AllWitnessed(FoldAll(es), es)
  {
    FoldAllSummarises(es);
    WitnessedIsAtMost(FoldAll(es), es);
  }

  lemma FoldGrows(m: Marks, e: Entry)
    ensures AtMost(m, Fold(m, e))
  {}

  lemma FoldAllStep(recorded: seq<Entry>, e: Entry)
    ensures FoldAll(recorded + [e]) == Fold(FoldAll(recorded), e)
    ensures AtMost(FoldAll(recorded), FoldAll(recorded + [e])) && NonNegative(FoldAll(recorded + [e]))
    ensures Fold(FoldAll(recorded + [e]), e) == FoldAll(recorded + [e])
  {
    assert (recorded + [e])[..|recorded|] == recorded;
    FoldGrows(FoldAll(recorded), e);
    FoldTwice(FoldAll(recorded), e);
    FoldAllSummarises(recorded + [e]);
    forall id <- FoldAll(recorded + [e]) ensures 0 <= FoldAll(recorded + [e])[id].generation {
      assert Witnessed(FoldAll(recorded + [e])[id], id, recorded + [e]);
    }
  }

  /** One copy that holds everything in `kept` keeps it in effect, whatever the other one holds. */
  lemma OneKeptCopySuffices(keys: seq<Key>, c: Copies, recorded: seq<Entry>, kept: seq<Entry>)
    requires Provenance(keys, c, recorded)
    requires AtMost(FoldAll(kept), Replay(keys, c.log.lines).marks) || AtMost(FoldAll(kept), AnchorMarks(keys, c.anchor))
    ensures AtMost(FoldAll(kept), Combined(keys, c))
  {
    ReplayNonNegative(keys, c.log.lines);
    WitnessedIsAtMost(AnchorMarks(keys, c.anchor), recorded);
    hide Replay, FoldAll;
    JoinAbsorbs(Replay(keys, c.log.lines).marks, AnchorMarks(keys, c.anchor));
  }

  lemma CombinedIsRecorded(keys: seq<Key>, c: Copies, recorded: seq<Entry>)
    requires Provenance(keys, c, recorded)
    ensures AllWitnessed(Combined(keys, c), recorded)
    ensures AtMost(Combined(keys, c), FoldAll(recorded)) && NonNegative(Combined(keys, c))
    ensures Sane(c)
  {
    ReplayIsWitnessed(keys, c.log.lines, recorded);
    JoinIsWitnessed(Replay(keys, c.log.lines).marks, AnchorMarks(keys, c.anchor), recorded);
    WitnessedIsAtMost(Combined(keys, c), recorded);
    if c.anchor.Signed? && c.anchor.tag.MarksMac? { WitnessedIsAtMost(c.anchor.tag.marks, recorded); }
  }

  lemma CutKeepsProvenance(keys: seq<Key>, c: Copies, recorded: seq<Entry>)
    requires Provenance(keys, c, recorded)
    ensures Provenance(keys, Cut(c), recorded)
  {}

  lemma MoreRecorded(keys: seq<Key>, c: Copies, recorded: seq<Entry>, e: Entry)
    requires Provenance(keys, c, recorded)
    ensures Provenance(keys, c, recorded + [e])
  {
    hide Authentic;
    if c.anchor.Signed? && c.anchor.tag.MarksMac? {
      var m := c.anchor.tag.marks;
      forall id <- m ensures Witnessed(m[id], id, recorded + [e]) { WitnessedLonger(m[id], id, recorded, e); }
    }
  }

  lemma AppendKeepsProvenance(keys: seq<Key>, c: Copies, recorded: seq<Entry>, e: Entry, complete: bool)
    requires keys != [] && Provenance(keys, c, recorded)
    ensures Provenance(keys, Appended(keys, c, e), recorded + [e])
    ensures Provenance(keys, AppendedInPart(keys, c, e, complete), recorded + [e])
  {
    MoreRecorded(keys, c, recorded, e);
    hide FoldAll, Replay, AtMost;
    assert e in recorded + [e];
    assert NewLine(keys, c, e).entry == e && !Authentic(keys, Malformed);
    hide Authentic, NewLine;
  }

  /** What `record` leaves behind is again only its own work. */
  lemma RecordKeepsProvenance(keys: seq<Key>, c: Copies, recorded: seq<Entry>, e: Entry, anchorOk: bool)
    requires keys != [] && Provenance(keys, c, recorded)
    ensures Provenance(keys, AfterRecord(keys, c, e, anchorOk), recorded + [e])
    ensures Provenance(keys, Appended(keys, c, e), recorded + [e])
  {
    AppendKeepsProvenance(keys, c, recorded, e, true);
    CombinedIsRecorded(keys, Appended(keys, c, e), recorded + [e]);
    assert e in recorded + [e];
    FoldIsWitnessed(Combined(keys, Appended(keys, c, e)), recorded + [e], e);
    hide Combined, Fold, AllWitnessed;
  }

  lemma FoldIsMonotone(a: Marks, b: Marks, e: Entry)
    requires AtMost(a, b) && NonNegative(b)
    ensures AtMost(Fold(a, e), Fold(b, e))
  {}

  /** The anchor that `record` writes holds everything in effect. */
  lemma AnchorHoldsTheMarks(keys: seq<Key>, c: Copies, e: Entry)
    requires keys != [] && Sane(c)
    ensures AfterRecord(keys, c, e, true).anchor.marks == Combined(keys, AfterRecord(keys, c, e, true))
  {
    AppendFolds(keys, c, e);
    RecordFoldsExactly(keys, c, e, true);
    FoldTwice(Combined(keys, Cut(c)), e);
  }

  /** Rotation: once an entry is recorded with its anchor under a new first key, dropping every
      older key keeps the whole high-water, whatever the files held, although the chain itself no
      longer verifies. */
  lemma RotationKeepsHighWater(keys: seq<Key>, c: Copies, e: Entry)
    requires keys != [] && Sane(c)
    ensures var c' := AfterRecord(keys, c, e, true); AtMost(Combined(keys, c'), Combined([keys[0]], c'))
  {
    var c' := AfterRecord(keys, c, e, true);
    hide Replay, AfterRecord, Appended, Cut, Tight, AnchorMarks, Join, Fold, NonNegative, AtMost;
    RecordFoldsExactly(keys, c, e, true);
    AppendFolds(keys, c, e);
    FoldKeepsSigns(Combined(keys, Cut(c)), e);
    ReplayNonNegative([keys[0]], c'.log.lines);
    WrittenAnchorReads(keys, c, e);
    JoinIsAbove(Replay([keys[0]], c'.log.lines).marks, Combined(keys, c'));
  }

  lemma WrittenAnchorReads(keys: seq<Key>, c: Copies, e: Entry)
    requires keys != [] && Sane(c)
    ensures var c' := AfterRecord(keys, c, e, true); AnchorMarks([keys[0]], c'.anchor) == Combined(keys, c')
  {
    AnchorHoldsTheMarks(keys, c, e);
    hide Combined, Appended;
  }

  lemma JoinIsAbove(a: Marks, b: Marks)
    requires NonNegative(a) && NonNegative(b)
    ensures AtMost(b, Join(a, b))
  {}

  /** And where everything recorded was in effect, it is in effect after the rotation, and nothing else. */
  lemma RotationIsExact(keys: seq<Key>, c: Copies, recorded: seq<Entry>, e: Entry)
    requires keys != [] && Provenance(keys, c, recorded)
    requires Combined(keys, Cut(c)) == FoldAll(recorded)
    ensures var c' := AfterRecord(keys, c, e, true);
            Combined([keys[0]], c') == Combined(keys, c') == FoldAll(recorded + [e])
  {
    var c' := AfterRecord(keys, c, e, true);
    RecordKeepsProvenance(keys, c, recorded, e, true);
    CombinedIsRecorded(keys, c, recorded);
    RecordFoldsExactly(keys, c, e, true);
    AnchorHoldsTheMarks(keys, c, e);
    FoldAllStep(recorded, e);
    FewerKeysSameWork(keys, c', recorded + [e]);
    hide Combined, Replay, FoldAll, Provenance, Cut, Appended;
    OneIntactCopySuffices([keys[0]], c', recorded + [e]);
  }

  lemma FewerKeysSameWork(keys: seq<Key>, c: Copies, recorded: seq<Entry>)
    requires keys != [] && Provenance(keys, c, recorded)
    ensures Provenance([keys[0]], c, recorded)
  {
    hide AllWitnessed;
    forall l <- c.log.lines | Authentic([keys[0]], l) ensures l.entry in recorded {
      assert Authentic(keys, l);
    }
  }

  /** After that rotation the log alone says nothing: its chain starts under a dropped key. */
  lemma {:induction false} DroppedKeySilencesTheChain(dropped: Key, kept: Key, chain: seq<Line>, n: nat)
    requires dropped != kept && chain != [] && n <= |chain|
    requires Linear([kept, dropped], chain) && chain[0].Parsed? && chain[0].tag.Chain? && chain[0].tag.key == dropped
    ensures Replay([kept], chain[..n]) == Replayed(map[], Root)
  {
    if n > 0 {
      DroppedKeySilencesTheChain(dropped, kept, chain, n - 1);
      assert chain[..n][..n - 1] == chain[..n - 1];
      assert LinkedAt([kept, dropped], chain, n - 1);
      if n > 1 { assert LinkedAt([kept, dropped], chain, n - 2); }
      assert !Verifies([kept], Root, chain[n - 1]);
    }
  }

  // ---------------------------------------------------------------- the store itself

  datatype Reading<+T> = Read(value: T) | Unavailable

  class TombstoneStore {
    const keys: seq<Key>
    var log: Log
    var anchor: AnchorFile

    function Files(): Copies
      reads this
    {
      Copies(log, anchor)
    }

    constructor (keys: seq<Key>, log: Log, anchor: AnchorFile)
      ensures this.keys == keys && Files() == Copies(log, anchor)
    {
      this.keys := keys;
      this.log := log;
      this.anchor := anchor;
    }

    method ReplayLog() returns (r: Reading<Replayed>)
      ensures r == if log.readable then Read(Replay(keys, log.lines)) else Unavailable
    {
      if !log.readable { return Unavailable; }
      var marks: Marks, prev := map[], Root;
      for i := 0 to |log.lines|
        invariant Replayed(marks, prev) == Replay(keys, log.lines[..i])
      {
        var line := log.lines[i];
        assert log.lines[..i + 1] == log.lines[..i] + [line];
        ReplayAppend(keys, log.lines[..i], line);
        if !line.Parsed? { continue; }
        if !Verifies(keys, prev, line) { continue; }
        prev := line.tag;
        marks := Fold(marks, line.entry);
      }
      assert log.lines[..|log.lines|] == log.lines;
      r := Read(Replayed(marks, prev));
    }

    method ReadSignedAnchor() returns (marks: Marks)
      ensures marks == AnchorMarks(keys, anchor)
    {
      marks := map[];
      if anchor.Signed? {
        for i := 0 to |keys|
          invariant marks == AnchorMarks(keys[..i], anchor)
        {
          assert keys[..i + 1] == keys[..i] + [keys[i]];
          if anchor.tag == MarksMac(keys[i], anchor.marks) { marks := anchor.marks; }
        }
        assert keys[..|keys|] == keys;
      }
    }

    /** Folds the anchor's entries into the log's, in whatever order the dictionary gives them. */
    method ReplayBoth() returns (r: Reading<Replayed>)
      ensures r == if log.readable then Read(Replayed(Combined(keys, Files()), Replay(keys, log.lines).prev)) else Unavailable
    {
      r := ReplayLog();
      if r.Unavailable? { return; }
      var start := r.value.marks;
      var marks := start;
      var extra := ReadSignedAnchor();
      var todo := extra.Keys;
      while todo != {}
        invariant todo <= extra.Keys
        invariant marks.Keys == start.Keys + (extra.Keys - todo)
        invariant forall id <- marks :: marks[id] == if id in extra && id !in todo then Join(start, extra)[id] else start[id]
      {
        var id :| id in todo;
        marks := Fold(marks, Entry(id, extra[id].generation, extra[id].reason));
        todo := todo - {id};
        ReplayNonNegative(keys, log.lines);
      }
      assert marks == Join(start, extra);
      r := Read(r.value.(marks := marks));
    }

    method BlockedReason(id: JarId, generation: int) returns (why: Option<Block>)
      ensures why == Blocked(keys, Files(), id, generation)
    {
      var r := ReplayBoth();
      if r.Unavailable? { return Some(StateUnavailable); }
      if id !in r.value.marks { return None; }
      if r.value.marks[id].reason.Deleted? { return Some(ByDelete); }
      why := if generation <= r.value.marks[id].generation then Some(ByInvalidation) else None;
    }

    method Deletion(id: JarId) returns (deleted: bool)
      ensures deleted == IsDeleted(keys, Files(), id)
    {
      var r := ReplayBoth();
      deleted := r.Unavailable? || (id in r.value.marks && r.value.marks[id].reason.Deleted?);
    }

    method Mark(id: JarId) returns (generation: int)
      ensures generation == HighWater(keys, Files(), id)
    {
      var r := ReplayBoth();
      if r.Unavailable? { return MAX_GENERATION; }
      generation := if id in r.value.marks then r.value.marks[id].generation else 0;
    }

    /** Appends one chained line, then re-signs the anchor as far as that succeeds. `stop` is a process
        that ends inside the append or between the two. */
    method Record(id: JarId, generation: int, reason: Reason, anchorOk: bool, stop: RecordStop) returns (ok: bool)
      requires keys != []
      modifies this
      ensures ok == (old(log.readable) && stop.NoStop?)
      ensures Files() == if !old(log.readable) then old(Files())
                         else Recorded(keys, old(Files()), Entry(id, generation, reason), anchorOk, stop)
    {
      var e := Entry(id, generation, reason);
      var r := ReplayLog();
      if r.Unavailable? { return false; }
      var line := Parsed(e, Chain(keys[0], r.value.prev, e));
      if stop.InAppend? {
        var own := !log.torn || log.lines == [];
        var front := if own then log.lines else log.lines[..|log.lines| - 1];
        log := Log(front + [if own && stop.complete then line else Malformed], true, log.readable);
        return false;
      }
      log := Append(log, line);
      if stop.AfterAppend? { return false; }
      var both := ReplayBoth();
      var marks := Fold(both.value.marks, e);
      if anchorOk { anchor := Signed(marks, MarksMac(keys[0], marks)); }
      ok := true;
    }
  }
}
