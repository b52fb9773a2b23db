/** Whole runs over one shared directory: any processes saving, refreshing, revoking and probing in any
    order, each operation cut short anywhere, between them an environment that rewrites jar files and
    one revocation copy at will but cannot forge a seal or a MAC. */
module JarRuns {
  import opened Tombstones
  import opened CookieScope
  import opened JarEnvelope
  import opened JarStore

  // ---------------------------------------------------------------- steps

  datatype Step =
    | DoSave(jarId: Option<JarId>, freshId: JarId, a: SaveArgs, stop: Stop, anchorOk: bool)
    | DoInvalidate(id: JarId, luck: Luck)
    | DoDelete(id: JarId, luck: Luck)
    | DoTouch(id: JarId, auditOk: bool)
    | DoReserve(id: JarId, generation: int)
    | DoRecordProbe(id: JarId, result: ProbeResult, expected: Option<int>)
    | Tamper(files: map<JarId, JarFile>, copies: Copies)

  /** What happened so far: the entries that `record` began to write and those among them that no later
      append can destroy, the seals that were ever on disk, and per id the number of successful saves,
      the time of its creation or latest human save, its first scope. */
  datatype History = History(
    recorded: seq<Entry>, durable: seq<Entry>, blobs: set<Blob>, saves: map<JarId, nat>, human: map<JarId, int>,
    scope: map<JarId, Scope>)

  datatype World = World(disk: Disk, hist: History, now: int)

  function Perform(c: Config, d: Disk, s: Step, now: int): Disk {
    match s
    case DoSave(jarId, freshId, a, stop, anchorOk) => Save(c, d, jarId, freshId, a, now, stop, anchorOk).0
    case DoInvalidate(id, l) => Invalidate(c, d, id, now, l).0
    case DoDelete(id, l) => Delete(c, d, id, now, l).0
    case DoTouch(id, auditOk) => Touch(d, id, now, auditOk)
    case DoReserve(id, generation) => ReserveProbe(c, d, id, generation, now).0
    case DoRecordProbe(id, result, expected) => RecordProbe(c, d, id, result, expected, now).0
    case Tamper(files, copies) => d.(files := files, copies := copies)
  }

  function SaveResult(c: Config, d: Disk, s: Step, now: int): Result<Meta>
    requires s.DoSave?
  {
    Save(c, d, s.jarId, s.freshId, s.a, now, s.stop, s.anchorOk).1
  }

  /** The tombstone a step begins to append to the log, if it gets that far. */
  function EntryOf(c: Config, d: Disk, s: Step, now: int): Option<Entry> {
    match s
    case DoSave(jarId, freshId, a, stop, anchorOk) =>
      if c.keys == [] || a.rawSize > c.maxBytes || jarId.None? || stop.AtAudit? || stop.BeforeAppend? then None
      else
        var t := Target(c, d, jarId, a);
        if t.Err? || t.value.None? || NewVersion(c, d, t.value, jarId.value, a, now).Err? then None
        else Some(Entry(jarId.value, t.value.value.generation, Invalidated))
    case DoInvalidate(id, l) =>
      if c.keys == [] || !d.copies.log.readable then None
      else Some(Entry(id, if Verified(c, d, id).Ok? then Verified(c, d, id).value.meta.generation else MAX_GENERATION, Invalidated))
    case DoDelete(id, l) =>
      if c.keys == [] || !d.copies.log.readable then None
      else Some(Entry(id, if ReadMeta(d, id).Ok? then ReadMeta(d, id).value.generation else MAX_GENERATION, Deleted))
    case _ => None
  }

  function SealsOnDisk(files: map<JarId, JarFile>): set<Blob> {
    set id | id in files && files[id].Record? && files[id].blob.Sealed? :: files[id].blob
  }

  function NextHistory(c: Config, w: World, s: Step, now: int): History {
    var d' := Perform(c, w.disk, s, now);
    var e := EntryOf(c, w.disk, s, now);
    var h := w.hist.(
      recorded := w.hist.recorded + (if e.Some? then [e.value] else []),
      durable := w.hist.durable + (if e.Some? && Durable(w.disk.copies, LuckOf(s).anchorOk, LuckOf(s).stop) then [e.value] else []),
      blobs := w.hist.blobs + SealsOnDisk(d'.files));
    if s.DoSave? && SaveResult(c, w.disk, s, now).Ok? then
      var m := SaveResult(c, w.disk, s, now).value;
      var known := m.jarId in h.saves;
      h.(saves := h.saves[m.jarId := (if known then h.saves[m.jarId] else 0) + 1],
         human := if s.jarId.None? || s.a.savedBy.Human? then h.human[m.jarId := now] else h.human,
         scope := if s.jarId.None? then h.scope[m.jarId := Scope(m.origins, m.allowlist, m.mode)] else h.scope)
    else h
  }

  /** One of the copies holds everything durable. */
  ghost predicate OneCopyKept(c: Config, copies: Copies, durable: seq<Entry>) {
    || AtMost(FoldAll(durable), Replay(c.keys, Cut(copies).log.lines).marks)
    || AtMost(FoldAll(durable), AnchorMarks(c.keys, copies.anchor))
  }

  /** What the world allows: a fresh id is one never used, and tampering neither forges a seal or a MAC
      nor takes from both revocation copies what is durable. It may leave the log torn. */
  ghost predicate Allowed(c: Config, w: World, s: Step) {
    match s
    case DoSave(jarId, freshId, _, _, _) =>
      jarId.None? ==> freshId !in w.hist.saves && freshId !in w.disk.files && forall e <- w.hist.recorded :: e.jarId != freshId
    case Tamper(files, copies) =>
      && SealsOnDisk(files) <= w.hist.blobs
      && Provenance(c.keys, copies, w.hist.recorded)
      && (|| OneCopyKept(c, copies, w.hist.durable)
          || copies.(log := copies.log.(readable := w.disk.copies.log.readable)) == w.disk.copies)
    case _ => true
  }

  ghost predicate Next(c: Config, w: World, s: Step, w': World) {
    && Allowed(c, w, s)
    && w.now <= w'.now
    && w'.disk == Perform(c, w.disk, s, w'.now)
    && w'.hist == NextHistory(c, w, s, w'.now)
  }

  ghost predicate Init(w: World) {
    && w.disk == Disk(map[], Copies(Log([], false, true), Unusable), [])
    && w.hist == History([], [], {}, map[], map[], map[])
  }

  /** A run: `steps[i]` leads from `ws[i]` to `ws[i + 1]`. */
  ghost predicate Run(c: Config, ws: seq<World>, steps: seq<Step>) {
    && |ws| == |steps| + 1
    && Init(ws[0])
    && forall i | 0 <= i < |steps| :: Next(c, ws[i], steps[i], ws[i + 1])
  }

  /** Nothing is put back between `i` and `j`. */
  ghost predicate Untampered(steps: seq<Step>, i: nat, j: nat) { forall k | i <= k < j && k < |steps| :: !steps[k].Tamper? }

  // ---------------------------------------------------------------- the invariant

  predicate Audited(audit: seq<AuditEntry>, id: JarId, generation: int) {
    AuditEntry(Saved, id, generation) in audit || AuditEntry(Refreshed, id, generation) in audit
  }

  ghost predicate BoundOk(h: History, audit: seq<AuditEntry>, b: Bound) {
    && b.jarId in h.saves && b.jarId in h.human && b.jarId in h.scope
    && 1 <= b.generation <= h.saves[b.jarId]
    && b.ttlAnchor.Some? && b.ttlAnchor.value <= h.human[b.jarId]
    && (forall o <- b.origins :: o in h.scope[b.jarId].origins)
    && (forall o <- b.allowlist :: o in h.scope[b.jarId].allowlist)
    && NoWider(b.mode, h.scope[b.jarId].mode)
    && Audited(audit, b.jarId, b.generation)
  }

  /** What is sealed stays inside the scope it is sealed with, and the flag for session cookies is true
      exactly if there is one. */
  ghost predicate HoldsOk(b: Blob) {
    && b.Sealed?
    && Contained(b.payload.state, (set o | o in b.bound.origins), b.bound.mode)
    && (b.bound.containsSession <==> exists k <- b.payload.state.cookies :: IsSession(k))
  }

  ghost predicate BlobOk(h: History, audit: seq<AuditEntry>, b: Blob) { HoldsOk(b) && BoundOk(h, audit, b.bound) }

  ghost predicate EntryOk(h: History, e: Entry) {
    e.reason.Invalidated? ==> e.generation == MAX_GENERATION || (e.jarId in h.saves && e.generation <= h.saves[e.jarId])
  }

  /** The copies hold at most what was recorded and, without a torn last line, at least what is durable. */
  ghost predicate CopiesOk(c: Config, w: World) {
    && Provenance(c.keys, w.disk.copies, w.hist.recorded)
    && AtMost(FoldAll(w.hist.durable), Combined(c.keys, Cut(w.disk.copies)))
    && (forall e <- w.hist.durable :: e in w.hist.recorded)
  }

  ghost predicate Inv(c: Config, w: World) {
    && CopiesOk(c, w)
    && SealsOnDisk(w.disk.files) <= w.hist.blobs
    && (forall b <- w.hist.blobs :: BlobOk(w.hist, w.disk.audit, b))
    && (forall e <- w.hist.recorded :: EntryOk(w.hist, e))
    && w.hist.saves.Keys == w.hist.human.Keys == w.hist.scope.Keys
    && (forall id <- w.hist.human :: w.hist.human[id] <= w.now)
  }

  function CopiesAfter(c: Config, copies: Copies, e: Option<Entry>, l: Luck): Copies
    requires e.Some? ==> c.keys != []
  {
    if e.None? then copies else RecordOrStop(c, copies, e.value, l)
  }

  /** How the recording part of a step goes. */
  function LuckOf(s: Step): Luck {
    match s
    case DoSave(_, _, _, stop, anchorOk) => Luck(RecordStopOf(stop), anchorOk, true, true)
    case DoInvalidate(_, l) => l
    case DoDelete(_, l) => l
    case _ => Luck(NoStop, true, true, true)
  }

  lemma SaveOnCopies(c: Config, d: Disk, s: Step, now: int)
    requires s.DoSave?
    ensures var e := EntryOf(c, d, s, now);
            (e.Some? ==> c.keys != []) && Perform(c, d, s, now).copies == CopiesAfter(c, d.copies, e, LuckOf(s))
  {
    hide Target, NewVersion, Recorded;
  }

  lemma InvalidateOnCopies(c: Config, d: Disk, s: Step, now: int)
    requires s.DoInvalidate?
    ensures var e := EntryOf(c, d, s, now);
            (e.Some? ==> c.keys != []) && Perform(c, d, s, now).copies == CopiesAfter(c, d.copies, e, LuckOf(s))
  {
    hide Recorded, NormalizeLabel;
  }

  lemma DeleteOnCopies(c: Config, d: Disk, s: Step, now: int)
    requires s.DoDelete?
    ensures var e := EntryOf(c, d, s, now);
            (e.Some? ==> c.keys != []) && Perform(c, d, s, now).copies == CopiesAfter(c, d.copies, e, LuckOf(s))
  {
    hide Recorded, NormalizeLabel;
  }

  /** A step changes the revocation copies by exactly the entry it records. */
  lemma StepOnCopies(c: Config, d: Disk, s: Step, now: int)
    requires !s.Tamper?
    ensures var e := EntryOf(c, d, s, now);
            (e.Some? ==> c.keys != []) && Perform(c, d, s, now).copies == CopiesAfter(c, d.copies, e, LuckOf(s))
  {
    hide Save, Invalidate, Delete, RecordOrStop, ReadMeta, Verified, Target, NewVersion;
    match s {
      case DoSave(_, _, _, _, _) => SaveOnCopies(c, d, s, now);
      case DoInvalidate(_, _) => InvalidateOnCopies(c, d, s, now);
      case DoDelete(_, _) => DeleteOnCopies(c, d, s, now);
      case _ =>
    }
  }

  lemma TamperingKeepsCopies(c: Config, w: World, s: Step, w': World)
    requires CopiesOk(c, w) && Next(c, w, s, w') && s.Tamper?
    ensures CopiesOk(c, w')
  {
    hide Replay, SealsOnDisk, FoldAll;
    assert w'.hist.recorded == w.hist.recorded && w'.hist.durable == w.hist.durable;
    CutKeepsProvenance(c.keys, s.copies, w.hist.recorded);
    if OneCopyKept(c, s.copies, w.hist.durable) {
      OneKeptCopySuffices(c.keys, Cut(s.copies), w.hist.recorded, w.hist.durable);
    } else {
      assert s.copies.log.lines == w.disk.copies.log.lines && s.copies.anchor == w.disk.copies.anchor;
      assert Cut(s.copies).log.lines == Cut(w.disk.copies).log.lines;
    }
  }

  /** What one record makes of the copies' marks without a torn last line. */
  lemma RecordedMarks(keys: seq<Key>, copies: Copies, recorded: seq<Entry>, e: Entry, l: Luck)
    requires keys != [] && Provenance(keys, copies, recorded)
    ensures var after := Recorded(keys, copies, e, l.anchorOk, l.stop);
      && Provenance(keys, after, recorded + [e])
      && Combined(keys, Cut(after)) ==
         (if Durable(copies, l.anchorOk, l.stop) then Fold(Combined(keys, Cut(copies)), e) else Combined(keys, Cut(copies)))
      && after.log.readable == copies.log.readable
  {
    hide Replay, FoldAll, Combined, Fold;
    match l.stop {
      case NoStop =>
        RecordKeepsProvenance(keys, copies, recorded, e, l.anchorOk);
        RecordFoldsExactly(keys, copies, e, l.anchorOk);
        TightReads(keys, AfterRecord(keys, copies, e, l.anchorOk));
      case InAppend(complete) =>
        AppendKeepsProvenance(keys, copies, recorded, e, complete);
        PartialAppend(keys, copies, e, complete);
      case AfterAppend =>
        RecordKeepsProvenance(keys, copies, recorded, e, true);
        RecordFoldsExactly(keys, copies, e, true);
        TightReads(keys, Appended(keys, copies, e));
    }
  }

  lemma RecordingKeepsCopies(c: Config, w: World, e: Entry, l: Luck, w': World)
    requires CopiesOk(c, w) && c.keys != []
    requires w'.disk.copies == Recorded(c.keys, w.disk.copies, e, l.anchorOk, l.stop)
    requires w'.hist.recorded == w.hist.recorded + [e]
    requires w'.hist.durable == w.hist.durable + (if Durable(w.disk.copies, l.anchorOk, l.stop) then [e] else [])
    ensures CopiesOk(c, w')
  {
    RecordedMarks(c.keys, w.disk.copies, w.hist.recorded, e, l);
    CutKeepsProvenance(c.keys, w.disk.copies, w.hist.recorded);
    CombinedIsRecorded(c.keys, Cut(w.disk.copies), w.hist.recorded);
    FoldAllStep(w.hist.durable, e);
    FoldIsMonotone(FoldAll(w.hist.durable), Combined(c.keys, Cut(w.disk.copies)), e);
    hide Replay, FoldAll, Combined, Fold, Recorded, Provenance, AtMost, Cut, Durable;
    assert w.hist.durable + [] == w.hist.durable;
  }

  lemma StepKeepsCopies(c: Config, w: World, s: Step, w': World)
    requires CopiesOk(c, w) && Next(c, w, s, w')
    ensures CopiesOk(c, w')
  {
    hide Perform, EntryOf, Recorded, Combined, Provenance, FoldAll, SealsOnDisk, Durable, Cut;
    if s.Tamper? {
      TamperingKeepsCopies(c, w, s, w');
    } else {
      var e := EntryOf(c, w.disk, s, w'.now);
      StepOnCopies(c, w.disk, s, w'.now);
      HistoryOfEntry(c, w, s, w'.now);
      if e.Some? {
        RecordingKeepsCopies(c, w, e.value, LuckOf(s), w');
      } else {
        assert w'.hist.recorded == w.hist.recorded && w'.hist.durable == w.hist.durable;
      }
    }
  }

  lemma HistoryOfEntry(c: Config, w: World, s: Step, now: int)
    ensures var h, e := NextHistory(c, w, s, now), EntryOf(c, w.disk, s, now);
      && h.recorded == w.hist.recorded + (if e.Some? then [e.value] else [])
      && h.durable == w.hist.durable + (if e.Some? && Durable(w.disk.copies, LuckOf(s).anchorOk, LuckOf(s).stop) then [e.value] else [])
  {
    hide Perform, EntryOf, Save, SealsOnDisk, Durable;
  }

  /** Histories only grow. */
  ghost predicate Grows(w: World, w': World) {
    && w.hist.recorded <= w'.hist.recorded && w.hist.durable <= w'.hist.durable
    && w.disk.audit <= w'.disk.audit
    && w.hist.blobs <= w'.hist.blobs
    && (forall id <- w.hist.saves :: id in w'.hist.saves && w.hist.saves[id] <= w'.hist.saves[id])
    && (forall id <- w.hist.human :: id in w'.hist.human && w.hist.human[id] <= w'.hist.human[id])
    && (forall id <- w.hist.scope :: id in w'.hist.scope && w.hist.scope[id] == w'.hist.scope[id])
  }

  lemma AuditOnlyGrows(c: Config, d: Disk, s: Step, now: int)
    ensures d.audit <= Perform(c, d, s, now).audit
  {}

  lemma StepGrows(c: Config, w: World, s: Step, w': World)
    requires Inv(c, w) && Next(c, w, s, w')
    ensures Grows(w, w')
  {
    hide Invalidate, Delete, Touch, ReserveProbe, RecordProbe, EntryOf, Save, CopiesOk, BoundOk;
    AuditOnlyGrows(c, w.disk, s, w'.now);
    var h, h' := w.hist, w'.hist;
    assert h.recorded <= h'.recorded && h.blobs <= h'.blobs;
    if s.DoSave? && SaveResult(c, w.disk, s, w'.now).Ok? {
      SavedIdIsKnown(c, w, s, w'.now);
    } else {
      assert h'.saves == h.saves && h'.human == h.human && h'.scope == h.scope;
    }
  }

  /** What a successful save puts on disk: the metadata, sealed with the filtered state. */
  lemma SavedMeta(c: Config, d: Disk, s: Step, now: int)
    requires s.DoSave? && SaveResult(c, d, s, now).Ok?
    ensures var m := SaveResult(c, d, s, now).value;
            var id := if s.jarId.Some? then s.jarId.value else s.freshId;
            var d' := Perform(c, d, s, now);
      && c.keys != [] && s.a.probe.Some? && s.stop.Never?
      && m.jarId == id && m.title == NormalizeLabel(s.a.title) && Plain(m.title)
      && Target(c, d, s.jarId, s.a).Ok?
      && var existing := Target(c, d, s.jarId, s.a).value;
      && existing.Some? == s.jarId.Some?
      && ResolvedScope(existing, s.a).Resolved?
      && Scope(m.origins, m.allowlist, m.mode) == ResolvedScope(existing, s.a).scope
      && m.generation == NewGeneration(existing, HighWater(c.keys, d.copies, id))
      && m.ttlAnchor == Some(NewAnchor(existing, s.a.savedBy, now))
      && m.version == (if existing.Some? then existing.value.version + 1 else 1)
      && m.invalidatedAt.None? && m.lastProbeAt.None? && m.lastProbeResult.None?
      && m.savedBy == s.a.savedBy && m.updatedAt == now
      && m.createdAt == (if existing.Some? then existing.value.createdAt else now)
      && m.lastLoadedAt == (if existing.Some? then existing.value.lastLoadedAt else None)
      && m.owner == (if s.a.owner.Some? then s.a.owner else if existing.Some? then existing.value.owner else None)
      && m.stats == StatsOf(Filtered(s.a.raw, m.origins, m.mode))
      && m.containsSession == StatsOf(Filtered(s.a.raw, m.origins, m.mode)).containsSession
      && d'.files == d.files[id := Seal(c.keys[0], m, Payload(Filtered(s.a.raw, m.origins, m.mode), s.a.probe.value))]
      && d'.audit == d.audit + [AuditEntry(if existing.Some? then Refreshed else Saved, id, m.generation)]
  {
    NormalizedIsPlain(s.a.title);
  }

  /** What the reader sees is what was sealed, up to the order of the origin lists. */
  lemma OpenedWasSealed(c: Config, w: World, id: JarId)
    requires SealsOnDisk(w.disk.files) <= w.hist.blobs
    requires Verified(c, w.disk, id).Ok?
    ensures var f := w.disk.files[id];
      && id in w.disk.files && f.Record? && f.blob in w.hist.blobs && f.blob.Sealed?
      && f.blob.bound == BoundOf(Verified(c, w.disk, id).value.meta, f.keyId)
      && Verified(c, w.disk, id).value.meta.jarId == id
  {
    assert w.disk.files[id].blob in SealsOnDisk(w.disk.files);
  }

  lemma SavedIdIsKnown(c: Config, w: World, s: Step, now: int)
    requires Inv(c, w) && s.DoSave? && SaveResult(c, w.disk, s, now).Ok?
    ensures var m := SaveResult(c, w.disk, s, now).value;
            if s.jarId.Some? then m.jarId == s.jarId.value && m.jarId in w.hist.saves else m.jarId == s.freshId
  {
    SavedMeta(c, w.disk, s, now);
    if s.jarId.Some? {
      OpenedWasSealed(c, w, s.jarId.value);
      assert BoundOk(w.hist, w.disk.audit, w.disk.files[s.jarId.value].blob.bound);
    }
  }

  /** The two seals hold the same payload over the same identity, scope and retention. */
  ghost predicate SameContents(x: Blob, y: Blob) {
    x.Sealed? && y.Sealed? && x.payload == y.payload && var a, b := x.bound, y.bound;
      && a.jarId == b.jarId && a.generation == b.generation && a.ttlAnchor == b.ttlAnchor
      && a.origins == b.origins && a.allowlist == b.allowlist && a.mode == b.mode && a.containsSession == b.containsSession
  }

  /** `files` is `d.files` but for one file that is gone, keeps its seal, or is re-sealed with what it
      held, over the same identity, scope and retention. */
  ghost predicate MildChange(c: Config, d: Disk, files: map<JarId, JarFile>, id: JarId) {
    || files == d.files
    || files == d.files - {id}
    || (id in d.files && d.files[id].Record? && id in files && files == d.files[id := files[id]] && files[id].Record?
        && (files[id].blob == d.files[id].blob || (Verified(c, d, id).Ok? && SameContents(files[id].blob, d.files[id].blob))))
  }

  lemma InvalidateIsMild(c: Config, d: Disk, id: JarId, now: int, l: Luck)
    ensures MildChange(c, d, Invalidate(c, d, id, now, l).0.files, id)
  {
    hide RecordOrStop, NormalizeLabel;
  }

  lemma DeleteIsMild(c: Config, d: Disk, id: JarId, now: int, l: Luck)
    ensures MildChange(c, d, Delete(c, d, id, now, l).0.files, id)
  {
    hide RecordOrStop, NormalizeLabel;
  }

  lemma TouchIsMild(c: Config, d: Disk, id: JarId, now: int, auditOk: bool)
    ensures MildChange(c, d, Touch(d, id, now, auditOk).files, id)
  {
    hide NormalizeLabel;
  }

  lemma ProbeIsMild(c: Config, d: Disk, id: JarId, now: int, g: int, r: ProbeResult, e: Option<int>)
    ensures MildChange(c, d, ReserveProbe(c, d, id, g, now).0.files, id)
    ensures MildChange(c, d, RecordProbe(c, d, id, r, e, now).0.files, id)
  {
    hide Blocked, NormalizeLabel, ProbeAllowed;
  }

  /** Every step but a save and a tampering leaves only seals that were on disk before or were
      re-made over the same contents. */
  lemma StepReseals(c: Config, d: Disk, s: Step, now: int, b: Blob)
    requires !s.DoSave? && !s.Tamper?
    requires b in SealsOnDisk(Perform(c, d, s, now).files)
    ensures b in SealsOnDisk(d.files) ||
            exists id :: Verified(c, d, id).Ok? && SameContents(b, d.files[id].blob)
  {
    var files := Perform(c, d, s, now).files;
    hide Invalidate, Delete, Touch, ReserveProbe, RecordProbe, MildChange, Verified;
    match s {
      case DoInvalidate(id, l) => InvalidateIsMild(c, d, id, now, l); MildSeals(c, d, files, id, b);
      case DoDelete(id, l) => DeleteIsMild(c, d, id, now, l); MildSeals(c, d, files, id, b);
      case DoTouch(id, ok) => TouchIsMild(c, d, id, now, ok); MildSeals(c, d, files, id, b);
      case DoReserve(id, g) => ProbeIsMild(c, d, id, now, g, Fresh, None); MildSeals(c, d, files, id, b);
      case DoRecordProbe(id, r, e) => ProbeIsMild(c, d, id, now, 0, r, e); MildSeals(c, d, files, id, b);
    }
  }

  lemma MildSeals(c: Config, d: Disk, files: map<JarId, JarFile>, id: JarId, b: Blob)
    requires MildChange(c, d, files, id) && b in SealsOnDisk(files)
    ensures b in SealsOnDisk(d.files) || (Verified(c, d, id).Ok? && SameContents(b, d.files[id].blob))
  {
    var k :| k in files && files[k].Record? && files[k].blob.Sealed? && files[k].blob == b;
    if k in d.files && d.files[k].Record? && d.files[k].blob == b { assert b in SealsOnDisk(d.files); }
  }

  lemma SealsAfterUpdate(files: map<JarId, JarFile>, id: JarId, f: JarFile)
    requires f.Record?
    ensures SealsOnDisk(files[id := f]) <= SealsOnDisk(files) + {f.blob}
  {}

  lemma SaveKeepsBlobs(c: Config, w: World, s: Step, w': World)
    requires Inv(c, w) && Next(c, w, s, w') && s.DoSave? && Grows(w, w')
    requires SaveResult(c, w.disk, s, w'.now).Ok?
    ensures forall b <- w'.hist.blobs :: BlobOk(w'.hist, w'.disk.audit, b)
  {
    hide Save, EntryOf, CopiesOk, BoundOk, Target, NewVersion, Filtered, StatsOf, ResolvedScope, Grows;
    var d, now := w.disk, w'.now;
    SavedMeta(c, d, s, now);
    var m := SaveResult(c, d, s, now).value;
    var id := m.jarId;
    var f := w'.disk.files[id];
    SealsAfterUpdate(d.files, id, f);
    forall b <- w'.hist.blobs ensures BlobOk(w'.hist, w'.disk.audit, b) {
      if b in w.hist.blobs {
        OldBoundStillOk(w, w', b.bound);
      } else {
        assert b == f.blob && b.bound == BoundOf(m, c.keys[0]);
        NewBoundOk(c, w, s, w');
        NewHoldsOk(m, c.keys[0], s.a.raw, s.a.probe.value);
      }
    }
  }

  lemma NewHoldsOk(m: Meta, key: Key, raw: StorageState, probe: Probe)
    requires m.containsSession == StatsOf(Filtered(raw, m.origins, m.mode)).containsSession
    ensures HoldsOk(Sealed(key, Payload(Filtered(raw, m.origins, m.mode), probe), BoundOf(m, key)))
  {
    hide Filtered;
    FilteredIsContained(raw, m.origins, (set o | o in multiset(m.origins)), m.mode);
  }

  lemma OldBoundStillOk(w: World, w': World, b: Bound)
    requires BoundOk(w.hist, w.disk.audit, b) && Grows(w, w')
    ensures BoundOk(w'.hist, w'.disk.audit, b)
  {}

  lemma MarkBelowSaves(c: Config, w: World, id: JarId)
    requires Inv(c, w) && w.disk.copies.log.readable && !IsDeleted(c.keys, w.disk.copies, id)
    requires HighWater(c.keys, w.disk.copies, id) < MAX_GENERATION
    ensures HighWater(c.keys, w.disk.copies, id) <= if id in w.hist.saves then w.hist.saves[id] else 0
  {
    CombinedIsRecorded(c.keys, w.disk.copies, w.hist.recorded);
    var m := Combined(c.keys, w.disk.copies);
    hide Combined, FoldAll;
    if id in m && m[id].generation != 0 {
      assert Witnessed(m[id], id, w.hist.recorded);
      var e :| e in w.hist.recorded && e.jarId == id && e.generation == m[id].generation && (e.reason.Deleted? ==> m[id].reason.Deleted?);
      assert EntryOk(w.hist, e);
    }
  }

  /** A refresh stays inside the first scope, takes over the retention anchor unless a human saves,
      and numbers itself with at most one more than the saves so far. */
  lemma RefreshedBoundOk(c: Config, w: World, s: Step, now: int)
    requires Inv(c, w) && s.DoSave? && s.jarId.Some? && SaveResult(c, w.disk, s, now).Ok?
    ensures var m := SaveResult(c, w.disk, s, now).value;
            var h, id := w.hist, s.jarId.value;
      && m.jarId == id && id in h.saves && id in h.human && id in h.scope
      && 1 <= m.generation <= h.saves[id] + 1
      && m.ttlAnchor.Some? && m.ttlAnchor.value <= (if s.a.savedBy.Human? then now else h.human[id])
      && Narrows(Scope(m.origins, m.allowlist, m.mode), h.scope[id])
  {
    hide Save, CopiesOk, Blocked, HighWater, EntryOk, ResolveRefreshScope, Filtered, StatsOf, Open, Decrypt, NormalizeLabel, IsDeleted;
    var d := w.disk;
    SavedMeta(c, d, s, now);
    var m := SaveResult(c, d, s, now).value;
    var existing := Target(c, d, s.jarId, s.a).value.value;
    OpenedWasSealed(c, w, m.jarId);
    var b := d.files[m.jarId].blob.bound;
    assert BoundOk(w.hist, d.audit, b);
    TargetMark(c, w, m.jarId, s.a);
    RefreshOnlyNarrows(Scope(existing.origins, existing.allowlist, existing.mode), s.a.origins, s.a.nav, s.a.mode);
    assert forall o <- existing.origins :: o in b.origins;
    assert forall o <- existing.allowlist :: o in b.allowlist;
  }

  lemma TargetMark(c: Config, w: World, id: JarId, a: SaveArgs)
    requires Inv(c, w) && Target(c, w.disk, Some(id), a).Ok?
    ensures w.disk.copies.log.readable
    ensures HighWater(c.keys, w.disk.copies, id) <= if id in w.hist.saves then w.hist.saves[id] else 0
  {
    MarkBelowSaves(c, w, id);
  }

  lemma NewBoundOk(c: Config, w: World, s: Step, w': World)
    requires Inv(c, w) && Next(c, w, s, w') && s.DoSave? && SaveResult(c, w.disk, s, w'.now).Ok?
    ensures BoundOk(w'.hist, w'.disk.audit, BoundOf(SaveResult(c, w.disk, s, w'.now).value, c.keys[0]))
  {
    hide Save, Inv, EntryOf, Target, HighWater, Filtered, StatsOf, ResolveRefreshScope, NormalizeLabel, Plain, Seal, Durable, SealsOnDisk;
    SavedMeta(c, w.disk, s, w'.now);
    assert Audited(w'.disk.audit, SaveResult(c, w.disk, s, w'.now).value.jarId, SaveResult(c, w.disk, s, w'.now).value.generation);
    if s.jarId.Some? { RefreshedBoundOk(c, w, s, w'.now); }
    else { FreshIdUnknown(c, w, s); }
  }

  lemma FreshIdUnknown(c: Config, w: World, s: Step)
    requires Inv(c, w) && Allowed(c, w, s) && s.DoSave? && s.jarId.None?
    ensures s.freshId !in w.hist.saves && s.freshId !in w.hist.human && s.freshId !in w.hist.scope
  {}

  lemma ResealedBlobOk(w: World, a: Blob, b: Blob)
    requires BlobOk(w.hist, w.disk.audit, a) && SameContents(b, a)
    ensures BlobOk(w.hist, w.disk.audit, b)
  {}

  lemma ResealKeepsBlobs(c: Config, w: World, s: Step, w': World)
    requires Inv(c, w) && Next(c, w, s, w') && Grows(w, w')
    requires !s.DoSave? || SaveResult(c, w.disk, s, w'.now).Err?
    ensures forall b <- w'.hist.blobs :: BlobOk(w'.hist, w'.disk.audit, b)
  {
    hide Save, Invalidate, Delete, Touch, ReserveProbe, RecordProbe, EntryOf, CopiesOk, BoundOk, Verified, Grows;
    if s.DoSave? || s.Tamper? { assert SealsOnDisk(w'.disk.files) <= w.hist.blobs; }
    forall b <- w'.hist.blobs ensures BlobOk(w'.hist, w'.disk.audit, b) {
      if b in w.hist.blobs {
        OldBoundStillOk(w, w', b.bound);
      } else {
        StepReseals(c, w.disk, s, w'.now, b);
        var k :| Verified(c, w.disk, k).Ok? && SameContents(b, w.disk.files[k].blob);
        OpenedWasSealed(c, w, k);
        OldBoundStillOk(w, w', w.disk.files[k].blob.bound);
        ResealedBlobOk(w', w.disk.files[k].blob, b);
      }
    }
  }

  lemma StepKeepsEntries(c: Config, w: World, s: Step, w': World)
    requires Inv(c, w) && Next(c, w, s, w') && Grows(w, w')
    ensures forall e <- w'.hist.recorded :: EntryOk(w'.hist, e)
  {
    var added := EntryOf(c, w.disk, s, w'.now);
    forall e <- w'.hist.recorded ensures EntryOk(w'.hist, e) {
      if e in w.hist.recorded {
        assert EntryOk(w.hist, e);
      } else {
        assert added == Some(e);
        if e.reason.Invalidated? && e.generation != MAX_GENERATION {
          OpenedWasSealed(c, w, e.jarId);
          assert BoundOk(w.hist, w.disk.audit, w.disk.files[e.jarId].blob.bound);
        }
      }
    }
  }

  lemma StepKeepsInv(c: Config, w: World, s: Step, w': World)
    requires Inv(c, w) && Next(c, w, s, w')
    ensures Inv(c, w') && Grows(w, w')
  {
    hide Save, Perform, EntryOf, CopiesOk, BoundOk;
    StepKeepsCopies(c, w, s, w');
    StepGrows(c, w, s, w');
    if s.DoSave? && SaveResult(c, w.disk, s, w'.now).Ok? { SavedIdIsKnown(c, w, s, w'.now); }
    StepKeepsEntries(c, w, s, w');
    if s.DoSave? && SaveResult(c, w.disk, s, w'.now).Ok? {
      SaveKeepsBlobs(c, w, s, w');
    } else {
      ResealKeepsBlobs(c, w, s, w');
    }
  }

  lemma {:induction false} RunKeepsInv(c: Config, ws: seq<World>, steps: seq<Step>, i: nat)
    requires Run(c, ws, steps) && i < |ws|
    ensures Inv(c, ws[i])
  {
    if i == 0 {
      JoinAbsorbs(map[], map[]);
    } else {
      RunKeepsInv(c, ws, steps, i - 1);
      StepKeepsInv(c, ws[i - 1], steps[i - 1], ws[i]);
    }
  }

  lemma {:induction false} RunGrows(c: Config, ws: seq<World>, steps: seq<Step>, i: nat, j: nat)
    requires Run(c, ws, steps) && i <= j < |ws|
    ensures Inv(c, ws[j]) && Grows(ws[i], ws[j])
    decreases j - i
  {
    hide Inv, Grows;
    RunKeepsInv(c, ws, steps, j);
    if i == j {
      GrowsReflexively(ws[i]);
    } else {
      RunGrows(c, ws, steps, i, j - 1);
      StepKeepsInv(c, ws[j - 1], steps[j - 1], ws[j]);
      RunKeepsInv(c, ws, steps, i);
      GrowsTransitively(c, ws[i], ws[j - 1], ws[j]);
    }
  }

  lemma GrowsReflexively(w: World)
    ensures Grows(w, w)
  {}

  lemma GrowsTransitively(c: Config, a: World, b: World, w: World)
    requires Inv(c, a) && Grows(a, b) && Grows(b, w)
    ensures Grows(a, w)
  {}
}
