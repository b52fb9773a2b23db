/** Runs in which nobody puts files back, appends cut short included: exact generations, retention
    anchors, shrinking scopes, and what a jar holds. */
module JarCounting {
  import opened Tombstones
  import opened CookieScope
  import opened JarEnvelope
  import opened JarStore
  import opened JarRuns
  import opened JarGuarantees

  ghost predicate Quiet(steps: seq<Step>) { forall s <- steps :: !s.Tamper? }

  predicate Terminal(c: Config, d: Disk, id: JarId) {
    IsDeleted(c.keys, d.copies, id) || HighWater(c.keys, d.copies, id) >= MAX_GENERATION
  }

  /** The mark of `id` is terminal or does not pass `generation`. */
  predicate Bounded(keys: seq<Key>, copies: Copies, id: JarId, generation: int) {
    IsDeleted(keys, copies, id) || HighWater(keys, copies, id) >= MAX_GENERATION || HighWater(keys, copies, id) <= generation
  }

  ghost predicate Counted(c: Config, w: World, id: JarId) {
    var o, copies := Verified(c, w.disk, id), w.disk.copies;
    && o.Ok? && id in w.hist.saves && id in w.hist.human
    && o.value.meta.generation == o.value.meta.version == w.hist.saves[id]
    && o.value.meta.ttlAnchor == Some(w.hist.human[id])
    && Bounded(c.keys, copies, id, o.value.meta.generation) && Bounded(c.keys, Cut(copies), id, o.value.meta.generation)
    && Superseded(w.hist.recorded, id, o.value.meta.generation)
  }

  /** The generation before `generation` was tombstoned. */
  ghost predicate Superseded(recorded: seq<Entry>, id: JarId, generation: int) {
    generation >= 2 ==> Entry(id, generation - 1, Invalidated) in recorded
  }

  ghost predicate AllCounted(c: Config, w: World) {
    w.disk.copies.log.readable && forall id <- w.disk.files :: Counted(c, w, id)
  }

  function ScopeOf(m: Meta): Scope { Scope(m.origins, m.allowlist, m.mode) }

  /** What a step that is no save makes of a file: rewritten at most, with the same generation, version,
      anchor and scope, and it still opens, to the same payload. */
  ghost predicate Kept(c: Config, d: Disk, files: map<JarId, JarFile>, id: JarId) {
    id in files ==>
      var d' := d.(files := files);
      && Verified(c, d, id).Ok? && Verified(c, d', id).Ok?
      && var m, m' := Verified(c, d, id).value.meta, Verified(c, d', id).value.meta;
      && m'.generation == m.generation && m'.version == m.version && m'.ttlAnchor == m.ttlAnchor && ScopeOf(m') == ScopeOf(m)
      && m'.containsSession == m.containsSession && Verified(c, d', id).value.payload == Verified(c, d, id).value.payload
  }

  lemma UntouchedIsKept(c: Config, d: Disk, files: map<JarId, JarFile>, id: JarId)
    requires Verified(c, d, id).Ok? && (id in files ==> files[id] == d.files[id])
    ensures Kept(c, d, files, id)
  {}

  lemma ResealedIsKept(c: Config, d: Disk, files: map<JarId, JarFile>, id: JarId, m: Meta, payload: Payload)
    requires c.keys != [] && Verified(c, d, id).Ok? && m.jarId == id && Plain(m.title)
    requires id in files && files[id] == Seal(c.keys[0], m, payload)
    requires var was := Verified(c, d, id).value.meta;
      m.generation == was.generation && m.version == was.version && m.ttlAnchor == was.ttlAnchor && ScopeOf(m) == ScopeOf(was)
      && m.containsSession == was.containsSession && payload == Verified(c, d, id).value.payload
    ensures Kept(c, d, files, id)
  {
    SealedOpens(c, d.(files := files), m, payload);
  }

  lemma ReadIsPlain(c: Config, d: Disk, id: JarId)
    requires Verified(c, d, id).Ok?
    ensures ReadMeta(d, id) == Ok(Verified(c, d, id).value.meta) && Plain(Verified(c, d, id).value.meta.title)
  {
    NormalizedIsPlain(d.files[id].meta.title);
  }

  lemma InvalidateKeeps(c: Config, d: Disk, id: JarId, now: int, l: Luck, k: JarId)
    requires Verified(c, d, k).Ok?
    ensures Kept(c, d, Invalidate(c, d, id, now, l).0.files, k)
  {
    hide Kept, RecordOrStop, NormalizeLabel;
    var files := Invalidate(c, d, id, now, l).0.files;
    if k !in files || files[k] == d.files[k] {
      UntouchedIsKept(c, d, files, k);
    } else {
      ReadIsPlain(c, d, k);
      var o := Verified(c, d, k).value;
      var m := o.meta.(invalidatedAt := Some(now), updatedAt := now);
      ResealedIsKept(c, d, files, k, m, o.payload);
    }
  }

  lemma TouchKeeps(c: Config, d: Disk, id: JarId, now: int, auditOk: bool, k: JarId)
    requires Verified(c, d, k).Ok?
    ensures Kept(c, d, Touch(d, id, now, auditOk).files, k)
  {
    ReadIsPlain(c, d, k);
    PlainIsUnchanged(Verified(c, d, k).value.meta.title);
    hide NormalizeLabel;
  }

  lemma ProbeKeeps(c: Config, d: Disk, id: JarId, now: int, g: int, r: ProbeResult, e: Option<int>, k: JarId)
    requires Verified(c, d, k).Ok?
    ensures Kept(c, d, ReserveProbe(c, d, id, g, now).0.files, k)
    ensures Kept(c, d, RecordProbe(c, d, id, r, e, now).0.files, k)
  {
    hide Kept, Blocked, NormalizeLabel, ProbeAllowed;
    var files, files' := ReserveProbe(c, d, id, g, now).0.files, RecordProbe(c, d, id, r, e, now).0.files;
    ReadIsPlain(c, d, k);
    var o := Verified(c, d, k).value;
    if files[k] == d.files[k] { UntouchedIsKept(c, d, files, k); }
    else { ResealedIsKept(c, d, files, k, o.meta.(lastProbeAt := Some(now)), o.payload); }
    if files'[k] == d.files[k] { UntouchedIsKept(c, d, files', k); }
    else { ResealedIsKept(c, d, files', k, o.meta.(lastProbeAt := Some(now), lastProbeResult := Some(r)), o.payload); }
  }

  lemma StepKeepsFile(c: Config, d: Disk, s: Step, now: int, k: JarId)
    requires !s.Tamper? && Verified(c, d, k).Ok?
    requires s.DoSave? ==> SaveResult(c, d, s, now).Err?
    ensures Kept(c, d, Perform(c, d, s, now).files, k)
  {
    hide Kept, Save, Invalidate, Touch, ReserveProbe, RecordProbe, Verified;
    match s {
      case DoSave(_, _, _, _, _) => UntouchedIsKept(c, d, d.files, k);
      case DoInvalidate(id, l) => InvalidateKeeps(c, d, id, now, l, k);
      case DoDelete(id, l) => DeleteKeeps(c, d, id, now, l, k);
      case DoTouch(id, ok) => TouchKeeps(c, d, id, now, ok, k);
      case DoReserve(id, g) => ProbeKeeps(c, d, id, now, g, Fresh, None, k);
      case DoRecordProbe(id, r, e) => ProbeKeeps(c, d, id, now, 0, r, e, k);
    }
  }

  lemma DeleteKeeps(c: Config, d: Disk, id: JarId, now: int, l: Luck, k: JarId)
    requires Verified(c, d, k).Ok?
    ensures Kept(c, d, Delete(c, d, id, now, l).0.files, k)
  {
    hide Kept, RecordOrStop, Verified, ReadMeta;
    UntouchedIsKept(c, d, Delete(c, d, id, now, l).0.files, k);
  }

  lemma FilesDecideTheRead(c: Config, d: Disk, d': Disk, id: JarId)
    requires d.files == d'.files
    ensures Verified(c, d, id) == Verified(c, d', id)
  {}

  /** A recorded entry that names `id` at `generation` or below, or deletes it, keeps the mark in bounds. */
  lemma RecordKeepsBounds(keys: seq<Key>, copies: Copies, e: Entry, ok: bool, stop: RecordStop, id: JarId, generation: int)
    requires keys != [] && Sane(copies) && copies.log.readable && generation >= 0
    requires Bounded(keys, Cut(copies), id, generation)
    requires e.jarId == id ==> e.reason.Deleted? || e.generation <= generation
    ensures var after := Recorded(keys, copies, e, ok, stop);
      Bounded(keys, after, id, generation) && Bounded(keys, Cut(after), id, generation)
  {
    RecordedFolds(keys, copies, e, ok, stop);
    CutAfterRecord(keys, copies, e, ok, stop);
    hide Recorded, Combined, Lands, Cut, Durable, Bounded;
    var after := Recorded(keys, copies, e, ok, stop);
    FoldKeepsBounds(keys, Cut(copies), after, e, id, generation);
    FoldKeepsBounds(keys, Cut(copies), Cut(after), e, id, generation);
  }

  lemma FoldKeepsBounds(keys: seq<Key>, before: Copies, after: Copies, e: Entry, id: JarId, generation: int)
    requires Bounded(keys, before, id, generation) && before.log.readable && after.log.readable && generation >= 0
    requires Combined(keys, after) == Fold(Combined(keys, before), e) || Combined(keys, after) == Combined(keys, before)
    requires e.jarId == id ==> e.reason.Deleted? || e.generation <= generation
    ensures Bounded(keys, after, id, generation)
  {
    hide Combined;
  }

  lemma CutAfterRecord(keys: seq<Key>, copies: Copies, e: Entry, ok: bool, stop: RecordStop)
    requires keys != [] && Sane(copies)
    ensures var after := Recorded(keys, copies, e, ok, stop);
      Combined(keys, Cut(after)) == if Durable(copies, ok, stop) then Fold(Combined(keys, Cut(copies)), e) else Combined(keys, Cut(copies))
    ensures Cut(Recorded(keys, copies, e, ok, stop)).log.readable == copies.log.readable
  {
    hide Replay, Combined, Fold;
    RecordFoldsExactly(keys, copies, e, ok);
    match stop {
      case NoStop => TightReads(keys, AfterRecord(keys, copies, e, ok));
      case InAppend(complete) => PartialAppend(keys, copies, e, complete);
      case AfterAppend => TightReads(keys, Appended(keys, copies, e));
    }
  }

  /** How a step changes the copies: not at all, or by recording its entry. */
  lemma CopiesMove(c: Config, w: World, s: Step, w': World)
    requires Inv(c, w) && Next(c, w, s, w') && !s.Tamper?
    ensures Sane(w.disk.copies) && w'.disk.copies.log.readable == w.disk.copies.log.readable
    ensures var e := EntryOf(c, w.disk, s, w'.now);
      && (e.None? ==> w'.disk.copies == w.disk.copies)
      && (e.Some? ==> c.keys != [] && w'.disk.copies == Recorded(c.keys, w.disk.copies, e.value, LuckOf(s).anchorOk, LuckOf(s).stop))
      && w'.hist.recorded == w.hist.recorded + (if e.Some? then [e.value] else [])
    ensures w.hist.recorded <= w'.hist.recorded
  {
    var e := EntryOf(c, w.disk, s, w'.now);
    CombinedIsRecorded(c.keys, w.disk.copies, w.hist.recorded);
    assert w'.disk == Perform(c, w.disk, s, w'.now) && w'.hist == NextHistory(c, w, s, w'.now);
    hide Perform, EntryOf, Recorded, Inv, Allowed, NextHistory, Combined, FoldAll;
    StepOnCopies(c, w.disk, s, w'.now);
    HistoryOfEntry(c, w, s, w'.now);
    if e.Some? { StaysReadable(c.keys, w.disk.copies, e.value, LuckOf(s).anchorOk, LuckOf(s).stop); }
  }

  /** The bounds of an id through a step that leaves its generation or raises it. */
  lemma BoundsMove(c: Config, w: World, s: Step, w': World, id: JarId, generation: int)
    requires Inv(c, w) && Next(c, w, s, w') && !s.Tamper? && w.disk.copies.log.readable && generation >= 0
    requires Bounded(c.keys, w.disk.copies, id, generation) && Bounded(c.keys, Cut(w.disk.copies), id, generation)
    requires var e := EntryOf(c, w.disk, s, w'.now); e.Some? && e.value.jarId == id ==> e.value.reason.Deleted? || e.value.generation <= generation
    ensures Bounded(c.keys, w'.disk.copies, id, generation) && Bounded(c.keys, Cut(w'.disk.copies), id, generation)
  {
    CopiesMove(c, w, s, w');
    hide Inv, Next, Bounded, EntryOf, Recorded, Cut;
    var e := EntryOf(c, w.disk, s, w'.now);
    if e.Some? { RecordKeepsBounds(c.keys, w.disk.copies, e.value, LuckOf(s).anchorOk, LuckOf(s).stop, id, generation); }
  }

  lemma BoundsGrow(keys: seq<Key>, copies: Copies, id: JarId, low: int, high: int)
    requires Bounded(keys, copies, id, low) && low <= high
    ensures Bounded(keys, copies, id, high)
  {}

  /** An entry for an id whose file opens tombstones the generation on disk or is a delete. */
  lemma EntryIsOnDisk(c: Config, d: Disk, s: Step, now: int, id: JarId)
    requires Verified(c, d, id).Ok? && EntryOf(c, d, s, now).Some? && EntryOf(c, d, s, now).value.jarId == id
    ensures EntryOf(c, d, s, now).value.generation == Verified(c, d, id).value.meta.generation
  {
    hide NewVersion, Blocked;
    ReadIsPlain(c, d, id);
  }

  lemma OtherStepsKeepCounts(c: Config, w: World, s: Step, w': World, id: JarId)
    requires Inv(c, w) && AllCounted(c, w) && Next(c, w, s, w') && !s.Tamper? && id in w'.disk.files
    requires s.DoSave? ==> SaveResult(c, w.disk, s, w'.now).Err?
    ensures Counted(c, w', id)
  {
    hide Perform, EntryOf, Save, Inv, Verified, Bounded, Cut, Superseded, Allowed, NextHistory;
    UnsavedHistory(c, w, s, w');
    if id !in w.disk.files { NewFilesAreSaved(c, w.disk, s, w'.now, id); }
    assert Counted(c, w, id);
    StepKeepsFile(c, w.disk, s, w'.now, id);
    FilesDecideTheRead(c, w.disk.(files := w'.disk.files), w'.disk, id);
    CopiesMove(c, w, s, w');
    var e := EntryOf(c, w.disk, s, w'.now);
    if e.Some? && e.value.jarId == id { EntryIsOnDisk(c, w.disk, s, w'.now, id); }
    var g := Verified(c, w.disk, id).value.meta.generation;
    assert g >= 0 by { SavesAreCounted(w, id); }
    BoundsMove(c, w, s, w', id, g);
    SupersededStays(w.hist.recorded, w'.hist.recorded, id, g);
  }

  lemma SavesAreCounted(w: World, id: JarId)
    requires id in w.hist.saves
    ensures w.hist.saves[id] >= 0
  {}

  lemma SupersededStays(recorded: seq<Entry>, more: seq<Entry>, id: JarId, generation: int)
    requires Superseded(recorded, id, generation) && recorded <= more
    ensures Superseded(more, id, generation)
  {}

  lemma UnsavedHistory(c: Config, w: World, s: Step, w': World)
    requires Next(c, w, s, w') && (s.DoSave? ==> SaveResult(c, w.disk, s, w'.now).Err?)
    ensures w'.hist.saves == w.hist.saves && w'.hist.human == w.hist.human
  {
    hide Perform, EntryOf, Save, Allowed, Durable;
  }

  lemma NewFilesAreSaved(c: Config, d: Disk, s: Step, now: int, id: JarId)
    requires !s.Tamper? && id in Perform(c, d, s, now).files && id !in d.files
    ensures s.DoSave? && SaveResult(c, d, s, now).Ok?
  {
    hide Save, Blocked, Verified, RecordOrStop;
  }

  lemma FreshIdHasNoMark(c: Config, w: World, s: Step)
    requires Inv(c, w) && Allowed(c, w, s) && s.DoSave? && s.jarId.None? && w.disk.copies.log.readable
    ensures HighWater(c.keys, w.disk.copies, s.freshId) == 0 && !IsDeleted(c.keys, w.disk.copies, s.freshId)
  {
    CombinedIsRecorded(c.keys, w.disk.copies, w.hist.recorded);
    hide Combined, FoldAll;
    var m := Combined(c.keys, w.disk.copies);
    assert s.freshId in m ==> Witnessed(m[s.freshId], s.freshId, w.hist.recorded);
  }

  lemma SaveCounts(c: Config, w: World, s: Step, w': World, id: JarId)
    requires Inv(c, w) && AllCounted(c, w) && Next(c, w, s, w') && s.DoSave? && id in w'.disk.files
    requires SaveResult(c, w.disk, s, w'.now).Ok?
    ensures Counted(c, w', id)
    ensures id in w.disk.files ==> Narrows(ScopeOf(Verified(c, w'.disk, id).value.meta), ScopeOf(Verified(c, w.disk, id).value.meta))
  {
    assert w'.disk == Perform(c, w.disk, s, w'.now);
    SavedMeta(c, w.disk, s, w'.now);
    var m := SaveResult(c, w.disk, s, w'.now).value;
    if id != m.jarId {
      SavedElsewhere(c, w, s, w', id);
    } else {
      SealedOpens(c, w'.disk, m, Payload(Filtered(s.a.raw, m.origins, m.mode), s.a.probe.value));
      SavedHistory(c, w, s, w');
      if s.jarId.Some? {
        RefreshCounts(c, w, s, w');
      } else {
        NewJarCounts(c, w, s, w');
      }
    }
  }

  lemma SavedHistory(c: Config, w: World, s: Step, w': World)
    requires Next(c, w, s, w') && s.DoSave? && SaveResult(c, w.disk, s, w'.now).Ok?
    ensures var m, h, h' := SaveResult(c, w.disk, s, w'.now).value, w.hist, w'.hist;
      && m.jarId in h'.saves && h'.saves[m.jarId] == (if m.jarId in h.saves then h.saves[m.jarId] else 0) + 1
      && (s.jarId.None? || s.a.savedBy.Human? ==> m.jarId in h'.human && h'.human[m.jarId] == w'.now)
      && (!(s.jarId.None? || s.a.savedBy.Human?) ==> h'.human == h.human)
  {
    hide Perform, EntryOf, Save, Allowed, Durable;
  }

  lemma RefreshCounts(c: Config, w: World, s: Step, w': World)
    requires Inv(c, w) && AllCounted(c, w) && Next(c, w, s, w') && s.DoSave? && s.jarId.Some?
    requires SaveResult(c, w.disk, s, w'.now).Ok?
    requires var m := SaveResult(c, w.disk, s, w'.now).value; Verified(c, w'.disk, m.jarId).Ok? && Verified(c, w'.disk, m.jarId).value.meta == m
    ensures Counted(c, w', s.jarId.value) && s.jarId.value in w.disk.files && Verified(c, w.disk, s.jarId.value).Ok?
    ensures Narrows(ScopeOf(Verified(c, w'.disk, s.jarId.value).value.meta), ScopeOf(Verified(c, w.disk, s.jarId.value).value.meta))
  {
    hide Perform, EntryOf, Save, Inv, Verified, Filtered, Seal, Target, StatsOf, ResolveRefreshScope, Cut, HighWater, IsDeleted, Bounded, Superseded, Allowed, NextHistory, Blocked;
    var id := s.jarId.value;
    SavedMeta(c, w.disk, s, w'.now);
    SavedHistory(c, w, s, w');
    TargetFacts(c, w.disk, id, s.a);
    SavedEntry(c, w.disk, s, w'.now);
    CopiesMove(c, w, s, w');
    assert Counted(c, w, id);
    var was := Verified(c, w.disk, id).value.meta;
    MarkInBounds(c, w, id, was.generation);
    SavesAreCounted(w, id);
    BoundsMove(c, w, s, w', id, was.generation);
    SupersededNow(w.hist.recorded, Entry(id, was.generation, Invalidated));
    BoundsGrow(c.keys, w'.disk.copies, id, was.generation, was.generation + 1);
    BoundsGrow(c.keys, Cut(w'.disk.copies), id, was.generation, was.generation + 1);
    RefreshOnlyNarrows(ScopeOf(was), s.a.origins, s.a.nav, s.a.mode);
  }

  lemma SupersededNow(recorded: seq<Entry>, e: Entry)
    requires e.reason.Invalidated?
    ensures Superseded(recorded + [e], e.jarId, e.generation + 1)
  {
    assert e in recorded + [e];
  }

  lemma MarkInBounds(c: Config, w: World, id: JarId, generation: int)
    requires Bounded(c.keys, w.disk.copies, id, generation)
    requires !IsDeleted(c.keys, w.disk.copies, id) && HighWater(c.keys, w.disk.copies, id) < MAX_GENERATION
    ensures HighWater(c.keys, w.disk.copies, id) <= generation
  {}

  lemma NewJarCounts(c: Config, w: World, s: Step, w': World)
    requires Inv(c, w) && AllCounted(c, w) && Next(c, w, s, w') && s.DoSave? && s.jarId.None?
    requires SaveResult(c, w.disk, s, w'.now).Ok?
    requires var m := SaveResult(c, w.disk, s, w'.now).value; Verified(c, w'.disk, m.jarId).Ok? && Verified(c, w'.disk, m.jarId).value.meta == m
    ensures Counted(c, w', s.freshId) && s.freshId !in w.disk.files
  {
    SavedMeta(c, w.disk, s, w'.now);
    SavedHistory(c, w, s, w');
    FreshIdHasNoMark(c, w, s);
    FreshIdUnknown(c, w, s);
    NewJarRecordsNothing(c, w.disk, s, w'.now);
    CopiesMove(c, w, s, w');
    CutIsAtMost(c.keys, w.disk.copies);
    hide Perform, EntryOf, Save, Inv, Verified, Filtered, Seal, Target, StatsOf, ResolvedScope, Cut, Combined;
  }

  lemma NewJarRecordsNothing(c: Config, d: Disk, s: Step, now: int)
    requires s.DoSave? && s.jarId.None?
    ensures EntryOf(c, d, s, now).None?
  {}

  lemma SavedElsewhere(c: Config, w: World, s: Step, w': World, id: JarId)
    requires Inv(c, w) && AllCounted(c, w) && Next(c, w, s, w') && s.DoSave? && SaveResult(c, w.disk, s, w'.now).Ok?
    requires id in w'.disk.files && id != SaveResult(c, w.disk, s, w'.now).value.jarId
    ensures Counted(c, w', id) && Verified(c, w'.disk, id) == Verified(c, w.disk, id)
  {
    hide Perform, EntryOf, Save, Inv, HighWater, IsDeleted, Filtered, Seal, Target, StatsOf, Open, Bounded, Cut, Superseded, Allowed, NextHistory, ResolvedScope;
    SavedMeta(c, w.disk, s, w'.now);
    assert w'.disk.files[id] == w.disk.files[id] && Counted(c, w, id);
    CopiesMove(c, w, s, w');
    OtherCounts(c, w, s, w', id);
    var e := EntryOf(c, w.disk, s, w'.now);
    if e.Some? { SavedEntryId(c, w.disk, s, w'.now); SavedIsRequested(c, w.disk, s, w'.now); }
    var g := Verified(c, w.disk, id).value.meta.generation;
    SavesAreCounted(w, id);
    BoundsMove(c, w, s, w', id, g);
    SupersededStays(w.hist.recorded, w'.hist.recorded, id, g);
  }

  lemma OtherCounts(c: Config, w: World, s: Step, w': World, id: JarId)
    requires Next(c, w, s, w') && s.DoSave? && SaveResult(c, w.disk, s, w'.now).Ok? && id != SaveResult(c, w.disk, s, w'.now).value.jarId
    ensures id in w.hist.saves ==> id in w'.hist.saves && w'.hist.saves[id] == w.hist.saves[id]
    ensures id in w.hist.human ==> id in w'.hist.human && w'.hist.human[id] == w.hist.human[id]
  {
    hide Perform, EntryOf, Save, Allowed, Durable;
  }

  lemma SavedIsRequested(c: Config, d: Disk, s: Step, now: int)
    requires s.DoSave? && s.jarId.Some? && SaveResult(c, d, s, now).Ok?
    ensures SaveResult(c, d, s, now).value.jarId == s.jarId.value
  {
    SavedMeta(c, d, s, now);
  }

  lemma SavedEntryId(c: Config, d: Disk, s: Step, now: int)
    requires s.DoSave? && EntryOf(c, d, s, now).Some?
    ensures s.jarId.Some? && EntryOf(c, d, s, now).value.jarId == s.jarId.value
  {}

  lemma {:induction false} QuietRunIsCounted(c: Config, ws: seq<World>, steps: seq<Step>, i: nat)
    requires Run(c, ws, steps) && Quiet(steps) && i < |ws|
    ensures AllCounted(c, ws[i])
  {
    hide Inv, Counted, Perform, Terminal;
    if i > 0 {
      QuietRunIsCounted(c, ws, steps, i - 1);
      RunKeepsInv(c, ws, steps, i - 1);
      var w, s, w' := ws[i - 1], steps[i - 1], ws[i];
      assert Next(c, w, s, w');
      CopiesMove(c, w, s, w');
      forall id <- w'.disk.files ensures Counted(c, w', id) {
        if s.DoSave? && SaveResult(c, w.disk, s, w'.now).Ok? { SaveCounts(c, w, s, w', id); }
        else { OtherStepsKeepCounts(c, w, s, w', id); }
      }
    }
  }

  /** With no file put back, every file on disk opens; its generation is its version and the number of
      successful saves of its id; its retention anchor is the time of its creation or latest human save.
      Unless the id is terminal the high-water does not pass that generation, and where no append was
      lost it is that generation or one less. */
  lemma GenerationsCountSaves(c: Config, ws: seq<World>, steps: seq<Step>, i: nat, id: JarId)
    requires Run(c, ws, steps) && Quiet(steps) && i < |ws| && id in ws[i].disk.files
    ensures var o, h, d := Verified(c, ws[i].disk, id), ws[i].hist, ws[i].disk;
      && o.Ok? && id in h.saves && id in h.human
      && o.value.meta.generation == o.value.meta.version == h.saves[id]
      && o.value.meta.ttlAnchor == Some(h.human[id])
      && (Terminal(c, d, id) || HighWater(c.keys, d.copies, id) <= h.saves[id])
      && (NothingLost(ws[i]) ==> h.saves[id] - 1 <= HighWater(c.keys, d.copies, id))
  {
    QuietRunIsCounted(c, ws, steps, i);
    assert Counted(c, ws[i], id);
    var g := Verified(c, ws[i].disk, id).value.meta.generation;
    if NothingLost(ws[i]) {
      RunKeepsInv(c, ws, steps, i);
      hide Run, Quiet, Verified, Inv, Bounded, Cut;
      DurableMark(c, ws[i], id, g);
    }
  }

  lemma DurableMark(c: Config, w: World, id: JarId, generation: int)
    requires Inv(c, w) && NothingLost(w) && Superseded(w.hist.recorded, id, generation) && w.disk.copies.log.readable
    ensures generation - 1 <= HighWater(c.keys, w.disk.copies, id)
  {
    CutBelow(c, w);
    FoldAllSummarises(w.hist.durable);
    hide Combined, FoldAll, Cut, BlobOk, EntryOk;
    if generation >= 2 { assert Entry(id, generation - 1, Invalidated) in w.hist.durable; }
  }

  /** Along any such run the scope of an id only shrinks. */
  lemma {:induction false} ScopeOnlyShrinks(c: Config, ws: seq<World>, steps: seq<Step>, i: nat, j: nat, id: JarId)
    requires Run(c, ws, steps) && Quiet(steps) && i <= j < |ws|
    requires id in ws[i].disk.files && id in ws[j].disk.files
    ensures Verified(c, ws[i].disk, id).Ok? && Verified(c, ws[j].disk, id).Ok?
    ensures Narrows(ScopeOf(Verified(c, ws[j].disk, id).value.meta), ScopeOf(Verified(c, ws[i].disk, id).value.meta))
    decreases j - i
  {
    hide Inv, Perform, Verified, SaveResult, Counted;
    GenerationsCountSaves(c, ws, steps, i, id);
    GenerationsCountSaves(c, ws, steps, j, id);
    if i < j {
      var w, s, w' := ws[j - 1], steps[j - 1], ws[j];
      assert Next(c, w, s, w');
      RunKeepsInv(c, ws, steps, j - 1);
      RunGrows(c, ws, steps, i, j - 1);
      QuietRunIsCounted(c, ws, steps, j - 1);
      KnownIdWasThere(c, w, s, w', id);
      ScopeOnlyShrinks(c, ws, steps, i, j - 1, id);
      if s.DoSave? && SaveResult(c, w.disk, s, w'.now).Ok? {
        SaveCounts(c, w, s, w', id);
      } else {
        StepKeepsFile(c, w.disk, s, w'.now, id);
        FilesDecideTheRead(c, w.disk.(files := w'.disk.files), w'.disk, id);
      }
      NarrowsIsTransitive(ScopeOf(Verified(c, w'.disk, id).value.meta), ScopeOf(Verified(c, w.disk, id).value.meta),
                          ScopeOf(Verified(c, ws[i].disk, id).value.meta));
    }
  }

  lemma KnownIdWasThere(c: Config, w: World, s: Step, w': World, id: JarId)
    requires Inv(c, w) && Next(c, w, s, w') && !s.Tamper? && id in w.hist.saves && id in w'.disk.files
    ensures id in w.disk.files
  {
    hide Perform, Save, Verified, Target, Filtered;
    if id !in w.disk.files {
      NewFilesAreSaved(c, w.disk, s, w'.now, id);
      SavedMeta(c, w.disk, s, w'.now);
      if s.jarId.Some? { TargetFacts(c, w.disk, s.jarId.value, s.a); }
      assert false;
    }
  }
}
