/** What every step makes of a jar's file, against a plain record of the jar: no seals, no tombstones,
    only what was asked for and when. */
module JarBookkeeping {
  import opened Tombstones
  import opened CookieScope
  import opened JarEnvelope
  import opened JarStore
  import opened JarRuns
  import opened JarGuarantees
  import opened JarCounting
  import opened JarContents

  // ---------------------------------------------------------------- the plain record

  /** A revocation gets through to the file. */
  predicate GetsThrough(c: Config, d: Disk, l: Luck) { c.keys != [] && d.copies.log.readable && l.stop.NoStop? && l.fileOk }

  /** The jar's metadata after a step that publishes no version of it. */
  function NextMeta(c: Config, d: Disk, m: Meta, s: Step, now: int): Meta {
    match s
    case DoInvalidate(id, l) => if id == m.jarId && GetsThrough(c, d, l) then m.(invalidatedAt := Some(now), updatedAt := now) else m
    case DoTouch(id, _) => if id == m.jarId then m.(lastLoadedAt := Some(now)) else m
    case DoReserve(id, g) =>
      if id == m.jarId && g == m.generation && m.invalidatedAt.None? && Blocked(c.keys, d.copies, id, g).None?
         && (m.lastProbeAt.Some? ==> now - m.lastProbeAt.value >= 15 * 60)
      then m.(lastProbeAt := Some(now)) else m
    case DoRecordProbe(id, result, expected) =>
      if id == m.jarId && (expected.Some? ==> expected.value == m.generation)
      then m.(lastProbeAt := Some(now), lastProbeResult := Some(result)) else m
    case _ => m
  }

  /** The step removes the file of `id`. */
  predicate Removes(c: Config, d: Disk, s: Step, id: JarId) { s.DoDelete? && s.id == id && GetsThrough(c, d, s.luck) }

  /** At `d` the jar holds `payload` under the metadata `m`. */
  predicate Holds(c: Config, d: Disk, m: Meta, payload: Payload) {
    m.jarId in d.files && Verified(c, d, m.jarId) == Ok(Opened(m, payload))
  }

  lemma HeldIsPlain(c: Config, d: Disk, m: Meta, payload: Payload)
    requires Holds(c, d, m, payload)
    ensures c.keys != [] && Plain(m.title) && ReadMeta(d, m.jarId) == Ok(m)
  {
    ReadIsPlain(c, d, m.jarId);
  }

  lemma InvalidateMoves(c: Config, d: Disk, s: Step, now: int, m: Meta, payload: Payload)
    requires Holds(c, d, m, payload) && s.DoInvalidate?
    ensures Holds(c, Perform(c, d, s, now), NextMeta(c, d, m, s, now), payload)
  {
    HeldIsPlain(c, d, m, payload);
    var d' := Perform(c, d, s, now);
    hide Open, RecordOrStop, NormalizeLabel, Plain;
    if s.id == m.jarId && GetsThrough(c, d, s.luck) { SealedOpens(c, d', NextMeta(c, d, m, s, now), payload); }
  }

  lemma DeleteMoves(c: Config, d: Disk, s: Step, now: int, m: Meta, payload: Payload)
    requires Holds(c, d, m, payload) && s.DoDelete?
    ensures if Removes(c, d, s, m.jarId) then m.jarId !in Perform(c, d, s, now).files else Holds(c, Perform(c, d, s, now), m, payload)
  {
    HeldIsPlain(c, d, m, payload);
    hide Open, RecordOrStop, NormalizeLabel, Plain;
  }

  lemma TouchMoves(c: Config, d: Disk, s: Step, now: int, m: Meta, payload: Payload)
    requires Holds(c, d, m, payload) && s.DoTouch?
    ensures Holds(c, Perform(c, d, s, now), NextMeta(c, d, m, s, now), payload)
  {
    HeldIsPlain(c, d, m, payload);
    PlainIsUnchanged(m.title);
    hide NormalizeLabel;
  }

  lemma ReserveMoves(c: Config, d: Disk, s: Step, now: int, m: Meta, payload: Payload)
    requires Holds(c, d, m, payload) && s.DoReserve?
    ensures Holds(c, Perform(c, d, s, now), NextMeta(c, d, m, s, now), payload)
  {
    HeldIsPlain(c, d, m, payload);
    var d', m' := Perform(c, d, s, now), NextMeta(c, d, m, s, now);
    hide Open, NormalizeLabel, Blocked, Plain, Seal;
    if s.id != m.jarId || d' == d {
      OneFileDecides(c, d, d', m.jarId);
    } else {
      SealedOpens(c, d', m', payload);
    }
  }

  lemma RecordProbeMoves(c: Config, d: Disk, s: Step, now: int, m: Meta, payload: Payload)
    requires Holds(c, d, m, payload) && s.DoRecordProbe?
    ensures Holds(c, Perform(c, d, s, now), NextMeta(c, d, m, s, now), payload)
  {
    HeldIsPlain(c, d, m, payload);
    var d', m' := Perform(c, d, s, now), NextMeta(c, d, m, s, now);
    hide Open, NormalizeLabel, Plain, Seal;
    if s.id != m.jarId || d' == d {
      OneFileDecides(c, d, d', m.jarId);
    } else {
      SealedOpens(c, d', m', payload);
    }
  }

  lemma SaveMovesOthers(c: Config, d: Disk, s: Step, now: int, m: Meta, payload: Payload)
    requires Holds(c, d, m, payload) && s.DoSave?
    requires SaveResult(c, d, s, now).Ok? ==> SaveResult(c, d, s, now).value.jarId != m.jarId
    ensures Holds(c, Perform(c, d, s, now), m, payload)
  {
    if SaveResult(c, d, s, now).Ok? { SavedMeta(c, d, s, now); }
    hide Save, Open, Target, NewVersion, Filtered, NormalizeLabel, ResolvedScope;
    OneFileDecides(c, d, Perform(c, d, s, now), m.jarId);
  }

  /** A step that publishes no version of the jar leaves its contents alone and moves its metadata as the
      plain record says, or removes the file, exactly if it is a delete that gets through. */
  lemma StepMovesTheRecord(c: Config, d: Disk, s: Step, now: int, m: Meta, payload: Payload)
    requires Holds(c, d, m, payload) && !s.Tamper?
    requires s.DoSave? && SaveResult(c, d, s, now).Ok? ==> SaveResult(c, d, s, now).value.jarId != m.jarId
    ensures m.jarId in Perform(c, d, s, now).files <==> !Removes(c, d, s, m.jarId)
    ensures m.jarId in Perform(c, d, s, now).files ==> Holds(c, Perform(c, d, s, now), NextMeta(c, d, m, s, now), payload)
  {
    hide Perform, Verified, NextMeta, GetsThrough;
    match s {
      case DoSave(_, _, _, _, _) => SaveMovesOthers(c, d, s, now, m, payload); KeepsMeta(c, d, m, s, now);
      case DoInvalidate(_, _) => InvalidateMoves(c, d, s, now, m, payload); KeepsMeta(c, d, m, s, now);
      case DoDelete(_, _) => DeleteMoves(c, d, s, now, m, payload); KeepsMeta(c, d, m, s, now);
      case DoTouch(_, _) => TouchMoves(c, d, s, now, m, payload); KeepsMeta(c, d, m, s, now);
      case DoReserve(_, _) => ReserveMoves(c, d, s, now, m, payload); KeepsMeta(c, d, m, s, now);
      case DoRecordProbe(_, _, _) => RecordProbeMoves(c, d, s, now, m, payload); KeepsMeta(c, d, m, s, now);
    }
  }

  lemma KeepsMeta(c: Config, d: Disk, m: Meta, s: Step, now: int)
    ensures var m' := NextMeta(c, d, m, s, now);
      && m'.jarId == m.jarId && (s.DoSave? || s.DoDelete? ==> m' == m)
      && (m.invalidatedAt.Some? ==> m'.invalidatedAt.Some?)
      && (m.lastProbeAt.Some? && m.lastProbeAt.value <= now ==> m'.lastProbeAt.Some? && m.lastProbeAt.value <= m'.lastProbeAt.value <= now)
  {}

  // ---------------------------------------------------------------- over runs

  /** From `i` to `j` nothing is put back and no version of `id` is published. */
  ghost predicate Unpublished(c: Config, ws: seq<World>, steps: seq<Step>, i: nat, j: nat, id: JarId)
    requires |ws| == |steps| + 1
  {
    forall k | i <= k < j && k < |steps| :: !steps[k].Tamper? && !Publishes(c, ws, steps, k, id)
  }

  /** The plain record, step by step from `i` to `j`. */
  function RecordAt(c: Config, ws: seq<World>, steps: seq<Step>, i: nat, j: nat, m: Meta): Meta
    requires i <= j < |ws| && |ws| == |steps| + 1
    decreases j
  {
    if i == j then m else NextMeta(c, ws[j - 1].disk, RecordAt(c, ws, steps, i, j - 1, m), steps[j - 1], ws[j].now)
  }

  ghost predicate RemovedBefore(c: Config, ws: seq<World>, steps: seq<Step>, i: nat, j: nat, id: JarId)
    requires |ws| == |steps| + 1
  {
    exists k :: i <= k < j && k < |steps| && Removes(c, ws[k].disk, steps[k], id)
  }

  lemma {:induction false} RecordKeepsId(c: Config, ws: seq<World>, steps: seq<Step>, i: nat, j: nat, m: Meta)
    requires i <= j < |ws| && |ws| == |steps| + 1
    ensures RecordAt(c, ws, steps, i, j, m).jarId == m.jarId
    decreases j
  {
    if i < j {
      RecordKeepsId(c, ws, steps, i, j - 1, m);
      KeepsMeta(c, ws[j - 1].disk, RecordAt(c, ws, steps, i, j - 1, m), steps[j - 1], ws[j].now);
      hide NextMeta;
    }
  }

  /** A file is there only where one was, or was saved. */
  lemma GoneStaysGone(c: Config, w: World, s: Step, w': World, id: JarId)
    requires Next(c, w, s, w') && !s.Tamper? && id !in w.disk.files
    requires s.DoSave? && SaveResult(c, w.disk, s, w'.now).Ok? ==> SaveResult(c, w.disk, s, w'.now).value.jarId != id
    ensures id !in w'.disk.files
  {
    NextPerforms(c, w, s, w');
    hide Perform, SaveResult, Next;
    if id in w'.disk.files {
      NewFilesAreSaved(c, w.disk, s, w'.now, id);
      SavedMeta(c, w.disk, s, w'.now);
      assert false;
    }
  }

  /** Until the next version is published and with nothing put back, the file is there exactly if no
      delete got through, and opens to the saved contents under the metadata of the plain record. */
  lemma {:induction false} FileFollowsTheRecord(c: Config, ws: seq<World>, steps: seq<Step>, i: nat, j: nat, m: Meta, payload: Payload)
    requires |ws| == |steps| + 1 && Run(c, ws, steps) && i <= j < |ws|
    requires Holds(c, ws[i].disk, m, payload) && Unpublished(c, ws, steps, i, j, m.jarId)
    ensures m.jarId in ws[j].disk.files <==> !RemovedBefore(c, ws, steps, i, j, m.jarId)
    ensures m.jarId in ws[j].disk.files ==> Holds(c, ws[j].disk, RecordAt(c, ws, steps, i, j, m), payload)
    decreases j
  {
    hide Holds, Next, Init, SaveResult, NextMeta, Removes;
    if i < j {
      FileFollowsTheRecord(c, ws, steps, i, j - 1, m, payload);
      var w, s, w' := ws[j - 1], steps[j - 1], ws[j];
      assert Next(c, w, s, w');
      assert !s.Tamper? && !Publishes(c, ws, steps, j - 1, m.jarId);
      NextPerforms(c, w, s, w');
      RecordKeepsId(c, ws, steps, i, j - 1, m);
      RemovedStep(c, ws, steps, i, j, m.jarId);
      if m.jarId in w.disk.files { StepMovesTheRecord(c, w.disk, s, w'.now, RecordAt(c, ws, steps, i, j - 1, m), payload); }
      else { GoneStaysGone(c, w, s, w', m.jarId); }
    } else {
      HeldIsThere(c, ws[i].disk, m, payload);
    }
  }

  lemma HeldIsThere(c: Config, d: Disk, m: Meta, payload: Payload)
    requires Holds(c, d, m, payload)
    ensures m.jarId in d.files
  {}

  lemma NextPerforms(c: Config, w: World, s: Step, w': World)
    requires Next(c, w, s, w')
    ensures w'.disk == Perform(c, w.disk, s, w'.now) && w.now <= w'.now
  {}

  lemma RemovedStep(c: Config, ws: seq<World>, steps: seq<Step>, i: nat, j: nat, id: JarId)
    requires |ws| == |steps| + 1 && i < j < |ws|
    ensures RemovedBefore(c, ws, steps, i, j, id) <==> RemovedBefore(c, ws, steps, i, j - 1, id) || Removes(c, ws[j - 1].disk, steps[j - 1], id)
  {
    hide Removes;
  }

  // ---------------------------------------------------------------- deleting

  /** An accepted delete whose removal succeeds takes away the file of its id and no other; one whose
      removal fails leaves all files. The answer is the same, and the audit entry too. */
  lemma DeleteRemovesTheFile(c: Config, d: Disk, id: JarId, now: int, l: Luck)
    ensures var (d', r) := Delete(c, d, id, now, l);
      && (r.Ok? <==> c.keys != [] && d.copies.log.readable && l.stop.NoStop?)
      && (r.Ok? && l.fileOk ==> id !in d'.files && forall k | k != id :: k in d'.files <==> k in d.files)
      && (r.Ok? && l.fileOk ==> forall k <- d'.files :: d'.files[k] == d.files[k])
      && (r.Err? || !l.fileOk ==> d'.files == d.files)
      && (r.Ok? ==> r.value.jarId == id && d'.audit == d.audit + (if l.auditOk then [AuditEntry(DeletedJar, id, r.value.generation)] else []))
      && (r.Err? ==> d'.audit == d.audit)
  {
    hide RecordOrStop, NormalizeLabel;
  }

  /** Once a delete has removed the file, with nothing put back, no file of the id ever exists again,
      whether or not its tombstone lasts. */
  lemma {:induction false} DeletedFileStaysGone(c: Config, ws: seq<World>, steps: seq<Step>, i: nat, j: nat)
    requires |ws| == |steps| + 1 && Run(c, ws, steps) && i < j < |ws| && Untampered(steps, i, j)
    requires steps[i].DoDelete? && GetsThrough(c, ws[i].disk, steps[i].luck)
    ensures steps[i].id !in ws[j].disk.files
    ensures exists e <- ws[j].hist.recorded :: e.jarId == steps[i].id
    decreases j
  {
    hide Next, Init, SaveResult, Perform, Save, EntryOf;
    var w, s, w' := ws[j - 1], steps[j - 1], ws[j];
    assert Next(c, w, s, w');
    if i < j - 1 {
      DeletedFileStaysGone(c, ws, steps, i, j - 1);
      RecordedGrows(c, w, s, w');
      NoSaveOfALostId(c, w, s, w', steps[i].id);
      GoneStaysGone(c, w, s, w', steps[i].id);
    } else {
      DeletedNow(c, w, s, w');
    }
  }

  lemma RecordedGrows(c: Config, w: World, s: Step, w': World)
    requires Next(c, w, s, w')
    ensures w.hist.recorded <= w'.hist.recorded
  {
    hide Perform, EntryOf, Allowed;
    HistoryOfEntry(c, w, s, w'.now);
  }

  lemma DeletedNow(c: Config, w: World, s: Step, w': World)
    requires Next(c, w, s, w') && s.DoDelete? && GetsThrough(c, w.disk, s.luck)
    ensures s.id !in w'.disk.files && exists e <- w'.hist.recorded :: e.jarId == s.id
  {
    DeleteRemovesTheFile(c, w.disk, s.id, w'.now, s.luck);
    HistoryOfEntry(c, w, s, w'.now);
    var e := EntryOf(c, w.disk, s, w'.now);
    assert w'.hist.recorded[|w.hist.recorded|] == e.value;
    hide Delete, NextHistory, Allowed;
  }

  /** An id that is known from a tombstone and has no file is not saved to. */
  lemma NoSaveOfALostId(c: Config, w: World, s: Step, w': World, id: JarId)
    requires Next(c, w, s, w') && id !in w.disk.files && exists e <- w.hist.recorded :: e.jarId == id
    ensures s.DoSave? && SaveResult(c, w.disk, s, w'.now).Ok? ==> SaveResult(c, w.disk, s, w'.now).value.jarId != id
  {
    if s.DoSave? && SaveResult(c, w.disk, s, w'.now).Ok? {
      SavedMeta(c, w.disk, s, w'.now);
      if s.jarId.Some? { TargetFacts(c, w.disk, s.jarId.value, s.a); }
      hide Save, Target, ResolvedScope, Filtered, Perform, NextHistory, NormalizeLabel;
    }
  }

  // ---------------------------------------------------------------- invalidating

  /** No file of `id` claims to be valid. */
  predicate Shut(d: Disk, id: JarId) { ReadMeta(d, id).Ok? ==> ReadMeta(d, id).value.invalidatedAt.Some? }

  lemma ShutNeverLoads(c: Config, d: Disk, id: JarId, now: int)
    requires Shut(d, id)
    ensures Load(c, d, id, now).Err?
  {
    hide Blocked, NormalizeLabel;
  }

  /** An invalidation is refused only without keys or with an unreadable log. It stamps the file, re-sealed
      where it opens, and touches no other. */
  lemma InvalidateStampsTheFile(c: Config, d: Disk, id: JarId, now: int, l: Luck)
    ensures var (d', r) := Invalidate(c, d, id, now, l);
      && (r.Ok? <==> c.keys != [] && d.copies.log.readable && l.stop.NoStop?)
      && (r.Ok? && l.fileOk ==> Shut(d', id))
      && d'.files.Keys == d.files.Keys
      && (forall k <- d.files | k != id :: d'.files[k] == d.files[k])
      && (r.Err? || !l.fileOk ==> d'.files == d.files)
      && (r.Ok? ==> r.value.jarId == id && r.value.invalidatedAt == Some(now))
      && (r.Ok? ==> d'.audit == d.audit + (if l.auditOk then [AuditEntry(InvalidatedJar, id, r.value.generation)] else []))
      && (r.Err? ==> d'.audit == d.audit)
  {
    hide RecordOrStop, NormalizeLabel, Decrypt;
  }

  lemma ProbeKeepsShut(c: Config, d: Disk, id: JarId, g: int, r: ProbeResult, e: Option<int>, now: int, k: JarId)
    requires Shut(d, k)
    ensures Shut(ReserveProbe(c, d, id, g, now).0, k) && Shut(RecordProbe(c, d, id, r, e, now).0, k)
  {
    hide Blocked, NormalizeLabel, ProbeAllowed, Decrypt;
  }

  lemma TouchKeepsShut(d: Disk, id: JarId, now: int, ok: bool, k: JarId)
    requires Shut(d, k)
    ensures Shut(Touch(d, id, now, ok), k)
  {
    hide NormalizeLabel;
  }

  lemma RevokingKeepsShut(c: Config, d: Disk, id: JarId, now: int, l: Luck, k: JarId)
    requires Shut(d, k)
    ensures Shut(Invalidate(c, d, id, now, l).0, k) && Shut(Delete(c, d, id, now, l).0, k)
  {
    InvalidateStampsTheFile(c, d, id, now, l);
    DeleteRemovesTheFile(c, d, id, now, l);
    hide Invalidate, Delete, NormalizeLabel;
  }

  lemma SavingKeepsShut(c: Config, d: Disk, s: Step, now: int, k: JarId)
    requires Shut(d, k) && s.DoSave?
    requires SaveResult(c, d, s, now).Ok? ==> SaveResult(c, d, s, now).value.jarId != k
    ensures Shut(Perform(c, d, s, now), k)
  {
    if SaveResult(c, d, s, now).Ok? { SavedMeta(c, d, s, now); }
    hide Save, Target, NewVersion, Filtered, NormalizeLabel, ResolvedScope;
  }

  lemma StepKeepsShut(c: Config, d: Disk, s: Step, now: int, k: JarId)
    requires Shut(d, k) && !s.Tamper?
    requires s.DoSave? && SaveResult(c, d, s, now).Ok? ==> SaveResult(c, d, s, now).value.jarId != k
    ensures Shut(Perform(c, d, s, now), k)
  {
    hide Shut, Save, Invalidate, Delete, Touch, ReserveProbe, RecordProbe, SaveResult;
    match s {
      case DoSave(_, _, _, _, _) => SavingKeepsShut(c, d, s, now, k);
      case DoInvalidate(id, l) => RevokingKeepsShut(c, d, id, now, l, k);
      case DoDelete(id, l) => RevokingKeepsShut(c, d, id, now, l, k);
      case DoTouch(id, ok) => TouchKeepsShut(d, id, now, ok, k);
      case DoReserve(id, g) => ProbeKeepsShut(c, d, id, g, Fresh, None, now, k);
      case DoRecordProbe(id, r, e) => ProbeKeepsShut(c, d, id, 0, r, e, now, k);
    }
  }

  /** After an invalidation that reached the file nothing of the id loads until a version is published
      again, even where the tombstone is lost with a torn line. */
  lemma {:induction false} InvalidatedFileStaysShut(c: Config, ws: seq<World>, steps: seq<Step>, i: nat, j: nat, now: int)
    requires |ws| == |steps| + 1 && Run(c, ws, steps) && i < j < |ws|
    requires steps[i].DoInvalidate? && GetsThrough(c, ws[i].disk, steps[i].luck) && Unpublished(c, ws, steps, i, j, steps[i].id)
    ensures Shut(ws[j].disk, steps[i].id) && Load(c, ws[j].disk, steps[i].id, now).Err?
    decreases j
  {
    hide Next, Init, SaveResult, Perform, Invalidate, Shut, Load, GetsThrough;
    var w, s, w' := ws[j - 1], steps[j - 1], ws[j];
    assert Next(c, w, s, w');
    NextPerforms(c, w, s, w');
    if i < j - 1 {
      InvalidatedFileStaysShut(c, ws, steps, i, j - 1, now);
      assert !s.Tamper? && !Publishes(c, ws, steps, j - 1, steps[i].id);
      StepKeepsShut(c, w.disk, s, w'.now, steps[i].id);
    } else {
      InvalidatedNow(c, w.disk, s, w'.now);
    }
    ShutNeverLoads(c, ws[j].disk, steps[i].id, now);
  }

  lemma InvalidatedNow(c: Config, d: Disk, s: Step, now: int)
    requires s.DoInvalidate? && GetsThrough(c, d, s.luck)
    ensures Shut(Perform(c, d, s, now), s.id)
  {
    InvalidateStampsTheFile(c, d, s.id, now, s.luck);
    hide Invalidate, Shut;
  }

  /** The file is there and is a record of that id. */
  predicate Readable(d: Disk, id: JarId) { id in d.files && d.files[id].Record? && d.files[id].meta.jarId == id }

  // ---------------------------------------------------------------- probing

  /** A probe is reserved exactly for an unrevoked, openable file of the expected generation whose last
      probe is at least fifteen minutes ago. */
  lemma ReservedExactly(c: Config, d: Disk, id: JarId, g: int, now: int)
    ensures ReserveProbe(c, d, id, g, now).1 == Ok(true) <==>
      && Verified(c, d, id).Ok? && c.keys != []
      && var m := Verified(c, d, id).value.meta;
      && m.generation == g && m.invalidatedAt.None? && Blocked(c.keys, d.copies, id, g).None?
      && (m.lastProbeAt.Some? ==> now - m.lastProbeAt.value >= 15 * 60)
    ensures ReserveProbe(c, d, id, g, now).1 != Ok(true) ==> ReserveProbe(c, d, id, g, now).0 == d
    ensures ReserveProbe(c, d, id, g, now).1.Ok? <==> c.keys != [] && Readable(d, id)
    ensures c.keys != [] && id !in d.files ==> ReserveProbe(c, d, id, g, now).1 == Err(NotFound)
  {
    hide Blocked, NormalizeLabel;
  }

  /** A probe result answers with the jar's metadata as it then is; it lands exactly in a file that opens at
      the generation that was probed, and changes no other file. */
  lemma ResultLandsExactly(c: Config, d: Disk, id: JarId, result: ProbeResult, expected: Option<int>, now: int)
    ensures var (d', r) := RecordProbe(c, d, id, result, expected, now);
      && (r.Ok? <==> c.keys != [] && Readable(d, id))
      && (c.keys != [] && id !in d.files ==> r == Err(NotFound))
      && (r.Ok? ==> ReadMeta(d', id) == Ok(r.value))
      && (d' != d ==> Verified(c, d, id).Ok? && (expected.Some? ==> Verified(c, d, id).value.meta.generation == expected.value))
      && (Verified(c, d, id).Ok? && c.keys != [] && (expected.Some? ==> Verified(c, d, id).value.meta.generation == expected.value) ==>
            r.value.lastProbeAt == Some(now) && r.value.lastProbeResult == Some(result))
      && d'.files.Keys == d.files.Keys && d'.copies == d.copies && forall k <- d.files | k != id :: d'.files[k] == d.files[k]
  {
    if Readable(d, id) {
      NormalizedIsPlain(d.files[id].meta.title);
      PlainIsUnchanged(NormalizeLabel(d.files[id].meta.title));
    }
    hide NormalizeLabel, Plain;
  }

  /** What the file's last probe is, if the file is there. */
  predicate ProbedSince(c: Config, d: Disk, id: JarId, since: int) {
    id in d.files ==>
      && Verified(c, d, id).Ok? && Verified(c, d, id).value.meta.lastProbeAt.Some?
      && Verified(c, d, id).value.meta.lastProbeAt.value >= since
  }

  lemma StepKeepsProbed(c: Config, w: World, s: Step, w': World, id: JarId, since: int)
    requires Next(c, w, s, w') && !s.Tamper? && ProbedSince(c, w.disk, id, since) && since <= w.now
    requires id in w.disk.files ==> Verified(c, w.disk, id).Ok? && Verified(c, w.disk, id).value.meta.lastProbeAt.Some?
                                    && Verified(c, w.disk, id).value.meta.lastProbeAt.value <= w.now
    requires s.DoSave? && SaveResult(c, w.disk, s, w'.now).Ok? ==> SaveResult(c, w.disk, s, w'.now).value.jarId != id
    ensures ProbedSince(c, w'.disk, id, since)
    ensures id in w'.disk.files ==> Verified(c, w'.disk, id).value.meta.lastProbeAt.value <= w'.now
  {
    NextPerforms(c, w, s, w');
    hide Next, SaveResult, Perform, NextMeta;
    if id in w.disk.files {
      var o := Verified(c, w.disk, id).value;
      hide Verified;
      KeepsMeta(c, w.disk, o.meta, s, w'.now);
      StepMovesTheRecord(c, w.disk, s, w'.now, o.meta, o.payload);
    } else {
      GoneStaysGone(c, w, s, w', id);
    }
  }

  lemma {:induction false} ProbedStays(c: Config, ws: seq<World>, steps: seq<Step>, i: nat, j: nat, id: JarId, g: int)
    requires |ws| == |steps| + 1 && Run(c, ws, steps) && i < j < |ws| && Unpublished(c, ws, steps, i, j, id)
    requires steps[i] == DoReserve(id, g) && ReserveProbe(c, ws[i].disk, id, g, ws[i + 1].now).1 == Ok(true)
    ensures ProbedSince(c, ws[j].disk, id, ws[i + 1].now) && ws[i + 1].now <= ws[j].now
    ensures id in ws[j].disk.files ==> Verified(c, ws[j].disk, id).value.meta.lastProbeAt.value <= ws[j].now
    decreases j
  {
    hide Next, Init, SaveResult, ReserveProbe, Perform;
    var w, s, w' := ws[j - 1], steps[j - 1], ws[j];
    assert Next(c, w, s, w');
    NextPerforms(c, w, s, w');
    if i < j - 1 {
      ProbedStays(c, ws, steps, i, j - 1, id, g);
      assert !s.Tamper? && !Publishes(c, ws, steps, j - 1, id);
      hide ProbedSince;
      ProbedUnfolds(c, w.disk, id, ws[i + 1].now);
      StepKeepsProbed(c, w, s, w', id, ws[i + 1].now);
    } else {
      ReservedNow(c, w.disk, id, g, w'.now);
    }
  }

  lemma ProbedUnfolds(c: Config, d: Disk, id: JarId, since: int)
    requires ProbedSince(c, d, id, since)
    ensures id in d.files ==> Verified(c, d, id).Ok? && Verified(c, d, id).value.meta.lastProbeAt.Some?
  {}

  lemma ReservedNow(c: Config, d: Disk, id: JarId, g: int, now: int)
    requires ReserveProbe(c, d, id, g, now).1 == Ok(true)
    ensures ProbedSince(c, Perform(c, d, DoReserve(id, g), now), id, now)
    ensures Verified(c, Perform(c, d, DoReserve(id, g), now), id).Ok?
    ensures Verified(c, Perform(c, d, DoReserve(id, g), now), id).value.meta.lastProbeAt == Some(now)
  {
    ReservedExactly(c, d, id, g, now);
    var o := Verified(c, d, id).value;
    hide Verified, ReserveProbe, Perform;
    ReserveMoves(c, d, DoReserve(id, g), now, o.meta, o.payload);
    ReservedMeta(c, d, o.meta, g, now);
  }

  lemma ReservedMeta(c: Config, d: Disk, m: Meta, g: int, now: int)
    requires m.generation == g && m.invalidatedAt.None? && Blocked(c.keys, d.copies, m.jarId, g).None?
    requires m.lastProbeAt.Some? ==> now - m.lastProbeAt.value >= 15 * 60
    ensures NextMeta(c, d, m, DoReserve(m.jarId, g), now) == m.(lastProbeAt := Some(now))
  {}

  /** Two probes of one version, whoever reserves them, are at least fifteen minutes apart. */
  lemma ProbesAreApart(c: Config, ws: seq<World>, steps: seq<Step>, i: nat, j: nat, id: JarId, g: int, h: int)
    requires |ws| == |steps| + 1 && Run(c, ws, steps) && i < j < |steps| && Unpublished(c, ws, steps, i, j, id)
    requires steps[i] == DoReserve(id, g) && ReserveProbe(c, ws[i].disk, id, g, ws[i + 1].now).1 == Ok(true)
    requires steps[j] == DoReserve(id, h) && ReserveProbe(c, ws[j].disk, id, h, ws[j + 1].now).1 == Ok(true)
    ensures ws[j + 1].now >= ws[i + 1].now + 15 * 60
  {
    hide Run, ReserveProbe, Unpublished;
    ProbedStays(c, ws, steps, i, j, id, g);
    ReservedExactly(c, ws[j].disk, id, h, ws[j + 1].now);
  }

  // ---------------------------------------------------------------- when a save is accepted

  /** A request to refresh stays inside the scope of `m`, and names something valid where it names any. */
  ghost predicate Fits(m: Meta, a: SaveArgs) {
    && (a.origins == [] || exists o :: Some(o) in a.origins)
    && (a.nav.None? || a.nav.value == [] || exists o :: Some(o) in a.nav.value)
    && (forall o :: Some(o) in a.origins ==> o in m.origins)
    && (a.nav.Some? ==> forall o :: Some(o) in a.nav.value ==> o in m.allowlist)
    && !(a.mode == Some(All) && m.mode == CookiesOnly)
  }

  /** A save is accepted exactly if nothing is too large, the probe is valid, and the new jar has an
      origin, or the jar to refresh is neither deleted nor at the terminal marker, the generation the
      caller holds is not revoked, the file opens and the request stays inside its scope. */
  lemma SavedExactly(c: Config, d: Disk, jarId: Option<JarId>, freshId: JarId, a: SaveArgs, now: int, stop: Stop, ok: bool)
    ensures Save(c, d, jarId, freshId, a, now, stop, ok).1.Ok? <==>
      && c.keys != [] && a.rawSize <= c.maxBytes && a.sealedSize <= c.maxBytes && a.probe.Some? && stop.Never?
      && (if jarId.None? then exists o :: Some(o) in a.origins
          else
            && !IsDeleted(c.keys, d.copies, jarId.value) && HighWater(c.keys, d.copies, jarId.value) < 0x7FFF_FFFF_FFFF_FFFF
            && (a.precondition.Some? ==> Blocked(c.keys, d.copies, jarId.value, a.precondition.value).None?)
            && Verified(c, d, jarId.value).Ok? && Fits(Verified(c, d, jarId.value).value.meta, a))
  {
    hide IsDeleted, HighWater, Blocked, Verified, Filtered, StatsOf, NormalizeLabel, Recorded;
    ValidMembers(a.origins);
    if Valid(a.origins) != [] { assert Some(Valid(a.origins)[0]) in a.origins; }
    if jarId.Some? && Verified(c, d, jarId.value).Ok? {
      var m := Verified(c, d, jarId.value).value.meta;
      RefreshOnlyNarrows(Scope(m.origins, m.allowlist, m.mode), a.origins, a.nav, a.mode);
      hide ResolveRefreshScope;
    } else {
      hide ResolveRefreshScope;
    }
  }

  /** Tombstones stand against the save: the id is deleted or at the terminal marker, or the generation
      the caller holds is revoked. */
  ghost predicate Tombstoned(c: Config, d: Disk, id: JarId, a: SaveArgs) {
    || IsDeleted(c.keys, d.copies, id) || HighWater(c.keys, d.copies, id) >= 0x7FFF_FFFF_FFFF_FFFF
    || (a.precondition.Some? && Blocked(c.keys, d.copies, id, a.precondition.value).Some?)
  }

  /** Why a save is refused. */
  lemma WhyNotSaved(c: Config, d: Disk, jarId: Option<JarId>, freshId: JarId, a: SaveArgs, now: int, stop: Stop, ok: bool)
    ensures var r := Save(c, d, jarId, freshId, a, now, stop, ok).1;
      r.Ok? || r.error ==
        (if c.keys == [] then Disabled
         else if a.rawSize > c.maxBytes then Invalid
         else if jarId.Some? && Tombstoned(c, d, jarId.value, a) then Revoked
         else if jarId.Some? && Verified(c, d, jarId.value).Err? then Verified(c, d, jarId.value).error
         else if stop.Never? || a.probe.None? || a.sealedSize > c.maxBytes then Invalid
         else if if jarId.Some? then Fits(Verified(c, d, jarId.value).value.meta, a) else exists o :: Some(o) in a.origins then Interrupted
         else Invalid)
  {
    SavedExactly(c, d, jarId, freshId, a, now, Never, ok);
    SavedExactly(c, d, jarId, freshId, a, now, stop, ok);
    hide IsDeleted, HighWater, Blocked, Verified, Filtered, StatsOf, NormalizeLabel, Recorded, ResolveRefreshScope, Fits;
  }

  // ---------------------------------------------------------------- why a jar does not load

  /** Why a jar does not load: no keys; no file; a file that is no record of that id; invalidated, tombstoned
      or past its retention by what the file says; or, only then, sealed under a key that is no longer
      configured, or not as the file says. */
  lemma WhyNotLoaded(c: Config, d: Disk, id: JarId, now: int)
    ensures var r := Load(c, d, id, now);
      && (r == Err(Disabled) <==> c.keys == [])
      && (r == Err(NotFound) <==> c.keys != [] && id !in d.files)
      && (r == Err(Invalid) <==> c.keys != [] && id in d.files && !d.files[id].Unreadable? && (match d.files[id] case BadMeta(found) => found != id case _ => !Readable(d, id)))
      && (r == Err(Revoked) <==>
            && c.keys != [] && Readable(d, id)
            && var m := d.files[id].meta;
               || m.invalidatedAt.Some? || Blocked(c.keys, d.copies, id, m.generation).Some?
               || (m.containsSession && now > c.sessionTtl + (match m.ttlAnchor case Some(anchor) => anchor case None => m.updatedAt)))
      && (r == Err(Rotation) ==> Readable(d, id) && d.files[id].keyId !in c.keys)
      && (r.Ok? ==> Readable(d, id) && d.files[id].keyId in c.keys)
      && r != Err(Interrupted)
  {
    hide Blocked, NormalizeLabel;
  }

  // ---------------------------------------------------------------- what a listing tells

  /** An id is listed exactly if its file is a record of that id and it is not deleted: with the sealed
      metadata, marked as invalidated at its last update where it no longer loads, or, where it does not
      open, as an invalidated jar of no origins. */
  lemma ListingTells(c: Config, d: Disk, id: JarId, now: int)
    requires c.keys != []
    ensures var shown := Listed(c, d, id, now);
      && (shown.Some? <==> id in d.files && d.files[id].Record? && d.files[id].meta.jarId == id && !IsDeleted(c.keys, d.copies, id))
      && (shown.Some? && Verified(c, d, id).Ok? ==>
            var m := Verified(c, d, id).value.meta;
            shown.value == m.(invalidatedAt := if m.invalidatedAt.Some? || Load(c, d, id, now).Ok? then m.invalidatedAt else Some(m.updatedAt)))
      && (shown.Some? && Verified(c, d, id).Err? ==>
            shown.value.jarId == id && shown.value.invalidatedAt == Some(now) && shown.value.origins == shown.value.allowlist == [] && shown.value.owner == None)
  {
    hide Blocked, IsDeleted, NormalizeLabel, TtlExpired;
  }

  /** The single read shows what the listing shows of a jar that is not deleted, and of a deleted one whose
      file is still there an invalidated jar; it shows nothing exactly where there is no record to read. */
  lemma SingleReadTells(c: Config, d: Disk, id: JarId, now: int)
    requires c.keys != []
    ensures SingleRead(c, d, id, now).Some? <==> Readable(d, id)
    ensures Readable(d, id) && !IsDeleted(c.keys, d.copies, id) ==> SingleRead(c, d, id, now) == Listed(c, d, id, now)
    ensures Readable(d, id) && IsDeleted(c.keys, d.copies, id) ==>
              SingleRead(c, d, id, now).value.invalidatedAt.Some? && SingleRead(c, d, id, now).value.jarId == id
  {
    hide NormalizeLabel, TtlExpired, Combined;
  }
}
