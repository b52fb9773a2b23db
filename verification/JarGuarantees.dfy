/** What the store promises over whole runs. */
module JarGuarantees {
  import opened Tombstones
  import opened CookieScope
  import opened JarEnvelope
  import opened JarStore
  import opened JarRuns

  // ---------------------------------------------------------------- the high-water never falls

  lemma MarksGrow(short: seq<Entry>, long: seq<Entry>)
    requires short <= long
    ensures AtMost(FoldAll(short), FoldAll(long))
  {
    FoldAllSummarises(short);
    FoldAllSummarises(long);
    var a, b := FoldAll(short), FoldAll(long);
    assert forall e <- short :: e in long;
    forall id <- a ensures id in b && a[id].generation <= b[id].generation && (a[id].reason.Deleted? ==> b[id].reason.Deleted?) {
      assert Witnessed(a[id], id, short);
      assert id in b && Witnessed(b[id], id, long);
    }
  }

  /** Blocked by an entry that no later append can destroy. */
  ghost predicate Secured(w: World, id: JarId, generation: int) { Bars(FoldAll(w.hist.durable), id, generation) }

  ghost predicate SecuredDelete(w: World, id: JarId) {
    var m := FoldAll(w.hist.durable); id in m && m[id].reason.Deleted?
  }

  ghost function SecuredMark(w: World, id: JarId): int {
    var m := FoldAll(w.hist.durable); if id in m then m[id].generation else 0
  }

  /** No append was ever cut short or lost. */
  ghost predicate NothingLost(w: World) { forall e <- w.hist.recorded :: e in w.hist.durable }

  lemma CutBelow(c: Config, w: World)
    requires CopiesOk(c, w)
    ensures AtMost(FoldAll(w.hist.durable), Combined(c.keys, w.disk.copies))
    ensures NonNegative(Combined(c.keys, w.disk.copies)) && Sane(w.disk.copies)
  {
    var copies := w.disk.copies;
    CombinedIsRecorded(c.keys, copies, w.hist.recorded);
    CutIsAtMost(c.keys, copies);
    hide FoldAll, Combined, Provenance;
  }

  /** What is durable is permanent: the durable high-water never falls and stays in effect, and what is
      blocked or deleted durably is blocked or deleted in every later state of the run, a torn or an
      unreadable log included. */
  lemma RevocationIsPermanent(c: Config, ws: seq<World>, steps: seq<Step>, i: nat, j: nat, id: JarId, generation: int)
    requires Run(c, ws, steps) && i <= j < |ws|
    ensures SecuredMark(ws[i], id) <= SecuredMark(ws[j], id)
    ensures ws[j].disk.copies.log.readable ==> SecuredMark(ws[j], id) <= HighWater(c.keys, ws[j].disk.copies, id)
    ensures Secured(ws[i], id, generation) ==>
              Secured(ws[j], id, generation) && Blocked(c.keys, ws[j].disk.copies, id, generation).Some?
    ensures SecuredDelete(ws[i], id) ==> SecuredDelete(ws[j], id) && IsDeleted(c.keys, ws[j].disk.copies, id)
  {
    hide Run, Combined, FoldAll, CopiesOk;
    RunKeepsInv(c, ws, steps, i);
    RunGrows(c, ws, steps, i, j);
    assert CopiesOk(c, ws[j]);
    MarksGrow(ws[i].hist.durable, ws[j].hist.durable);
    CutBelow(c, ws[j]);
    FoldAllIsSigned(ws[j].hist.durable);
  }

  /** As long as no append was cut short or lost, whatever is in effect is durable. */
  lemma InEffectIsSecured(c: Config, ws: seq<World>, steps: seq<Step>, i: nat, id: JarId, generation: int)
    requires Run(c, ws, steps) && i < |ws| && ws[i].disk.copies.log.readable && NothingLost(ws[i])
    ensures Blocked(c.keys, ws[i].disk.copies, id, generation).Some? <==> Secured(ws[i], id, generation)
    ensures IsDeleted(c.keys, ws[i].disk.copies, id) <==> SecuredDelete(ws[i], id)
    ensures HighWater(c.keys, ws[i].disk.copies, id) == SecuredMark(ws[i], id)
  {
    hide Run, Combined, FoldAll, CopiesOk, Provenance;
    RunKeepsInv(c, ws, steps, i);
    assert CopiesOk(c, ws[i]);
    CutBelow(c, ws[i]);
    assert forall e :: e in ws[i].hist.recorded <==> e in ws[i].hist.durable by { DurableIsRecorded(c, ws[i]); }
    FoldIsAJoin(ws[i].hist.recorded, ws[i].hist.durable);
    BelowRecorded(c, ws[i]);
  }

  lemma DurableIsRecorded(c: Config, w: World)
    requires CopiesOk(c, w)
    ensures forall e <- w.hist.durable :: e in w.hist.recorded
  {}

  lemma BelowRecorded(c: Config, w: World)
    requires CopiesOk(c, w)
    ensures AtMost(Combined(c.keys, w.disk.copies), FoldAll(w.hist.recorded))
  {
    CombinedIsRecorded(c.keys, w.disk.copies, w.hist.recorded);
  }

  /** In the terms of the history; what it means for the files is DurableEntryBlocks. */
  lemma DurableEntryIsSecured(c: Config, w: World, s: Step, w': World)
    requires Next(c, w, s, w') && EntryOf(c, w.disk, s, w'.now).Some?
    ensures var e := EntryOf(c, w.disk, s, w'.now).value;
      Secured(w', e.jarId, e.generation) <==>
        Durable(w.disk.copies, LuckOf(s).anchorOk, LuckOf(s).stop) || Secured(w, e.jarId, e.generation)
    ensures var e := EntryOf(c, w.disk, s, w'.now).value;
      Durable(w.disk.copies, LuckOf(s).anchorOk, LuckOf(s).stop) && e.reason.Deleted? ==> SecuredDelete(w', e.jarId)
  {
    hide Perform, EntryOf, Durable, FoldAll, Combined, Allowed;
    var e := EntryOf(c, w.disk, s, w'.now).value;
    HistoryOfEntry(c, w, s, w'.now);
    FoldAllStep(w.hist.durable, e);
    FoldAllIsSigned(w.hist.durable);
    FoldBars(FoldAll(w.hist.durable), e, e.jarId, e.generation);
    assert w.hist.durable + [] == w.hist.durable;
  }

  // ---------------------------------------------------------------- what the files hold

  /** What a step does to the high-water in the files, a torn last line aside. */
  lemma StepFoldsItsEntry(c: Config, w: World, s: Step, w': World)
    requires CopiesOk(c, w) && Next(c, w, s, w') && !s.Tamper?
    ensures var e, before, after := EntryOf(c, w.disk, s, w'.now), Combined(c.keys, Cut(w.disk.copies)), Combined(c.keys, Cut(w'.disk.copies));
      && after == (if e.Some? && Durable(w.disk.copies, LuckOf(s).anchorOk, LuckOf(s).stop) then Fold(before, e.value) else before)
      && NonNegative(before)
      && w'.disk.copies.log.readable == w.disk.copies.log.readable
  {
    hide Perform, EntryOf, Recorded, Combined, Provenance, FoldAll, Fold, Allowed, NextHistory, Durable, Cut;
    var e := EntryOf(c, w.disk, s, w'.now);
    StepOnCopies(c, w.disk, s, w'.now);
    CutKeepsProvenance(c.keys, w.disk.copies, w.hist.recorded);
    CombinedIsRecorded(c.keys, Cut(w.disk.copies), w.hist.recorded);
    if e.Some? { RecordedMarks(c.keys, w.disk.copies, w.hist.recorded, e.value, LuckOf(s)); }
  }

  /** Every step of every process: what is blocked after it, a torn last line aside, is what was blocked
      before and what its entry names, exactly if the append was whole and either had a line of its own
      or was followed by the anchor. */
  lemma DurableEntryBlocks(c: Config, ws: seq<World>, steps: seq<Step>, i: nat, id: JarId, generation: int)
    requires Run(c, ws, steps) && i < |steps| && !steps[i].Tamper? && ws[i].disk.copies.log.readable
    ensures var w, w', s := ws[i], ws[i + 1], steps[i];
      var e := EntryOf(c, w.disk, s, w'.now);
      var lasting := e.Some? && Durable(w.disk.copies, LuckOf(s).anchorOk, LuckOf(s).stop);
      && (Blocked(c.keys, Cut(w'.disk.copies), id, generation).Some? <==>
            Blocked(c.keys, Cut(w.disk.copies), id, generation).Some? || (lasting && Revokes(e.value, id, generation)))
      && (IsDeleted(c.keys, Cut(w'.disk.copies), id) <==>
            IsDeleted(c.keys, Cut(w.disk.copies), id) || (lasting && e.value.jarId == id && e.value.reason.Deleted?))
  {
    hide Inv, Blocked, IsDeleted, Combined, EntryOf, Durable;
    var w, w', s := ws[i], ws[i + 1], steps[i];
    RunKeepsInv(c, ws, steps, i);
    InvIsCopiesOk(c, w);
    assert Next(c, w, s, w');
    hide Next, Run, CopiesOk;
    StepFoldsItsEntry(c, w, s, w');
    BlockedIsBarred(c.keys, Cut(w.disk.copies), id, generation);
    BlockedIsBarred(c.keys, Cut(w'.disk.copies), id, generation);
    if EntryOf(c, w.disk, s, w'.now).Some? { FoldBars(Combined(c.keys, Cut(w.disk.copies)), EntryOf(c, w.disk, s, w'.now).value, id, generation); }
  }

  lemma InvIsCopiesOk(c: Config, w: World)
    requires Inv(c, w)
    ensures CopiesOk(c, w)
  {}

  /** With nothing put back, the files hold exactly the join of the durable entries, a torn last line
      aside. */
  lemma {:induction false} FilesHoldTheDurable(c: Config, ws: seq<World>, steps: seq<Step>, i: nat)
    requires Run(c, ws, steps) && i < |ws| && Untampered(steps, 0, i)
    ensures Combined(c.keys, Cut(ws[i].disk.copies)) == FoldAll(ws[i].hist.durable) && ws[i].disk.copies.log.readable
    decreases i
  {
    if i == 0 {
      assert ws[0].disk.copies == Copies(Log([], false, true), Unusable);
    } else {
      hide Inv, Next, Combined, Cut, FoldAll;
      FilesHoldTheDurable(c, ws, steps, i - 1);
      RunKeepsInv(c, ws, steps, i - 1);
      InvIsCopiesOk(c, ws[i - 1]);
      assert Next(c, ws[i - 1], steps[i - 1], ws[i]);
      StepKeepsTheDurable(c, ws[i - 1], steps[i - 1], ws[i]);
    }
  }

  lemma StepKeepsTheDurable(c: Config, w: World, s: Step, w': World)
    requires CopiesOk(c, w) && Next(c, w, s, w') && !s.Tamper?
    requires Combined(c.keys, Cut(w.disk.copies)) == FoldAll(w.hist.durable)
    ensures Combined(c.keys, Cut(w'.disk.copies)) == FoldAll(w'.hist.durable) && w'.disk.copies.log.readable == w.disk.copies.log.readable
  {
    hide CopiesOk, Combined, Cut, FoldAll, EntryOf, Durable, Perform, Allowed, NextHistory;
    StepFoldsItsEntry(c, w, s, w');
    HistoryOfEntry(c, w, s, w'.now);
    if EntryOf(c, w.disk, s, w'.now).Some? { FoldAllStep(w.hist.durable, EntryOf(c, w.disk, s, w'.now).value); }
    assert w.hist.durable + [] == w.hist.durable;
  }

  /** So there blocked, deleted and the high-water are exactly the durable ones, appends that were cut
      short or lost among them, a torn last line aside. */
  lemma InEffectUpToTheTear(c: Config, ws: seq<World>, steps: seq<Step>, i: nat, id: JarId, generation: int)
    requires Run(c, ws, steps) && i < |ws| && Untampered(steps, 0, i)
    ensures var files := Cut(ws[i].disk.copies);
      && (Blocked(c.keys, files, id, generation).Some? <==> Secured(ws[i], id, generation))
      && (IsDeleted(c.keys, files, id) <==> SecuredDelete(ws[i], id))
      && HighWater(c.keys, files, id) == SecuredMark(ws[i], id)
  {
    hide Run, Combined, FoldAll;
    FilesHoldTheDurable(c, ws, steps, i);
  }

  /** Once marked as deleted, an id never loads and is never saved to again. */
  lemma DeletedNeverReturns(c: Config, d: Disk, id: JarId, now: int, fresh': JarId, a: SaveArgs, stop: Stop, ok: bool)
    requires IsDeleted(c.keys, d.copies, id)
    ensures Load(c, d, id, now).Err? && !RecheckLoadable(c, d, id, now) && Listed(c, d, id, now).None?
    ensures Save(c, d, Some(id), fresh', a, now, stop, ok).1.Err? && Save(c, d, Some(id), fresh', a, now, stop, ok).0 == d
  {
    hide Combined;
  }

  /** After a delete whose entry is durable, whatever befell the rest of it, no version of the id loads,
      is listed or is refreshed at any later point of the run. */
  lemma DeleteIsForever(c: Config, ws: seq<World>, steps: seq<Step>, i: nat, j: nat, now: int, a: SaveArgs, stop: Stop, ok: bool)
    requires Run(c, ws, steps) && i < j < |ws|
    requires c.keys != [] && steps[i].DoDelete? && ws[i].disk.copies.log.readable
    requires Durable(ws[i].disk.copies, steps[i].luck.anchorOk, steps[i].luck.stop)
    ensures var id, d := steps[i].id, ws[j].disk;
      && Load(c, d, id, now).Err? && !RecheckLoadable(c, d, id, now) && Listed(c, d, id, now).None?
      && Save(c, d, Some(id), id, a, now, stop, ok) == (d, Save(c, d, Some(id), id, a, now, stop, ok).1)
      && Save(c, d, Some(id), id, a, now, stop, ok).1.Err?
  {
    hide Load, RecheckLoadable, Listed, Save, IsDeleted, ReadMeta, Perform, Durable, SecuredDelete, Secured, Allowed, NextHistory;
    var id, d := steps[i].id, ws[j].disk;
    assert Next(c, ws[i], steps[i], ws[i + 1]);
    DurableEntryIsSecured(c, ws[i], steps[i], ws[i + 1]);
    RevocationIsPermanent(c, ws, steps, i + 1, j, id, 0);
    DeletedNeverReturns(c, d, id, now, id, a, stop, ok);
  }

  // ---------------------------------------------------------------- invalidation

  /** The file an invalidation finds is the newest version there ever was, or one it cannot trust. */
  ghost predicate NewestInPlace(c: Config, w: World, id: JarId) {
    var o := Verified(c, w.disk, id);
    o.Ok? ==> forall b <- w.hist.blobs :: b.Sealed? && b.bound.jarId == id ==> b.bound.generation <= o.value.meta.generation
  }

  /** After an invalidation that found the newest version in place and whose entry is durable, no version
      that was on disk before it ever loads again, whatever is put back. */
  lemma InvalidationCoversTheIdsPast(c: Config, ws: seq<World>, steps: seq<Step>, i: nat, j: nat, now: int)
    requires Run(c, ws, steps) && i < j < |ws|
    requires c.keys != [] && steps[i].DoInvalidate? && ws[i].disk.copies.log.readable
    requires Durable(ws[i].disk.copies, steps[i].luck.anchorOk, steps[i].luck.stop)
    requires NewestInPlace(c, ws[i], steps[i].id)
    requires steps[i].id in ws[i].hist.saves ==> ws[i].hist.saves[steps[i].id] <= MAX_GENERATION
    ensures Load(c, ws[j].disk, steps[i].id, now).Ok? ==> ws[j].disk.files[steps[i].id].blob !in ws[i].hist.blobs
  {
    hide Load, Blocked, Verified, RecheckLoadable, Perform, Durable, Allowed, NextHistory, HoldsOk, CopiesOk, Combined;
    var id := steps[i].id;
    RunKeepsInv(c, ws, steps, i);
    RunKeepsInv(c, ws, steps, j);
    assert Next(c, ws[i], steps[i], ws[i + 1]);
    var e := EntryOf(c, ws[i].disk, steps[i], ws[i + 1].now).value;
    DurableEntryIsSecured(c, ws[i], steps[i], ws[i + 1]);
    FourViews(c, ws[j].disk, id, now);
    if Load(c, ws[j].disk, id, now).Ok? && ws[j].disk.files[id].blob in ws[i].hist.blobs {
      OpenedWasSealed(c, ws[j], id);
      var b := ws[j].disk.files[id].blob;
      assert BlobOk(ws[i].hist, ws[i].disk.audit, b);
      assert b.bound.generation <= e.generation;
      RevocationIsPermanent(c, ws, steps, i + 1, j, id, b.bound.generation);
      assert false;
    }
  }

  lemma FourViews(c: Config, d: Disk, id: JarId, now: int)
    requires c.keys != []
    ensures Load(c, d, id, now).Ok? ==>
      && Verified(c, d, id).Ok? && Load(c, d, id, now) == Verified(c, d, id)
      && Blocked(c.keys, d.copies, id, Verified(c, d, id).value.meta.generation).None?
      && !TtlExpired(c, Verified(c, d, id).value.meta, now)
  {
    FourViewsAgree(c, d, id, now);
  }

  // ---------------------------------------------------------------- refresh

  /** A login that ends with the browser is kept for `ttl` seconds from `anchor` on. */
  ghost predicate RetentionOver(held: StorageState, anchor: int, ttl: int, now: int) {
    now > anchor + ttl && exists k <- held.cookies :: k.expires.None? || k.expires.value < 0
  }

  lemma ExpiredIsOver(c: Config, m: Meta, held: StorageState, now: int)
    requires m.containsSession == StatsOf(held).containsSession && m.ttlAnchor.Some?
    ensures TtlExpired(c, m, now) <==> RetentionOver(held, m.ttlAnchor.value, c.sessionTtl, now)
  {}

  /** A refresh publishes strictly above every tombstone, before and after. It tombstones the generation
      it supersedes, unless the log was torn and the anchor write failed; what it leaves loads at once
      unless its retention has run out. */
  lemma RefreshPublishesAbove(c: Config, d: Disk, id: JarId, a: SaveArgs, now: int, stop: Stop, ok: bool)
    requires Sane(d.copies) && Save(c, d, Some(id), id, a, now, stop, ok).1.Ok?
    ensures var (d', r) := Save(c, d, Some(id), id, a, now, stop, ok);
      var was := Verified(c, d, id);
      && was.Ok?
      && HighWater(c.keys, d.copies, id) < r.value.generation && HighWater(c.keys, d'.copies, id) < r.value.generation
      && was.value.meta.generation < r.value.generation
      && (Blocked(c.keys, d'.copies, id, was.value.meta.generation).Some? <==>
            Tight(d.copies) || ok || Blocked(c.keys, Cut(d.copies), id, was.value.meta.generation).Some?)
      && Blocked(c.keys, d'.copies, id, r.value.generation).None?
      && (Load(c, d', id, now).Ok? <==>
            !RetentionOver(Filtered(a.raw, r.value.origins, r.value.mode),
                           if a.savedBy.Human? then now
                           else if was.value.meta.ttlAnchor.Some? then was.value.meta.ttlAnchor.value else was.value.meta.updatedAt,
                           c.sessionTtl, now))
      && Verified(c, d', id) == Ok(Opened(r.value, Payload(Filtered(a.raw, r.value.origins, r.value.mode), a.probe.value)))
  {
    hide Combined, Recorded, Filtered, StatsOf, NormalizeLabel, ResolveRefreshScope, Load, Save, Blocked, Verified, Target, Cut;
    var s := DoSave(Some(id), id, a, stop, ok);
    var d' := Perform(c, d, s, now);
    assert SaveResult(c, d, s, now).Ok?;
    SavedMeta(c, d, s, now);
    TargetFacts(c, d, id, a);
    var m := SaveResult(c, d, s, now).value;
    var old' := Verified(c, d, id).value.meta;
    SaveOnCopies(c, d, s, now);
    SavedEntry(c, d, s, now);
    var e := Entry(id, old'.generation, Invalidated);
    RecordedBlocks(c.keys, d.copies, e, ok, NoStop, id, old'.generation);
    MarkAfterRecord(c.keys, d.copies, e, ok, NoStop);
    AboveTheMark(c.keys, d'.copies, id, m.generation);
    SealedOpens(c, d', m, Payload(Filtered(a.raw, m.origins, m.mode), a.probe.value));
    LoadsIff(c, d', id, now);
    ExpiredIsOver(c, m, Filtered(a.raw, m.origins, m.mode), now);
  }

  /** Recording an invalidation raises the mark to the entry at most, and deletes nothing. */
  lemma MarkAfterRecord(keys: seq<Key>, copies: Copies, e: Entry, ok: bool, stop: RecordStop)
    requires keys != [] && Sane(copies) && copies.log.readable && e.reason.Invalidated? && !IsDeleted(keys, copies, e.jarId)
    ensures var after := Recorded(keys, copies, e, ok, stop);
      && after.log.readable && !IsDeleted(keys, after, e.jarId)
      && HighWater(keys, after, e.jarId) <= Max(e.generation, HighWater(keys, copies, e.jarId))
      && (Lands(copies, ok, stop) ==> HighWater(keys, after, e.jarId) >= e.generation)
      && (!Lands(copies, ok, stop) ==> HighWater(keys, after, e.jarId) <= HighWater(keys, copies, e.jarId))
      && 0 <= HighWater(keys, copies, e.jarId)
  {
    RecordedFolds(keys, copies, e, ok, stop);
    CutIsAtMost(keys, copies);
    hide Combined, Recorded, Cut, Lands, HighWater, IsDeleted, Fold, AtMost, NonNegative;
    LowerMark(keys, Cut(copies), copies, e.jarId);
    MoveOfMark(keys, Cut(copies), Recorded(keys, copies, e, ok, stop), e);
  }

  lemma LowerMark(keys: seq<Key>, less: Copies, more: Copies, id: JarId)
    requires AtMost(Combined(keys, less), Combined(keys, more)) && NonNegative(Combined(keys, more))
    requires less.log.readable && more.log.readable
    ensures HighWater(keys, less, id) <= HighWater(keys, more, id) && 0 <= HighWater(keys, more, id)
    ensures IsDeleted(keys, less, id) ==> IsDeleted(keys, more, id)
  {
    hide Combined;
  }

  /** How a fold of an invalidation moves the mark. */
  lemma MoveOfMark(keys: seq<Key>, before: Copies, after: Copies, e: Entry)
    requires before.log.readable && after.log.readable && e.reason.Invalidated? && !IsDeleted(keys, before, e.jarId)
    ensures Combined(keys, after) == Fold(Combined(keys, before), e) ==>
              HighWater(keys, after, e.jarId) == Max(e.generation, HighWater(keys, before, e.jarId)) && !IsDeleted(keys, after, e.jarId)
    ensures Combined(keys, after) == Combined(keys, before) ==>
              HighWater(keys, after, e.jarId) == HighWater(keys, before, e.jarId) && !IsDeleted(keys, after, e.jarId)
  {
    hide Combined;
  }

  lemma AboveTheMark(keys: seq<Key>, copies: Copies, id: JarId, generation: int)
    requires copies.log.readable && !IsDeleted(keys, copies, id) && HighWater(keys, copies, id) < generation
    ensures Blocked(keys, copies, id, generation).None?
  {
    hide Combined;
  }

  lemma TargetFacts(c: Config, d: Disk, id: JarId, a: SaveArgs)
    requires Target(c, d, Some(id), a).Ok?
    ensures Verified(c, d, id).Ok? && Target(c, d, Some(id), a) == Ok(Some(Verified(c, d, id).value.meta))
    ensures d.copies.log.readable && !IsDeleted(c.keys, d.copies, id) && HighWater(c.keys, d.copies, id) < MAX_GENERATION
    ensures a.precondition.Some? ==> Blocked(c.keys, d.copies, id, a.precondition.value).None?
  {
    hide Combined, Verified;
  }

  lemma SavedEntry(c: Config, d: Disk, s: Step, now: int)
    requires s.DoSave? && s.jarId.Some? && SaveResult(c, d, s, now).Ok?
    ensures EntryOf(c, d, s, now) == Some(Entry(s.jarId.value, Target(c, d, s.jarId, s.a).value.value.generation, Invalidated))
    ensures LuckOf(s) == Luck(NoStop, s.anchorOk, true, true)
  {
    hide Target, NewVersion, Recorded;
  }

  lemma SealedOpens(c: Config, d: Disk, m: Meta, payload: Payload)
    requires c.keys != [] && Plain(m.title)
    requires m.jarId in d.files && d.files[m.jarId] == Seal(c.keys[0], m, payload)
    ensures Verified(c, d, m.jarId) == Ok(Opened(m, payload))
  {
    PlainIsUnchanged(m.title);
  }

  lemma LoadsIff(c: Config, d: Disk, id: JarId, now: int)
    requires c.keys != [] && Verified(c, d, id).Ok?
    ensures var m := Verified(c, d, id).value.meta;
      Load(c, d, id, now).Ok? <==> m.invalidatedAt.None? && Blocked(c.keys, d.copies, id, m.generation).None? && !TtlExpired(c, m, now)
    ensures Load(c, d, id, now).Ok? ==> Load(c, d, id, now) == Verified(c, d, id)
  {
    FourViewsAgree(c, d, id, now);
    hide Blocked;
  }

  /** Wherever a refresh fails or stops, the file is exactly the old or exactly the new version, and the
      old generation is tombstoned whenever the new version is on disk, unless the log was torn and the
      anchor write failed. Before the log append nothing but the audit log has changed; an append cut
      short leaves the old version as loadable as it was, or revoked if the line got through but for its
      newline. The audit entry comes before everything else. */
  lemma RefreshIsCrashConsistent(c: Config, d: Disk, id: JarId, a: SaveArgs, now: int, stop: Stop, ok: bool)
    requires Sane(d.copies)
    ensures var (d', r) := Save(c, d, Some(id), id, a, now, stop, ok);
      && (r.Err? ==> d'.files == d.files)
      && (r.Ok? ==>
            && d'.files == d.files[id := d'.files[id]] && Verified(c, d', id).Ok? && Verified(c, d', id).value.meta == r.value
            && (Tight(d.copies) || ok || Blocked(c.keys, Cut(d.copies), id, Verified(c, d, id).value.meta.generation).Some? <==>
                Blocked(c.keys, d'.copies, id, Verified(c, d, id).value.meta.generation).Some?))
      && (stop.AtAudit? || stop.BeforeAppend? ==>
            d'.copies == d.copies && (Load(c, d', id, now).Ok? <==> Load(c, d, id, now).Ok?))
      && (d'.copies != d.copies || d'.files != d.files ==> exists g :: d'.audit == d.audit + [AuditEntry(Refreshed, id, g)])
  {
    hide Load, Combined, Recorded, Filtered, StatsOf, NormalizeLabel, ResolveRefreshScope, Target, NewVersion, Verified, Cut, Tight;
    var (d', r) := Save(c, d, Some(id), id, a, now, stop, ok);
    if r.Ok? {
      RefreshPublishesAbove(c, d, id, a, now, stop, ok);
    }
    StoppedEarly(c, d, id, a, now, stop, ok);
    SameRevocationSameLoad(c, d, d', id, now);
    var t := Target(c, d, Some(id), a);
    if c.keys != [] && a.rawSize <= c.maxBytes && t.Ok? && NewVersion(c, d, t.value, id, a, now).Ok? && !stop.AtAudit? {
      var m := NewVersion(c, d, t.value, id, a, now).value.meta;
      assert d'.audit == d.audit + [AuditEntry(Refreshed, id, m.generation)];
    }
  }

  /** What is blocked once a refresh has reached the log, wherever it stopped from there on: for the id
      itself and for every other one. */
  lemma StoppedRefreshBlocks(c: Config, d: Disk, id: JarId, a: SaveArgs, now: int, stop: Stop, ok: bool, k: JarId, generation: int)
    requires Sane(d.copies) && !stop.AtAudit? && !stop.BeforeAppend?
    requires Save(c, d, Some(id), id, a, now, Never, ok).1.Ok?
    ensures var d' := Save(c, d, Some(id), id, a, now, stop, ok).0;
      && Verified(c, d, id).Ok?
      && (Blocked(c.keys, d'.copies, k, generation).Some? <==>
            || Blocked(c.keys, Cut(d.copies), k, generation).Some?
            || (Lands(d.copies, ok, RecordStopOf(stop)) && k == id && generation <= Max(Verified(c, d, id).value.meta.generation, 0)))
  {
    hide Combined, Recorded, Filtered, StatsOf, NormalizeLabel, ResolveRefreshScope, Verified, Blocked, Cut, Lands;
    ReachedTheLog(c, d, id, a, now, stop, ok);
    var e := Entry(id, Verified(c, d, id).value.meta.generation, Invalidated);
    RecordedBlocks(c.keys, d.copies, e, ok, RecordStopOf(stop), k, generation);
  }

  lemma ReachedTheLog(c: Config, d: Disk, id: JarId, a: SaveArgs, now: int, stop: Stop, ok: bool)
    requires !stop.AtAudit? && !stop.BeforeAppend?
    requires Save(c, d, Some(id), id, a, now, Never, ok).1.Ok?
    ensures c.keys != [] && d.copies.log.readable && Verified(c, d, id).Ok?
    ensures !IsDeleted(c.keys, d.copies, id) && HighWater(c.keys, d.copies, id) < MAX_GENERATION
    ensures Save(c, d, Some(id), id, a, now, stop, ok).0.copies ==
              Recorded(c.keys, d.copies, Entry(id, Verified(c, d, id).value.meta.generation, Invalidated), ok, RecordStopOf(stop))
    ensures !stop.Never? ==> Save(c, d, Some(id), id, a, now, stop, ok).0.files == d.files
  {
    hide Combined, Recorded, NewVersion, Verified, Blocked;
    TargetFacts(c, d, id, a);
  }

  lemma StoppedEarly(c: Config, d: Disk, id: JarId, a: SaveArgs, now: int, stop: Stop, ok: bool)
    ensures stop.AtAudit? || stop.BeforeAppend? ==>
              Save(c, d, Some(id), id, a, now, stop, ok).0.copies == d.copies && Save(c, d, Some(id), id, a, now, stop, ok).0.files == d.files
  {
    hide Target, NewVersion, Recorded;
  }

  lemma SameRevocationSameLoad(c: Config, d: Disk, d': Disk, id: JarId, now: int)
    ensures d.files == d'.files && d.copies == d'.copies ==> Load(c, d, id, now) == Load(c, d', id, now)
  {
    hide Combined;
  }

  /** A refresh that stopped inside the log append, between append and anchor or before the rename is
      completed by the same request made again without a precondition, exactly when its entry did not
      come into effect or the generation on disk is below the terminal marker. */
  lemma StoppedRefreshIsRecoverable(c: Config, d: Disk, id: JarId, a: SaveArgs, now: int, stop: Stop, ok: bool, later: int, ok2: bool)
    requires Sane(d.copies) && (stop.AtAppend? || stop.BeforeAnchor? || stop.BeforeRename?)
    requires Save(c, d, Some(id), id, a, now, Never, ok).1.Ok?
    ensures var d' := Save(c, d, Some(id), id, a, now, stop, ok).0;
      Verified(c, d, id).Ok? &&
      (Save(c, d', Some(id), id, a.(precondition := None), later, Never, ok2).1.Ok? <==>
       Verified(c, d, id).value.meta.generation < MAX_GENERATION || !Lands(d.copies, ok, RecordStopOf(stop)))
  {
    ReachedTheLog(c, d, id, a, now, stop, ok);
    var d' := Save(c, d, Some(id), id, a, now, stop, ok).0;
    var e := Entry(id, Verified(c, d, id).value.meta.generation, Invalidated);
    MarkAfterRecord(c.keys, d.copies, e, ok, RecordStopOf(stop));
    SameFilesSameRead(c, d, d', id);
    RepeatedSave(c, d, d', id, a, now, later, ok, ok2);
  }

  /** The same request over the same file succeeds again as far as the marks allow. */
  lemma RepeatedSave(c: Config, d: Disk, d': Disk, id: JarId, a: SaveArgs, now: int, later: int, ok: bool, ok2: bool)
    requires Save(c, d, Some(id), id, a, now, Never, ok).1.Ok? && Verified(c, d', id) == Verified(c, d, id)
    ensures Save(c, d', Some(id), id, a.(precondition := None), later, Never, ok2).1.Ok? <==>
              !IsDeleted(c.keys, d'.copies, id) && HighWater(c.keys, d'.copies, id) < MAX_GENERATION
  {
    hide Combined, Recorded, Filtered, StatsOf, NormalizeLabel, ResolveRefreshScope, Verified, Blocked, IsDeleted, HighWater;
  }

  lemma SameFilesSameRead(c: Config, d: Disk, d': Disk, id: JarId)
    requires d.files == d'.files
    ensures Verified(c, d, id) == Verified(c, d', id) && ReadMeta(d, id) == ReadMeta(d', id)
  {}

  /** Held by a session, a revoked generation is never refreshed over: the check runs under the store's
      own lock, against whatever other processes have recorded by then. */
  lemma RevokedPreconditionPublishesNothing(c: Config, d: Disk, id: JarId, a: SaveArgs, now: int, stop: Stop, ok: bool)
    requires a.precondition.Some? && Blocked(c.keys, d.copies, id, a.precondition.value).Some?
    ensures Save(c, d, Some(id), id, a, now, stop, ok).0 == d && Save(c, d, Some(id), id, a, now, stop, ok).1.Err?
  {
    hide Blocked, IsDeleted, HighWater;
  }

  /** Loading takes no lock: it reads the file first and the revocation copies later. What it accepts
      then was loadable as a whole at the moment the file was read, if nothing recorded until then was
      ever lost. */
  lemma LoadNeedsNoLock(c: Config, ws: seq<World>, steps: seq<Step>, i: nat, j: nat, id: JarId, now: int)
    requires Run(c, ws, steps) && i <= j < |ws| && ws[i].disk.copies.log.readable && NothingLost(ws[i])
    ensures var mixed := ws[i].disk.(copies := ws[j].disk.copies);
      Load(c, mixed, id, now).Ok? ==> Load(c, ws[i].disk, id, now) == Load(c, mixed, id, now)
  {
    hide Run, Blocked, Open, Secured, NothingLost;
    var meta := ReadMeta(ws[i].disk, id);
    if meta.Ok? {
      InEffectIsSecured(c, ws, steps, i, id, meta.value.generation);
      RevocationIsPermanent(c, ws, steps, i, j, id, meta.value.generation);
    }
  }

  // ---------------------------------------------------------------- what loads

  /** Whatever loads in a run, after any tampering, was sealed by the store for this id: under an audit
      entry, inside the scope the id was created with, unrevoked. Every cookie in it is sent to some
      origin of that scope, all its storage belongs to one, and if it holds a browser-session cookie it
      loads no later than the latest human save plus the retention. */
  lemma WhatLoadsIsGenuine(c: Config, ws: seq<World>, steps: seq<Step>, j: nat, id: JarId, now: int)
    requires Run(c, ws, steps) && j < |ws| && Load(c, ws[j].disk, id, now).Ok?
    ensures var o, h := Load(c, ws[j].disk, id, now).value, ws[j].hist;
      var m, held := o.meta, o.payload.state;
      && m.jarId == id && id in h.saves && id in h.human && id in h.scope
      && 1 <= m.generation <= h.saves[id]
      && Audited(ws[j].disk.audit, id, m.generation)
      && Narrows(Scope(m.origins, m.allowlist, m.mode), h.scope[id])
      && (forall k <- held.cookies :: exists o <- m.origins :: SentTo(k, o))
      && (forall e <- held.origins :: e.origin.Some? && e.origin.value in m.origins)
      && (m.mode.CookiesOnly? ==> held.origins == [])
      && ((exists k <- held.cookies :: IsSession(k)) ==> now <= h.human[id] + c.sessionTtl)
  {
    hide Run, Load, Blocked, CopiesOk;
    RunKeepsInv(c, ws, steps, j);
    assert c.keys != [] by { LoadNeedsKeys(c, ws[j].disk, id, now); }
    FourViews(c, ws[j].disk, id, now);
    OpenedWasSealed(c, ws[j], id);
    var blob := ws[j].disk.files[id].blob;
    var b := blob.bound;
    assert BlobOk(ws[j].hist, ws[j].disk.audit, blob);
    PayloadIsSealed(c, ws[j].disk, id);
    hide Verified;
    var m := Verified(c, ws[j].disk, id).value.meta;
    assert b == BoundOf(m, ws[j].disk.files[id].keyId);
    assert forall o <- m.origins :: o in b.origins;
    assert forall o <- m.allowlist :: o in b.allowlist;
    assert forall o <- b.origins :: o in m.origins;
  }

  lemma PayloadIsSealed(c: Config, d: Disk, id: JarId)
    requires Verified(c, d, id).Ok?
    ensures Verified(c, d, id).value.payload == d.files[id].blob.payload
  {}

  lemma LoadNeedsKeys(c: Config, d: Disk, id: JarId, now: int)
    requires Load(c, d, id, now).Ok?
    ensures c.keys != []
  {}

  /** While an id has been saved at most 2^63 - 1 times, its terminal marker blocks every version of it
      that was ever on disk, and it is never saved to again. */
  lemma TerminalMarkerBlocksAll(c: Config, ws: seq<World>, steps: seq<Step>, i: nat, j: nat, b: Blob, a: SaveArgs, now: int, stop: Stop, ok: bool)
    requires Run(c, ws, steps) && i <= j < |ws|
    requires b in ws[j].hist.blobs && b.Sealed?
    requires SecuredMark(ws[i], b.bound.jarId) >= MAX_GENERATION
    requires b.bound.jarId in ws[j].hist.saves ==> ws[j].hist.saves[b.bound.jarId] <= MAX_GENERATION
    ensures Blocked(c.keys, ws[j].disk.copies, b.bound.jarId, b.bound.generation).Some?
    ensures Save(c, ws[j].disk, Some(b.bound.jarId), b.bound.jarId, a, now, stop, ok).1.Err?
    ensures Save(c, ws[j].disk, Some(b.bound.jarId), b.bound.jarId, a, now, stop, ok).0 == ws[j].disk
  {
    hide Run, Combined, Verified, NewVersion, FoldAll, CopiesOk, HoldsOk;
    var id := b.bound.jarId;
    RunKeepsInv(c, ws, steps, j);
    assert BlobOk(ws[j].hist, ws[j].disk.audit, b);
    assert Secured(ws[i], id, b.bound.generation);
    RevocationIsPermanent(c, ws, steps, i, j, id, b.bound.generation);
  }
}
