/** What a jar holds: `load` after `save` returns exactly the filtered state. */
module JarContents {
  import opened Tombstones
  import opened CookieScope
  import opened JarEnvelope
  import opened JarStore
  import opened JarRuns
  import opened JarGuarantees
  import opened JarCounting

  /** Step `k` publishes a version of `id`. */
  ghost predicate Publishes(c: Config, ws: seq<World>, steps: seq<Step>, k: nat, id: JarId)
    requires k < |steps| && k + 1 < |ws|
  {
    steps[k].DoSave? && SaveResult(c, ws[k].disk, steps[k], ws[k + 1].now).Ok?
    && SaveResult(c, ws[k].disk, steps[k], ws[k + 1].now).value.jarId == id
  }

  /** The file of `id` is gone or opens to `payload` at `generation`. */
  predicate HoldsStill(c: Config, d: Disk, id: JarId, payload: Payload, generation: int) {
    id in d.files ==>
      Verified(c, d, id).Ok? && Verified(c, d, id).value.payload == payload && Verified(c, d, id).value.meta.generation == generation
  }

  function SavedPayload(a: SaveArgs, m: Meta): Payload
    requires a.probe.Some?
  {
    Payload(Filtered(a.raw, m.origins, m.mode), a.probe.value)
  }

  /** A successful save leaves a record that opens to its metadata and the filtered state, and that loads
      until its retention runs out. */
  lemma SavedLoads(c: Config, w: World, s: Step, w': World, later: int)
    requires Inv(c, w) && Next(c, w, s, w') && s.DoSave? && SaveResult(c, w.disk, s, w'.now).Ok?
    ensures var m := SaveResult(c, w.disk, s, w'.now).value;
      && s.a.probe.Some?
      && Verified(c, w'.disk, m.jarId) == Ok(Opened(m, SavedPayload(s.a, m)))
      && m.ttlAnchor.Some?
      && (w.disk.copies.log.readable ==>
            (Load(c, w'.disk, m.jarId, later).Ok? <==> !RetentionOver(SavedPayload(s.a, m).state, m.ttlAnchor.value, c.sessionTtl, later)))
  {
    hide Perform, EntryOf, Save, Inv, Verified, Filtered, StatsOf, ResolvedScope, Allowed, NextHistory, Blocked, Load, Open, Combined, NormalizeLabel, TtlExpired, Bounded;
    SavedMeta(c, w.disk, s, w'.now);
    var m := SaveResult(c, w.disk, s, w'.now).value;
    SealedOpens(c, w'.disk, m, SavedPayload(s.a, m));
    LoadsIff(c, w'.disk, m.jarId, later);
    ExpiredIsOver(c, m, SavedPayload(s.a, m).state, later);
    CopiesMove(c, w, s, w');
    if w.disk.copies.log.readable {
      if s.jarId.Some? {
        SavedAsRefresh(c, w.disk, s, w'.now);
        RefreshPublishesAbove(c, w.disk, s.jarId.value, s.a, w'.now, s.stop, s.anchorOk);
      } else {
        FreshIdHasNoMark(c, w, s);
        NewJarRecordsNothing(c, w.disk, s, w'.now);
        AboveTheMark(c.keys, w'.disk.copies, m.jarId, m.generation);
      }
    }
  }

  lemma SavedAsRefresh(c: Config, d: Disk, s: Step, now: int)
    requires s.DoSave? && s.jarId.Some?
    ensures Save(c, d, Some(s.jarId.value), s.jarId.value, s.a, now, s.stop, s.anchorOk).1 == SaveResult(c, d, s, now)
    ensures Save(c, d, Some(s.jarId.value), s.jarId.value, s.a, now, s.stop, s.anchorOk).0 == Perform(c, d, s, now)
  {}

  lemma StepHoldsStill(c: Config, w: World, s: Step, w': World, id: JarId, payload: Payload, generation: int)
    requires Next(c, w, s, w') && !s.Tamper? && HoldsStill(c, w.disk, id, payload, generation)
    requires s.DoSave? && SaveResult(c, w.disk, s, w'.now).Ok? ==> SaveResult(c, w.disk, s, w'.now).value.jarId != id
    ensures HoldsStill(c, w'.disk, id, payload, generation)
  {
    hide Perform, EntryOf, Save, Verified, Filtered, StatsOf, ResolvedScope, Allowed, NextHistory, Open;
    if s.DoSave? && SaveResult(c, w.disk, s, w'.now).Ok? {
      SavedMeta(c, w.disk, s, w'.now);
      OneFileDecides(c, w.disk, w'.disk, id);
    } else {
      if id in w'.disk.files && id !in w.disk.files { NewFilesAreSaved(c, w.disk, s, w'.now, id); }
      if id in w.disk.files {
        StepKeepsFile(c, w.disk, s, w'.now, id);
        FilesDecideTheRead(c, w.disk.(files := w'.disk.files), w'.disk, id);
      }
    }
  }

  lemma OneFileDecides(c: Config, d: Disk, d': Disk, id: JarId)
    requires id in d.files <==> id in d'.files
    requires id in d.files ==> d.files[id] == d'.files[id]
    ensures Verified(c, d, id) == Verified(c, d', id)
  {
    hide Open;
  }

  lemma {:induction false} SavedStays(c: Config, ws: seq<World>, steps: seq<Step>, i: nat, j: nat, id: JarId, payload: Payload, generation: int)
    requires Run(c, ws, steps) && i <= j < |ws| && HoldsStill(c, ws[i].disk, id, payload, generation)
    requires forall k | i <= k < j :: !steps[k].Tamper? && !Publishes(c, ws, steps, k, id)
    ensures HoldsStill(c, ws[j].disk, id, payload, generation)
    decreases j - i
  {
    hide HoldsStill, Next, Init, SaveResult;
    if i < j {
      SavedStays(c, ws, steps, i, j - 1, id, payload, generation);
      assert Next(c, ws[j - 1], steps[j - 1], ws[j]);
      StepHoldsStill(c, ws[j - 1], steps[j - 1], ws[j], id, payload, generation);
    }
  }

  /** Until the next save of the id, with nothing put back meanwhile, what loads is exactly the filtered
      state that was saved, whatever touches, probes and invalidations of it and saves of other jars fall
      in between; and right after the save it loads until its retention runs out. */
  lemma LoadReturnsWhatWasSaved(c: Config, ws: seq<World>, steps: seq<Step>, i: nat, j: nat, now: int)
    requires |ws| == |steps| + 1 && Run(c, ws, steps) && i < j < |ws|
    requires steps[i].DoSave? && SaveResult(c, ws[i].disk, steps[i], ws[i + 1].now).Ok?
    requires var id := SaveResult(c, ws[i].disk, steps[i], ws[i + 1].now).value.jarId;
      forall k | i < k < j :: !steps[k].Tamper? && !Publishes(c, ws, steps, k, id)
    ensures var m, a, d := SaveResult(c, ws[i].disk, steps[i], ws[i + 1].now).value, steps[i].a, ws[j].disk;
      && a.probe.Some?
      && (Load(c, d, m.jarId, now).Ok? ==>
            && Load(c, d, m.jarId, now).value.payload == Payload(Filtered(a.raw, m.origins, m.mode), a.probe.value)
            && Load(c, d, m.jarId, now).value.meta.generation == m.generation)
      && m.ttlAnchor.Some?
      && (j == i + 1 && ws[i].disk.copies.log.readable ==>
            (Load(c, d, m.jarId, now).Ok? <==> !RetentionOver(Filtered(a.raw, m.origins, m.mode), m.ttlAnchor.value, c.sessionTtl, now)))
  {
    hide *;
    RunStep(c, ws, steps, i);
    RunKeepsInv(c, ws, steps, i);
    SavedLoads(c, ws[i], steps[i], ws[i + 1], now);
    var m := SaveResult(c, ws[i].disk, steps[i], ws[i + 1].now).value;
    var held := SavedPayload(steps[i].a, m);
    SavedHolds(c, ws[i + 1].disk, m, held);
    SavedStays(c, ws, steps, i + 1, j, m.jarId, held, m.generation);
    WhatStillLoads(c, ws[j].disk, m.jarId, held, m.generation, now);
    HeldIsFiltered(steps[i].a, m);
  }

  /** The scope a successful save seals and leaves in the metadata. A new jar has the valid origins it
      was asked for. A refresh has what was requested, or what the jar had before; if it asked for cookies
      only, no storage is sealed. */
  lemma SavedScope(c: Config, w: World, s: Step, w': World)
    requires Next(c, w, s, w') && s.DoSave? && SaveResult(c, w.disk, s, w'.now).Ok?
    ensures var m, a := SaveResult(c, w.disk, s, w'.now).value, s.a;
      var o := Verified(c, w'.disk, m.jarId);
      && o.Ok? && o.value.meta == m
      && (s.jarId.None? ==>
            && m.origins == Valid(a.origins) && m.origins != []
            && m.allowlist == (if a.nav.Some? then Valid(a.nav.value) else [])
            && m.mode == (if a.mode.Some? then a.mode.value else All))
      && (s.jarId.Some? ==>
            && Verified(c, w.disk, m.jarId).Ok?
            && var was := Verified(c, w.disk, m.jarId).value.meta;
            && (if a.origins == [] then m.origins == was.origins else forall o :: o in m.origins <==> Some(o) in a.origins)
            && (if a.nav.None? then m.allowlist == was.allowlist else forall o :: o in m.allowlist <==> Some(o) in a.nav.value)
            && m.mode == (if a.mode.Some? then a.mode.value else was.mode))
      && (m.mode == CookiesOnly ==> o.value.payload.state.origins == [])
      && (a.mode == Some(CookiesOnly) ==> o.value.payload.state.origins == [])
  {
    hide Perform, EntryOf, Save, Verified, StatsOf, Allowed, NextHistory, NormalizeLabel, ResolveRefreshScope, SiftCookies, SiftStorage;
    SavedMeta(c, w.disk, s, w'.now);
    var m, a := SaveResult(c, w.disk, s, w'.now).value, s.a;
    SealedOpens(c, w'.disk, m, SavedPayload(a, m));
    if s.jarId.Some? {
      TargetFacts(c, w.disk, s.jarId.value, a);
      hide Target;
      var was := Verified(c, w.disk, m.jarId).value.meta;
      RefreshOnlyNarrows(Scope(was.origins, was.allowlist, was.mode), a.origins, a.nav, a.mode);
      RefreshListsAreSorted(Scope(was.origins, was.allowlist, was.mode), a.origins, a.nav, a.mode);
    }
  }

  lemma RunStep(c: Config, ws: seq<World>, steps: seq<Step>, i: nat)
    requires Run(c, ws, steps) && i < |steps|
    ensures |ws| == |steps| + 1 && Next(c, ws[i], steps[i], ws[i + 1])
  {}

  lemma HeldIsFiltered(a: SaveArgs, m: Meta)
    requires a.probe.Some?
    ensures SavedPayload(a, m) == Payload(Filtered(a.raw, m.origins, m.mode), a.probe.value)
  {}

  lemma SavedHolds(c: Config, d: Disk, m: Meta, payload: Payload)
    requires Verified(c, d, m.jarId) == Ok(Opened(m, payload))
    ensures HoldsStill(c, d, m.jarId, payload, m.generation)
  {}

  lemma WhatStillLoads(c: Config, d: Disk, id: JarId, payload: Payload, generation: int, now: int)
    requires HoldsStill(c, d, id, payload, generation)
    ensures Load(c, d, id, now).Ok? ==> Load(c, d, id, now).value.payload == payload && Load(c, d, id, now).value.meta.generation == generation
  {
    if Load(c, d, id, now).Ok? {
      LoadNeedsKeys(c, d, id, now);
      FourViews(c, d, id, now);
      hide Load, Open;
    }
  }
}
