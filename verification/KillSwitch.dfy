/** Sessions against the shared jar directory: a session of any process, the directory as every process
    changes it. */
module KillSwitch {
  import opened Tombstones
  import opened CookieScope
  import opened JarEnvelope
  import opened JarStore
  import opened Leases
  import opened Sessions
  import JarRuns
  import JarGuarantees
  import JarCounting
  import SessionRuns

  /** The session was loaded from the jar, or saved it, at generation `g` or below. */
  predicate Holds(s: View, id: JarId, g: int) {
    || (s.site.jarId == Some(id) && s.jarGeneration.Some? && s.jarGeneration.value <= g)
    || (id in s.produced && s.produced[id] <= g)
  }

  predicate TornDown(s: View) {
    s.state == Cancelled && s.owner == Nobody && s.worker.closed && forall t <- s.tokens :: s.tokens[t].consumed
  }

  /** Whether the operation gets as far as the revocation check. */
  predicate Reaches(s: View, e: SessionRuns.Event) {
    match e.op
    case AgentInput(cmd, _) => !ExpiredAt(s, e.now) && AgentHolds(s) && !Denied(s, cmd)
    case HumanInput(t, _, _) => !ExpiredAt(s, e.now) && HumanOk(s, t, false, e.now)
    case TakeBack(_, _) => !ExpiredAt(s, e.now) && s.state == HandoverRequested
    case SaveIt(actor, _, _, _, _, _) => !ExpiredAt(s, e.now) && (actor.ActingHuman? ==> HumanOk(s, actor.token, false, e.now))
    case AutofillIt(_, _, _, _) => !ExpiredAt(s, e.now) && AgentHolds(s)
    case _ => false
  }

  /** What the session read off the directory `d`. The second reading of a save comes later and may
      differ, and so may the later ones of an autofill call. */
  predicate Honest(c: Config, d: Disk, s: View, op: SessionRuns.Op) {
    match op
    case AgentInput(_, revoked) => revoked == RevokedFor(c, d, s)
    case HumanInput(_, revoked, _) => revoked == RevokedFor(c, d, s)
    case TakeBack(_, revoked) => revoked == RevokedFor(c, d, s)
    case SaveIt(_, _, _, revoked, _, _) => revoked == RevokedFor(c, d, s)
    case AutofillIt(revoked, _, _, _) => revoked == RevokedFor(c, d, s)
    case _ => true
  }

  /** A run of one session beside a run of the directory; `at[k]` is when its operation `k` looked. */
  ghost predicate Beside(c: Config, ws: seq<JarRuns.World>, steps: seq<JarRuns.Step>, ss: seq<View>, es: seq<SessionRuns.Event>, at: seq<nat>) {
    && JarRuns.Run(c, ws, steps) && SessionRuns.Run(ss, es) && |at| == |es|
    && (forall k | 0 <= k < |at| :: at[k] < |ws| && Honest(c, ws[at[k]].disk, ss[k], es[k].op))
    && (forall k, l | 0 <= k < l < |at| :: at[k] <= at[l])
  }

  lemma HeldIsRevoked(c: Config, ws: seq<JarRuns.World>, steps: seq<JarRuns.Step>, i: nat, j: nat, id: JarId, g: int, s: View)
    requires JarRuns.Run(c, ws, steps) && i <= j < |ws| && c.keys != []
    requires JarGuarantees.Secured(ws[i], id, g) && Holds(s, id, g)
    ensures RevokedFor(c, ws[j].disk, s)
  {
    hide JarRuns.Run, Blocked, FoldAll, IsDeleted;
    var held := if s.site.jarId == Some(id) && s.jarGeneration.Some? && s.jarGeneration.value <= g then s.jarGeneration.value else s.produced[id];
    JarGuarantees.RevocationIsPermanent(c, ws, steps, i, j, id, held);
  }

  ghost predicate OnlyService(log: seq<WorkerEvent>, n: nat) { forall k | n <= k < |log| :: log[k] == Sanitized || log[k] == Reopened }

  ghost predicate Silenced(s: View, t: View) {
    && s.log <= t.log && OnlyService(t.log, |s.log|)
    && t.site == s.site && t.jarGeneration == s.jarGeneration && t.produced == s.produced
  }

  predicate Checks(op: SessionRuns.Op) { op.AgentInput? || op.HumanInput? || op.TakeBack? || op.SaveIt? || op.AutofillIt? }

  lemma EnforceTearsDown(s: View)
    ensures var (t, torn) := Enforce(s, true);
      && torn == !Terminal(s.state) && (torn ==> TornDown(t)) && (!torn ==> t == s)
      && t.log == s.log && t.site == s.site && t.jarGeneration == s.jarGeneration && t.produced == s.produced
  {}

  lemma RevokedChecked(s: View, e: SessionRuns.Event)
    requires Checks(e.op)
    requires match e.op
             case AgentInput(_, r) => r case HumanInput(_, r, _) => r case TakeBack(_, r) => r case SaveIt(_, _, _, r, _, _) => r
             case AutofillIt(r, _, _, _) => r
    ensures var (t, r) := SessionRuns.Step(s, e);
      && Silenced(s, t)
      && (Reaches(s, e) && !Terminal(s.state) ==> TornDown(t) && t.log == s.log && r == Refused(Inactive))
  {
    EnforceTearsDown(s);
    hide Enforce, TornDown, TokenOk, ExpiredAt, Adopt, ConsumeKind, DriveAll, Drive;
  }

  lemma UncheckedIsSilent(s: View, e: SessionRuns.Event)
    requires !Checks(e.op)
    ensures Silenced(s, SessionRuns.Step(s, e).0)
  {
    hide RecheckLoadable, IsRevokedGeneration, Transition, ExpiredAt, TokenOk, HumanOk;
    if e.op.CompleteIt? {
      CompleteIsSilent(s, e.now, e.op.token);
      hide Complete;
    } else if e.op.HandOver? {
      HandoverIsSilent(s, e.now, e.op.token, e.mint, e.op.landed, e.op.fails);
      hide Handover;
    } else {
      hide Complete, Handover;
    }
  }

  lemma CompleteIsSilent(s: View, now: int, t: TokenId)
    ensures Silenced(s, Complete(s, now, t).0)
  {
    hide Transition, ExpiredAt, TokenOk, HumanOk, Sanitize;
    SessionRuns.SanitizeOutcome(Enter(s, SanitizePending));
  }

  lemma HandoverIsSilent(s: View, now: int, t: TokenId, mint: TokenId, landed: Page, fails: bool)
    ensures Silenced(s, Handover(s, now, t, mint, landed, fails).0)
  {
    hide Transition, ExpiredAt, TokenOk, HumanOk, PrepareHandover;
    PrepareIsSilent(s, landed, fails);
  }

  lemma PrepareIsSilent(s: View, landed: Page, fails: bool)
    ensures Silenced(s, PrepareHandover(s, landed, fails).0)
  {
    hide Perform;
  }

  lemma SilencedIsTransitive(s: View, t: View, u: View)
    requires Silenced(s, t) && Silenced(t, u)
    ensures Silenced(s, u)
  {}

  /** Once a generation is tombstoned durably, whatever any process publishes afterwards: in every session that
      holds the jar at that generation or below neither the agent nor the human reaches the worker any
      more, and the first operation that gets as far as the check leaves the session cancelled, its
      worker closed and its tokens spent. */
  lemma {:induction false} RevocationReachesTheSession(
    c: Config, ws: seq<JarRuns.World>, steps: seq<JarRuns.Step>, ss: seq<View>, es: seq<SessionRuns.Event>, at: seq<nat>,
    i: nat, id: JarId, g: int, k: nat, n: nat)
    requires Beside(c, ws, steps, ss, es, at) && c.keys != []
    requires i < |ws| && JarGuarantees.Secured(ws[i], id, g)
    requires k <= n < |es| && i <= at[k] && Holds(ss[k], id, g)
    ensures Silenced(ss[k], ss[n + 1]) && Holds(ss[n + 1], id, g)
    ensures Reaches(ss[n], es[n]) && !Terminal(ss[n].state) ==> TornDown(ss[n + 1]) && SessionRuns.Step(ss[n], es[n]).1 == Refused(Inactive)
    decreases n
  {
    hide Blocked, SessionRuns.Step, Reaches, JarRuns.Run, SessionRuns.Born, SessionRuns.Enabled, JarGuarantees.Secured;
    if k < n { RevocationReachesTheSession(c, ws, steps, ss, es, at, i, id, g, k, n - 1); }
    HeldIsRevoked(c, ws, steps, i, at[n], id, g, ss[n]);
    assert SessionRuns.Follows(ss, es, n);
    if Checks(es[n].op) {
      RevokedChecked(ss[n], es[n]);
    } else {
      UncheckedIsSilent(ss[n], es[n]);
      assert !Reaches(ss[n], es[n]) by { NotChecked(ss[n], es[n]); }
    }
    if k < n { SilencedIsTransitive(ss[k], ss[n], ss[n + 1]); }
  }

  lemma NotChecked(s: View, e: SessionRuns.Event)
    requires !Checks(e.op)
    ensures !Reaches(s, e)
  {}

  // ---------------------------------------------------------------- saving and the kill-switch

  /** Recording about another jar blocks nothing of `id` that was not blocked before, and unblocks
      nothing unless the log was torn. */
  lemma OtherIdsSpared(keys: seq<Key>, copies: Copies, e: Entry, ok: bool, stop: RecordStop, id: JarId, g: int)
    requires keys != [] && Sane(copies) && id != e.jarId
    ensures var after := Recorded(keys, copies, e, ok, stop);
      && (Blocked(keys, after, id, g).Some? ==> Blocked(keys, copies, id, g).Some?)
      && (IsDeleted(keys, after, id) ==> IsDeleted(keys, copies, id))
      && (Tight(copies) ==> (Blocked(keys, after, id, g).Some? <==> Blocked(keys, copies, id, g).Some?)
                            && (IsDeleted(keys, after, id) <==> IsDeleted(keys, copies, id)))
  {
    RecordedFolds(keys, copies, e, ok, stop);
    CutIsAtMost(keys, copies);
    if Tight(copies) { TightReads(keys, copies); }
    hide Combined, Recorded, Lands, Cut, Tight, Blocked, IsDeleted;
    var after := Recorded(keys, copies, e, ok, stop);
    FoldElsewhere(keys, Cut(copies), after, e, id, g);
    LessBlocks(keys, Cut(copies), copies, id, g);
    if Tight(copies) { LessBlocks(keys, copies, Cut(copies), id, g); }
  }

  lemma FoldElsewhere(keys: seq<Key>, before: Copies, after: Copies, e: Entry, id: JarId, g: int)
    requires Combined(keys, after) == Fold(Combined(keys, before), e) || Combined(keys, after) == Combined(keys, before)
    requires after.log.readable == before.log.readable && id != e.jarId
    ensures Blocked(keys, after, id, g).Some? <==> Blocked(keys, before, id, g).Some?
    ensures IsDeleted(keys, after, id) <==> IsDeleted(keys, before, id)
  {
    hide Combined;
  }

  lemma LessBlocks(keys: seq<Key>, less: Copies, more: Copies, id: JarId, g: int)
    requires AtMost(Combined(keys, less), Combined(keys, more)) && less.log.readable == more.log.readable
    ensures Blocked(keys, less, id, g).Some? ==> Blocked(keys, more, id, g).Some?
    ensures IsDeleted(keys, less, id) ==> IsDeleted(keys, more, id)
  {
    hide Combined;
  }

  /** What a successful save does to the reading of each jar. */
  lemma SavedIsUnrevoked(c: Config, w: JarRuns.World, step: JarRuns.Step, w': JarRuns.World)
    requires JarRuns.Inv(c, w) && JarRuns.Next(c, w, step, w') && w.disk.copies.log.readable
    requires step.DoSave? && JarRuns.SaveResult(c, w.disk, step, w'.now).Ok?
    ensures var m := JarRuns.SaveResult(c, w.disk, step, w'.now).value;
      !IsRevokedGeneration(c, w'.disk, m.jarId, Some(m.generation)) && Authenticates(c, w'.disk, m.jarId)
  {
    hide Combined, Save, Verified, Filtered, StatsOf, NormalizeLabel, Target, ResolvedScope, JarRuns.EntryOf;
    var m := JarRuns.SaveResult(c, w.disk, step, w'.now).value;
    JarRuns.SavedMeta(c, w.disk, step, w'.now);
    if step.jarId.Some? {
      SameSave(c, w.disk, step, w'.now);
      JarGuarantees.RefreshPublishesAbove(c, w.disk, step.jarId.value, step.a, w'.now, step.stop, step.anchorOk);
    } else {
      JarCounting.FreshIdHasNoMark(c, w, step);
      JarCounting.NewJarRecordsNothing(c, w.disk, step, w'.now);
      JarCounting.CopiesMove(c, w, step, w');
      JarGuarantees.SealedOpens(c, w'.disk, m, Payload(Filtered(step.a.raw, m.origins, m.mode), step.a.probe.value));
    }
  }

  lemma SameSave(c: Config, d: Disk, step: JarRuns.Step, now: int)
    requires step.DoSave? && step.jarId.Some?
    ensures var r := Save(c, d, step.jarId, step.jarId.value, step.a, now, step.stop, step.anchorOk);
      JarRuns.SaveResult(c, d, step, now) == r.1 && JarRuns.Perform(c, d, step, now) == r.0
  {}

  lemma SaveLeavesOthers(c: Config, w: JarRuns.World, step: JarRuns.Step, w': JarRuns.World, id: JarId, g: int)
    requires JarRuns.Inv(c, w) && JarRuns.Next(c, w, step, w') && w.disk.copies.log.readable
    requires step.DoSave? && JarRuns.SaveResult(c, w.disk, step, w'.now).Ok? && JarRuns.SaveResult(c, w.disk, step, w'.now).value.jarId != id
    ensures Blocked(c.keys, w'.disk.copies, id, g).Some? ==> Blocked(c.keys, w.disk.copies, id, g).Some?
    ensures IsDeleted(c.keys, w'.disk.copies, id) ==> IsDeleted(c.keys, w.disk.copies, id)
    ensures Verified(c, w'.disk, id) == Verified(c, w.disk, id)
  {
    hide Combined, Blocked, IsDeleted, Recorded, Save, Filtered, StatsOf, NormalizeLabel, Target, ResolvedScope, JarRuns.EntryOf, Open;
    JarRuns.SavedMeta(c, w.disk, step, w'.now);
    JarCounting.CopiesMove(c, w, step, w');
    if step.jarId.Some? {
      JarGuarantees.SavedEntry(c, w.disk, step, w'.now);
      var e, l := JarRuns.EntryOf(c, w.disk, step, w'.now), JarRuns.LuckOf(step);
      OtherIdsSpared(c.keys, w.disk.copies, e.value, l.anchorOk, l.stop, id, g);
    } else {
      JarCounting.NewJarRecordsNothing(c, w.disk, step, w'.now);
    }
  }

  /** A session's own save, of a new jar or over one it may refresh, never makes the kill-switch fire on
      that session: if nothing it held was revoked before, nothing it holds is revoked after. */
  lemma SavingKeepsTheSession(c: Config, ws: seq<JarRuns.World>, steps: seq<JarRuns.Step>, i: nat, s: View)
    requires JarRuns.Run(c, ws, steps) && i < |steps| && ws[i].disk.copies.log.readable
    requires steps[i].DoSave? && JarRuns.SaveResult(c, ws[i].disk, steps[i], ws[i + 1].now).Ok?
    requires s.site.jarId.Some? ==> steps[i].jarId == s.site.jarId
    requires !RevokedFor(c, ws[i].disk, s)
    ensures !RevokedFor(c, ws[i + 1].disk, Adopt(s, JarRuns.SaveResult(c, ws[i].disk, steps[i], ws[i + 1].now).value))
  {
    assert |ws| == |steps| + 1;
    RunStep(c, ws, steps, i);
    JarRuns.RunKeepsInv(c, ws, steps, i);
    var w, w', step := ws[i], ws[i + 1], steps[i];
    SavedWithKeys(c, w, step, w');
    var m := JarRuns.SaveResult(c, w.disk, step, w'.now).value;
    var t := Adopt(s, m);
    hide *;
    AdoptedJars(s, m);
    forall id <- t.produced ensures Spared(c, w'.disk, id, Some(t.produced[id])) { SavedJarIsSpared(c, w, step, w', s, id); }
    if t.site.jarId.Some? { SavedSiteIsSpared(c, w, step, w', s); }
    AllSpared(c, w'.disk, t);
  }

  lemma SavedWithKeys(c: Config, w: JarRuns.World, step: JarRuns.Step, w': JarRuns.World)
    requires step.DoSave? && JarRuns.SaveResult(c, w.disk, step, w'.now).Ok?
    ensures c.keys != [] && JarRuns.SaveResult(c, w.disk, step, w'.now).value.jarId == (if step.jarId.Some? then step.jarId.value else step.freshId)
  {
    JarRuns.SavedMeta(c, w.disk, step, w'.now);
  }

  predicate Spared(c: Config, d: Disk, id: JarId, g: Option<int>) { !IsRevokedGeneration(c, d, id, g) && Authenticates(c, d, id) }

  lemma AllSpared(c: Config, d: Disk, t: View)
    requires forall id <- t.produced :: Spared(c, d, id, Some(t.produced[id]))
    requires t.site.jarId.Some? ==> Spared(c, d, t.site.jarId.value, t.jarGeneration)
    ensures !RevokedFor(c, d, t)
  {
    hide IsRevokedGeneration, Authenticates;
    forall id <- t.produced ensures !IsRevokedGeneration(c, d, id, Some(t.produced[id])) && Authenticates(c, d, id) {
      assert Spared(c, d, id, Some(t.produced[id]));
    }
  }

  lemma HeldIsSpared(c: Config, d: Disk, s: View, id: JarId)
    requires !RevokedFor(c, d, s) && c.keys != []
    ensures id in s.produced ==> Spared(c, d, id, Some(s.produced[id]))
  {
    hide IsRevokedGeneration, Authenticates;
  }

  lemma AdoptedJars(s: View, m: Meta)
    ensures var t := Adopt(s, m);
      && t.produced == s.produced[m.jarId := m.generation] && t.site == s.site
      && (s.site.jarId == Some(m.jarId) ==> t.jarGeneration == Some(m.generation))
  {}

  lemma SavedJarIsSpared(c: Config, w: JarRuns.World, step: JarRuns.Step, w': JarRuns.World, s: View, id: JarId)
    requires JarRuns.Inv(c, w) && JarRuns.Next(c, w, step, w') && w.disk.copies.log.readable && c.keys != []
    requires step.DoSave? && JarRuns.SaveResult(c, w.disk, step, w'.now).Ok? && !RevokedFor(c, w.disk, s)
    requires id in Adopt(s, JarRuns.SaveResult(c, w.disk, step, w'.now).value).produced
    ensures Spared(c, w'.disk, id, Some(Adopt(s, JarRuns.SaveResult(c, w.disk, step, w'.now).value).produced[id]))
  {
    var m := JarRuns.SaveResult(c, w.disk, step, w'.now).value;
    hide JarRuns.Inv, JarRuns.Next, JarRuns.SaveResult, Blocked, IsDeleted, Verified, Adopt, RevokedFor;
    AdoptedJars(s, m);
    if id == m.jarId {
      SavedIsUnrevoked(c, w, step, w');
    } else {
      HeldIsSpared(c, w.disk, s, id);
      SaveLeavesOthers(c, w, step, w', id, s.produced[id]);
    }
  }

  lemma SavedSiteIsSpared(c: Config, w: JarRuns.World, step: JarRuns.Step, w': JarRuns.World, s: View)
    requires JarRuns.Inv(c, w) && JarRuns.Next(c, w, step, w') && w.disk.copies.log.readable
    requires step.DoSave? && JarRuns.SaveResult(c, w.disk, step, w'.now).Ok?
    requires s.site.jarId == Some(JarRuns.SaveResult(c, w.disk, step, w'.now).value.jarId)
    ensures var t := Adopt(s, JarRuns.SaveResult(c, w.disk, step, w'.now).value);
      t.site.jarId == s.site.jarId && Spared(c, w'.disk, s.site.jarId.value, t.jarGeneration)
  {
    hide JarRuns.Inv, JarRuns.Next, JarRuns.SaveResult, Blocked, IsDeleted, Verified, Adopt;
    AdoptedJars(s, JarRuns.SaveResult(c, w.disk, step, w'.now).value);
    SavedIsUnrevoked(c, w, step, w');
  }

  lemma RunStep(c: Config, ws: seq<JarRuns.World>, steps: seq<JarRuns.Step>, i: nat)
    requires JarRuns.Run(c, ws, steps) && i < |steps|
    ensures JarRuns.Next(c, ws[i], steps[i], ws[i + 1])
  {}

  /** Nothing is published from a session whose held generation was revoked before the store took its
      lock, wherever in between the revocation fell. */
  lemma RevokedSessionNeverPublishes(c: Config, ws: seq<JarRuns.World>, steps: seq<JarRuns.Step>, i: nat, j: nat, s: View, id: JarId, g: int)
    requires JarRuns.Run(c, ws, steps) && i <= j < |steps|
    requires JarGuarantees.Secured(ws[i], id, g)
    requires steps[j].DoSave? && steps[j].jarId == Some(id) && steps[j].a.precondition == Precondition(s, id)
    requires Precondition(s, id).Some? && Precondition(s, id).value <= g
    ensures JarRuns.SaveResult(c, ws[j].disk, steps[j], ws[j + 1].now).Err? && ws[j + 1].disk == ws[j].disk
  {
    assert |ws| == |steps| + 1;
    hide JarRuns.Run, Blocked, Save, JarRuns.NextHistory, JarRuns.Allowed, FoldAll;
    RunStep(c, ws, steps, j);
    JarGuarantees.RevocationIsPermanent(c, ws, steps, i, j, id, Precondition(s, id).value);
    SameSave(c, ws[j].disk, steps[j], ws[j + 1].now);
    JarGuarantees.RevokedPreconditionPublishesNothing(c, ws[j].disk, id, steps[j].a, ws[j + 1].now, steps[j].stop, steps[j].anchorOk);
  }

  /** The jar an operation of the store is about. */
  function Subject(step: JarRuns.Step): Option<JarId> {
    match step
    case DoSave(jarId, freshId, _, _, _) => Some(if jarId.Some? then jarId.value else freshId)
    case DoInvalidate(id, _) => Some(id)
    case DoDelete(id, _) => Some(id)
    case DoTouch(id, _) => Some(id)
    case DoReserve(id, _) => Some(id)
    case DoRecordProbe(id, _, _) => Some(id)
    case Tamper(_, _) => None
  }

  ghost predicate OthersKept(c: Config, d: Disk, step: JarRuns.Step, now: int, id: JarId) {
    && Verified(c, JarRuns.Perform(c, d, step, now), id) == Verified(c, d, id)
    && var e := JarRuns.EntryOf(c, d, step, now); e.Some? ==> e.value.jarId != id
  }

  lemma SaveKeepsOthers(c: Config, d: Disk, step: JarRuns.Step, now: int, id: JarId)
    requires step.DoSave? && Subject(step) != Some(id)
    ensures OthersKept(c, d, step, now, id)
  {
    hide Open, Target, NewVersion, Recorded;
  }

  lemma RevokingKeepsOthers(c: Config, d: Disk, step: JarRuns.Step, now: int, id: JarId)
    requires (step.DoInvalidate? || step.DoDelete?) && Subject(step) != Some(id)
    ensures OthersKept(c, d, step, now, id)
  {
    hide Open, RecordOrStop;
  }

  lemma OnlyTheSubjectChanges(c: Config, d: Disk, step: JarRuns.Step, now: int, id: JarId)
    requires !step.Tamper? && Subject(step) != Some(id)
    ensures OthersKept(c, d, step, now, id)
  {
    hide Open, Blocked, Save, Invalidate, Delete;
    if step.DoSave? { SaveKeepsOthers(c, d, step, now, id); hide OthersKept; }
    else if step.DoInvalidate? || step.DoDelete? { RevokingKeepsOthers(c, d, step, now, id); hide OthersKept; }
  }

  /** At `d'` nothing is revoked of `id` that was not at `d`. */
  predicate NoWorse(c: Config, d: Disk, d': Disk, id: JarId, g: Option<int>) {
    (IsRevokedGeneration(c, d', id, g) ==> IsRevokedGeneration(c, d, id, g)) && (Authenticates(c, d, id) ==> Authenticates(c, d', id))
  }

  lemma OtherJarUnmoved(c: Config, w: JarRuns.World, step: JarRuns.Step, w': JarRuns.World, id: JarId, g: Option<int>)
    requires JarRuns.Inv(c, w) && JarRuns.Next(c, w, step, w') && !step.Tamper? && Subject(step) != Some(id)
    ensures NoWorse(c, w.disk, w'.disk, id, g)
    ensures Tight(w.disk.copies) ==> NoWorse(c, w'.disk, w.disk, id, g)
  {
    NextPerforms(c, w, step, w');
    hide *;
    OnlyTheSubjectChanges(c, w.disk, step, w'.now, id);
    KeptUnfolds(c, w.disk, step, w'.now, id);
    var gen := if g.Some? then g.value else 0;
    OtherMarksSpared(c, w, step, w', id, gen);
    WorseOnlyByMarks(c, w.disk, w'.disk, id, g, gen);
    if Tight(w.disk.copies) { WorseOnlyByMarks(c, w'.disk, w.disk, id, g, gen); }
  }

  lemma NextPerforms(c: Config, w: JarRuns.World, step: JarRuns.Step, w': JarRuns.World)
    requires JarRuns.Next(c, w, step, w')
    ensures w'.disk == JarRuns.Perform(c, w.disk, step, w'.now)
  {}

  lemma KeptUnfolds(c: Config, d: Disk, step: JarRuns.Step, now: int, id: JarId)
    requires OthersKept(c, d, step, now, id)
    ensures Verified(c, JarRuns.Perform(c, d, step, now), id) == Verified(c, d, id)
    ensures var e := JarRuns.EntryOf(c, d, step, now); e.Some? ==> e.value.jarId != id
  {
    hide JarRuns.Perform, JarRuns.EntryOf, Verified;
  }

  lemma OtherMarksSpared(c: Config, w: JarRuns.World, step: JarRuns.Step, w': JarRuns.World, id: JarId, g: int)
    requires JarRuns.Inv(c, w) && JarRuns.Next(c, w, step, w') && !step.Tamper?
    requires var e := JarRuns.EntryOf(c, w.disk, step, w'.now); e.Some? ==> e.value.jarId != id
    ensures Blocked(c.keys, w'.disk.copies, id, g).Some? ==> Blocked(c.keys, w.disk.copies, id, g).Some?
    ensures IsDeleted(c.keys, w'.disk.copies, id) ==> IsDeleted(c.keys, w.disk.copies, id)
    ensures Tight(w.disk.copies) ==> (Blocked(c.keys, w'.disk.copies, id, g).Some? <==> Blocked(c.keys, w.disk.copies, id, g).Some?)
                                     && (IsDeleted(c.keys, w'.disk.copies, id) <==> IsDeleted(c.keys, w.disk.copies, id))
  {
    hide *;
    JarCounting.CopiesMove(c, w, step, w');
    var e, l := JarRuns.EntryOf(c, w.disk, step, w'.now), JarRuns.LuckOf(step);
    if e.Some? { OtherIdsSpared(c.keys, w.disk.copies, e.value, l.anchorOk, l.stop, id, g); }
  }

  lemma WorseOnlyByMarks(c: Config, d: Disk, d': Disk, id: JarId, g: Option<int>, gen: int)
    requires Verified(c, d', id) == Verified(c, d, id) && gen == if g.Some? then g.value else 0
    requires Blocked(c.keys, d'.copies, id, gen).Some? ==> Blocked(c.keys, d.copies, id, gen).Some?
    requires IsDeleted(c.keys, d'.copies, id) ==> IsDeleted(c.keys, d.copies, id)
    ensures NoWorse(c, d, d', id, g)
  {
    hide Blocked, IsDeleted, Verified;
  }

  /** Whatever is done to other jars, refreshes and revocations included, tears down no session that
      holds none of them; and it spares none that was to be torn down, unless the log was torn. */
  lemma OtherJarsSpareTheSession(c: Config, ws: seq<JarRuns.World>, steps: seq<JarRuns.Step>, i: nat, s: View)
    requires |ws| == |steps| + 1 && JarRuns.Run(c, ws, steps) && i < |steps| && !steps[i].Tamper?
    requires Subject(steps[i]) != s.site.jarId && Subject(steps[i]).value !in s.produced
    ensures RevokedFor(c, ws[i + 1].disk, s) ==> RevokedFor(c, ws[i].disk, s)
    ensures Tight(ws[i].disk.copies) ==> (RevokedFor(c, ws[i + 1].disk, s) <==> RevokedFor(c, ws[i].disk, s))
  {
    hide *;
    JarRuns.RunKeepsInv(c, ws, steps, i);
    RunStep(c, ws, steps, i);
    var w, w', step := ws[i], ws[i + 1], steps[i];
    SubjectIsThere(step);
    if s.site.jarId.Some? { OtherJarUnmoved(c, w, step, w', s.site.jarId.value, s.jarGeneration); }
    forall id <- s.produced
      ensures NoWorse(c, w.disk, w'.disk, id, Some(s.produced[id]))
      ensures Tight(w.disk.copies) ==> NoWorse(c, w'.disk, w.disk, id, Some(s.produced[id]))
    {
      OtherJarUnmoved(c, w, step, w', id, Some(s.produced[id]));
    }
    VerdictsDecide(c, w.disk, w'.disk, s);
    if Tight(w.disk.copies) { VerdictsDecide(c, w'.disk, w.disk, s); }
  }

  lemma SubjectIsThere(step: JarRuns.Step)
    requires !step.Tamper?
    ensures Subject(step).Some?
  {}

  lemma VerdictsDecide(c: Config, d: Disk, d': Disk, s: View)
    requires s.site.jarId.Some? ==> NoWorse(c, d, d', s.site.jarId.value, s.jarGeneration)
    requires forall id <- s.produced :: NoWorse(c, d, d', id, Some(s.produced[id]))
    ensures RevokedFor(c, d', s) ==> RevokedFor(c, d, s)
  {
    hide IsRevokedGeneration, Authenticates;
    forall id <- s.produced
      ensures IsRevokedGeneration(c, d', id, Some(s.produced[id])) ==> IsRevokedGeneration(c, d, id, Some(s.produced[id]))
      ensures Authenticates(c, d, id) ==> Authenticates(c, d', id)
    {
      assert NoWorse(c, d, d', id, Some(s.produced[id]));
    }
  }

  /** Loading, reserving or recording a probe, or a save that fails before it tombstones anything. */
  predicate Harmless(c: Config, d: Disk, step: JarRuns.Step, now: int) {
    || step.DoTouch? || step.DoReserve? || step.DoRecordProbe?
    || (step.DoSave? && JarRuns.SaveResult(c, d, step, now).Err? && JarRuns.EntryOf(c, d, step, now).None?)
  }

  lemma HarmlessIsNoWorse(c: Config, w: JarRuns.World, step: JarRuns.Step, w': JarRuns.World, id: JarId, g: Option<int>)
    requires JarRuns.Inv(c, w) && JarRuns.Next(c, w, step, w') && Harmless(c, w.disk, step, w'.now)
    ensures NoWorse(c, w.disk, w'.disk, id, g)
  {
    assert w'.disk == JarRuns.Perform(c, w.disk, step, w'.now);
    assert (step.DoTouch? || step.DoReserve? || step.DoRecordProbe?) ==> JarRuns.EntryOf(c, w.disk, step, w'.now).None?;
    hide JarRuns.Inv, JarRuns.Next, JarRuns.Perform, JarRuns.EntryOf, JarRuns.SaveResult, Blocked, IsDeleted, Verified;
    JarCounting.CopiesMove(c, w, step, w');
    if Verified(c, w.disk, id).Ok? {
      FilesStay(c, w.disk, step, w'.now, id);
      JarCounting.StepKeepsFile(c, w.disk, step, w'.now, id);
      JarCounting.FilesDecideTheRead(c, w.disk.(files := w'.disk.files), w'.disk, id);
    }
  }

  lemma FilesStay(c: Config, d: Disk, step: JarRuns.Step, now: int, id: JarId)
    requires Harmless(c, d, step, now) && id in d.files
    ensures id in JarRuns.Perform(c, d, step, now).files
  {
    hide JarRuns.EntryOf, Blocked, Verified, NormalizeLabel, Target, NewVersion;
  }

  /** Whatever jar they are about, the session's own included, loading, probing and saves that fail
      before the log tear down no session. */
  lemma HarmlessStepsSpareTheSession(c: Config, ws: seq<JarRuns.World>, steps: seq<JarRuns.Step>, i: nat, s: View)
    requires |ws| == |steps| + 1 && JarRuns.Run(c, ws, steps) && i < |steps| && Harmless(c, ws[i].disk, steps[i], ws[i + 1].now)
    ensures RevokedFor(c, ws[i + 1].disk, s) ==> RevokedFor(c, ws[i].disk, s)
  {
    hide *;
    JarRuns.RunKeepsInv(c, ws, steps, i);
    RunStep(c, ws, steps, i);
    if s.site.jarId.Some? { HarmlessIsNoWorse(c, ws[i], steps[i], ws[i + 1], s.site.jarId.value, s.jarGeneration); }
    forall id <- s.produced ensures NoWorse(c, ws[i].disk, ws[i + 1].disk, id, Some(s.produced[id])) {
      HarmlessIsNoWorse(c, ws[i], steps[i], ws[i + 1], id, Some(s.produced[id]));
    }
    VerdictsDecide(c, ws[i].disk, ws[i + 1].disk, s);
  }

  // ---------------------------------------------------------------- creation against revocation

  /** Creating a session from a jar hands it out exactly if, at the recheck after the worker started,
      the jar loads and the seeded generation is unrevoked; otherwise the session is torn down. */
  lemma CreationIsRechecked(c: Config, d: Disk, r: CreateReq, m: Meta, s: View, now: int, mint: TokenId)
    requires c.keys != []
    ensures var (t, reply) := AfterStart(c, d, r, Some(m), s, now, true, mint);
      && (reply == Done <==> Load(c, d, m.jarId, now).Ok? && !IsRevokedGeneration(c, d, m.jarId, Some(m.generation)))
      && (reply != Done ==> TornDown(t) && t.log == s.log)
      && (reply == Done ==> t.state == s.state && t.worker.closed == s.worker.closed && t.log == s.log)
  {
    FourViewsAgree(c, d, m.jarId, now);
    hide Load, Blocked, Verified;
  }

  /** So a revocation of the seeded generation anywhere between the load and the recheck keeps the
      session from being handed out, even where a newer generation loads by then. */
  lemma CreationLosesTheRace(c: Config, ws: seq<JarRuns.World>, steps: seq<JarRuns.Step>, i: nat, j: nat, r: CreateReq, m: Meta, s: View, now: int, mint: TokenId)
    requires JarRuns.Run(c, ws, steps) && i <= j < |ws| && c.keys != []
    requires JarGuarantees.Secured(ws[i], m.jarId, m.generation)
    ensures var (t, reply) := AfterStart(c, ws[j].disk, r, Some(m), s, now, true, mint); reply != Done && TornDown(t)
  {
    hide Blocked, JarRuns.Run, Load, AfterStart, TornDown, JarGuarantees.Secured;
    JarGuarantees.RevocationIsPermanent(c, ws, steps, i, j, m.jarId, m.generation);
    CreationIsRechecked(c, ws[j].disk, r, m, s, now, mint);
  }
}
