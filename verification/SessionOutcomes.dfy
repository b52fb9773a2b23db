/** What each operation of a session takes and gives, over whole runs: who may do it, in which state it
    leaves the lease, the deadline, the tokens and the page, and which origins confine the session. */
module SessionOutcomes {
  import opened Tombstones
  import opened CookieScope
  import opened JarEnvelope
  import opened JarStore
  import opened Leases
  import opened Sessions
  import opened SessionRuns

  // ---------------------------------------------------------------- creation

  /** What creation fixes. A session loaded from a jar is confined to the jar's origins and navigation
      list unless the caller opts out; an authenticated-site session is always confined, to those or to the
      origins it was given. Exec needs an opt-in and is never combined with credentials. */
  lemma CreationFixes(r: CreateReq, loaded: Option<Meta>, now: int)
    ensures var s := Registered(r, loaded, now);
      && (s.site.jarId.Some? <==> loaded.Some?) && (loaded.Some? ==> s.site.jarId == Some(loaded.value.jarId))
      && s.jarGeneration == (if loaded.Some? then Some(loaded.value.generation) else None) && s.produced == map[]
      && (s.site.authenticated <==> r.authenticated)
      && (s.site.confine <==> r.authenticated || (loaded.Some? && r.confine != Some(false)))
      && (s.site.autofill <==> r.autofill || r.authenticated)
      && (s.site.allowExec <==> loaded.Some? && r.allowExec && !r.autofill && !r.authenticated)
      && s.confineOrigins == s.worker.confine
      && (forall o :: o in s.confineOrigins <==>
            if loaded.Some? then s.site.confine && (o in loaded.value.origins || o in loaded.value.allowlist)
            else r.authenticated && r.origins.Some? && o in r.origins.value)
      && s.worker.guard && !s.worker.closed && s.worker.page == NoPage && s.tokens == map[] && s.log == []
      && (s.state, s.owner) == (if r.human then (HumanActive, ByHuman) else (AgentActive, ByAgent))
      && s.idle == now + 900 && s.expires == now + 3600 && s.resume == Finishes
  {}

  /** A caller of an authenticated-site session that states the confinement set gets exactly that set. */
  lemma StatedIsGranted(r: CreateReq, loaded: Option<Meta>, now: int)
    requires Admissible(r, loaded) && r.authenticated && r.origins.Some?
    ensures forall o :: o in Registered(r, loaded, now).confineOrigins <==> o in r.origins.value
  {}

  // ---------------------------------------------------------------- confinement over runs

  /** The session publishes a new version of the jar it was loaded from. */
  predicate PublishesOwn(s: View, e: Event) {
    e.op.SaveIt? && Step(s, e).1 == Done && e.op.saved.Ok? && s.site.jarId == Some(e.op.saved.value.jarId)
  }

  /** What a step does to the jar behind the session: a version of its own that it has published takes the
      place of the one before; nothing else changes the confinement set or the generation. */
  ghost predicate MovesWithTheJar(s: View, e: Event, t: View) {
    && t.site == s.site
    && (PublishesOwn(s, e) ==>
          var m := e.op.saved.value;
          && t.confineOrigins == m.origins + m.allowlist && t.jarGeneration == Some(m.generation)
          && t.worker.confine == (if s.site.confine then m.origins + m.allowlist else s.worker.confine))
    && (!PublishesOwn(s, e) ==> t.confineOrigins == s.confineOrigins && t.jarGeneration == s.jarGeneration && t.worker.confine == s.worker.confine)
    && t.produced == (if e.op.SaveIt? && Step(s, e).1 == Done then s.produced[e.op.saved.value.jarId := e.op.saved.value.generation] else s.produced)
  }

  lemma SaveMovesTheJar(s: View, e: Event)
    requires e.op.SaveIt? && !(e.op.saved.Err? && Step(s, e).1 == Done)
    ensures MovesWithTheJar(s, e, Step(s, e).0)
  {
    if e.op.saved.Ok? { AdoptMovesTheJar(s, e.op.saved.value); }
    EnforceMovesNoJar(s, e.op.revoked);
    EnforceMovesNoJar(s, e.op.revokedAfterExport);
    hide MaySave, HumanOk, ExpiredAt, Adopt, Enforce;
  }

  lemma EnforceMovesNoJar(s: View, revoked: bool)
    ensures SameJar(s, Enforce(s, revoked).0)
  {}

  lemma AdoptMovesTheJar(s: View, m: Meta)
    ensures var t := Adopt(s, m);
      && t.site == s.site && t.produced == s.produced[m.jarId := m.generation]
      && (s.site.jarId == Some(m.jarId) ==> t.confineOrigins == m.origins + m.allowlist && t.jarGeneration == Some(m.generation))
      && (s.site.jarId != Some(m.jarId) ==> t.confineOrigins == s.confineOrigins && t.jarGeneration == s.jarGeneration)
      && t.worker.confine == (if s.site.jarId == Some(m.jarId) && s.site.confine && !s.worker.closed then m.origins + m.allowlist else s.worker.confine)
  {
    hide OffScope;
  }

  lemma RestMovesNoJar(s: View, e: Event)
    requires !e.op.SaveIt?
    ensures MovesWithTheJar(s, e, Step(s, e).0)
  {
    hide Transition, HumanOk, TokenOk, ExpiredAt, OffScope, ConsumeAll, ConsumeKind, RecheckLoadable, IsRevokedGeneration, Complete, Handover, AutofillTurn, Command, Input;
    match e.op
    case CompleteIt(t) => CompleteMovesNoJar(s, e.now, t);
    case HandOver(t, landed, fails) => HandoverMovesNoJar(s, e.now, t, e.mint, landed, fails);
    case AutofillIt(revoked, moves, late, doneAt) => AutofillMovesNoJar(s, e.now, revoked, moves, late, doneAt);
    case AgentInput(cmd, revoked) => InputMovesNoJar(s, e.now, 0, cmd, revoked, None);
    case HumanInput(t, revoked, moves) => InputMovesNoJar(s, e.now, t, ClosePage, revoked, moves);
    case _ =>
  }

  ghost predicate SameJar(s: View, t: View) {
    t.site == s.site && t.confineOrigins == s.confineOrigins && t.jarGeneration == s.jarGeneration && t.worker.confine == s.worker.confine && t.produced == s.produced
  }

  lemma CompleteMovesNoJar(s: View, now: int, t: TokenId)
    ensures SameJar(s, Complete(s, now, t).0)
  {
    hide Transition, HumanOk, ExpiredAt, ConsumeAll;
  }

  lemma HandoverMovesNoJar(s: View, now: int, t: TokenId, mint: TokenId, landed: Page, fails: bool)
    ensures SameJar(s, Handover(s, now, t, mint, landed, fails).0)
  {
    PrepareMovesNoJar(s, landed, fails);
    hide Transition, TokenOk, ExpiredAt, PrepareHandover;
  }

  lemma PrepareMovesNoJar(s: View, landed: Page, fails: bool)
    ensures SameJar(s, PrepareHandover(s, landed, fails).0)
  {
    hide OffScope;
  }

  lemma AutofillMovesNoJar(s: View, now: int, revoked: bool, moves: seq<Page>, late: bool, doneAt: Option<int>)
    ensures SameJar(s, AutofillTurn(s, now, revoked, moves, late, doneAt).0)
  {
    DriveAllMoves(s.worker, moves);
    hide DriveAll, ExpiredAt, ConsumeAll;
  }

  lemma InputMovesNoJar(s: View, now: int, t: TokenId, cmd: Cmd, revoked: bool, moves: Option<Page>)
    ensures SameJar(s, Input(s, now, t, revoked, moves).0) && SameJar(s, Command(s, now, cmd, revoked).0)
  {
    hide OffScope, HumanOk, ExpiredAt, ConsumeAll, Denied;
  }

  lemma DoneWasSaved(s: View, e: Event)
    requires e.op.SaveIt? && Step(s, e).1 == Done
    ensures e.op.saved.Ok? && !s.worker.closed
  {
    hide MaySave, HumanOk, ExpiredAt, Adopt, Enforce;
  }

  lemma StepMovesTheJar(s: View, e: Event)
    ensures MovesWithTheJar(s, e, Step(s, e).0)
  {
    hide Step, MovesWithTheJar;
    if e.op.SaveIt? {
      if Step(s, e).1 == Done { DoneWasSaved(s, e); }
      SaveMovesTheJar(s, e);
    } else {
      RestMovesNoJar(s, e);
    }
  }

  /** The version of its jar that the session holds: the one it was created from, or the one it published
      last. */
  function VersionAt(ss: seq<View>, es: seq<Event>, i: nat, first: Meta): Meta
    requires i <= |es| && |ss| == |es| + 1
  {
    if i == 0 then first
    else if PublishesOwn(ss[i - 1], es[i - 1]) then es[i - 1].op.saved.value
    else VersionAt(ss, es, i - 1, first)
  }

  lemma {:induction false} HeldVersion(ss: seq<View>, es: seq<Event>, i: nat, r: CreateReq, m: Meta, now: int)
    requires |ss| == |es| + 1 && Run(ss, es) && i <= |es| && ss[0] == Registered(r, Some(m), now)
    ensures var s, v := ss[i], VersionAt(ss, es, i, m);
      && s.site == ss[0].site && s.jarGeneration == Some(v.generation)
      && (s.site.confine ==> s.confineOrigins == v.origins + v.allowlist)
    decreases i
  {
    hide Step, Born, Enabled, PublishesOwn;
    if i > 0 {
      HeldVersion(ss, es, i - 1, r, m, now);
      assert Follows(ss, es, i - 1);
      StepMovesTheJar(ss[i - 1], es[i - 1]);
    }
  }

  /** In every state of a session loaded from a jar: it holds the version it was created from or has
      published last, the next save is made under that version's generation, and its confinement set is
      exactly that version's origins and navigation list. Whenever the agent holds the lease and these are
      not empty, the guard is on with exactly them, and the page is blank or at one of them. */
  lemma ConfinedToTheHeldVersion(ss: seq<View>, es: seq<Event>, i: nat, r: CreateReq, m: Meta, now: int)
    requires |ss| == |es| + 1 && Run(ss, es) && i <= |es| && ss[0] == Registered(r, Some(m), now)
    ensures var s, v := ss[i], VersionAt(ss, es, i, m);
      && s.site.jarId == Some(m.jarId) && s.jarGeneration == Some(v.generation)
      && Precondition(s, m.jarId) == Some(v.generation)
      && (s.site.confine <==> r.authenticated || r.confine != Some(false))
      && (s.site.confine ==> forall o :: o in s.confineOrigins <==> o in v.origins || o in v.allowlist)
      && (s.site.confine && AgentHolds(s) && (v.origins != [] || v.allowlist != []) ==>
            && s.worker.guard && s.worker.confine == v.origins + v.allowlist != []
            && (s.worker.page in {NoPage, AboutBlank}
                || (s.worker.page.At? && (s.worker.page.origin in v.origins || s.worker.page.origin in v.allowlist))))
  {
    HeldVersion(ss, es, i, r, m, now);
    if AgentHolds(ss[i]) && ss[i].site.confine { AgentIsConfined(ss, es, i); }
    hide Run, AgentHolds;
  }

  lemma {:induction false} JarlessStays(ss: seq<View>, es: seq<Event>, i: nat, r: CreateReq, now: int)
    requires |ss| == |es| + 1 && Run(ss, es) && i <= |es| && ss[0] == Registered(r, None, now)
    ensures ss[i].site == ss[0].site && ss[i].confineOrigins == ss[0].confineOrigins && ss[i].jarGeneration == None
    decreases i
  {
    hide Step, Born, Enabled;
    if i > 0 {
      JarlessStays(ss, es, i - 1, r, now);
      assert Follows(ss, es, i - 1);
      StepMovesTheJar(ss[i - 1], es[i - 1]);
    }
  }

  /** A session without a jar keeps the origins it was created with: those it was given where it is an
      authenticated-site one, else none. */
  lemma ConfinedToTheGivenOrigins(ss: seq<View>, es: seq<Event>, i: nat, r: CreateReq, now: int)
    requires |ss| == |es| + 1 && Run(ss, es) && i <= |es| && ss[0] == Registered(r, None, now)
    ensures var s := ss[i];
      && (s.site.confine <==> r.authenticated)
      && s.confineOrigins == (if r.authenticated && r.origins.Some? then r.origins.value else [])
      && (r.authenticated && AgentHolds(s) ==>
            && r.origins.Some? && r.origins.value != [] && s.worker.guard && s.worker.confine == r.origins.value
            && (s.worker.page in {NoPage, AboutBlank} || (s.worker.page.At? && s.worker.page.origin in r.origins.value)))
  {
    JarlessStays(ss, es, i, r, now);
    if AgentHolds(ss[i]) && ss[i].site.confine { AgentIsConfined(ss, es, i); }
    hide Run, AgentHolds;
  }

  // ---------------------------------------------------------------- who may do what

  predicate InTime(s: View, now: int) { !Terminal(s.state) && now < s.idle && now < s.expires }

  /** The token is of that kind, unspent and not past its end. */
  predicate Good(s: View, t: TokenId, kind: TokenKind, now: int) {
    Live(s.tokens, t, kind) && now < s.tokens[t].expiresAt
  }

  predicate WithHuman(s: View) { s.state == HumanActive || s.state == HumanSensitive }

  /** A session loaded from a jar runs no exec without the opt-in, one with credentials neither exec nor
      extract nor a transfer chord. */
  predicate Barred(site: Site, cmd: Cmd) {
    || (cmd == Exec && site.jarId.Some? && !site.allowExec)
    || (site.autofill && cmd in {Exec, Extract, TransferChord})
  }

  /** The seeded generation is still good when the worker has started. */
  predicate StillGood(c: Config, d: Disk, m: Meta, now: int) {
    RecheckLoadable(c, d, m.jarId, now) && !IsRevokedGeneration(c, d, m.jarId, Some(m.generation))
  }

  predicate ByControl(s: View, t: TokenId, now: int) { WithHuman(s) && Good(s, t, ControlToken, now) }

  /** A save is made by who may make it: the human at the screen over a target of theirs, the agent with the
      lease over the session's own jar; a session loaded from a jar saves no other. */
  predicate SavesRightly(s: View, now: int, actor: Actor, target: Option<JarId>, owns: bool) {
    && (s.site.jarId.Some? ==> target == s.site.jarId)
    && (match actor
        case ActingAgent => AgentState(s.state) && (target.Some? ==> target == s.site.jarId)
        case ActingHuman(t) => ByControl(s, t, now) && (target.Some? ==> owns))
  }

  /** The rule book: what an operation needs, by the state of the lease, the tokens and the clock. */
  predicate Grants(s: View, e: Event) {
    match e.op
    case Boot(c, d, _, loaded, started) => started && (loaded.Some? ==> StillGood(c, d, loaded.value, e.now))
    case HandOff(resume, at) => AgentState(s.state) && InTime(s, e.now) && at && (s.site.jarId.Some? ==> resume == Finishes)
    case ClaimIt(t) => s.state == HandoffRequested && InTime(s, e.now) && Good(s, t, HandoffToken, e.now)
    case CompleteIt(t) =>
      && WithHuman(s) && InTime(s, e.now) && Good(s, t, ControlToken, e.now)
      && (s.state == HumanActive && s.resume == AfterSanitize ==> !s.worker.closed)
    case CancelIt(t) =>
      && (WithHuman(s) || s.state == HandoffRequested || s.state == HandoverRequested) && InTime(s, e.now)
      && Good(s, t, if s.state == HandoffRequested then HandoffToken else ControlToken, e.now)
    case HandOver(t, _, _) =>
      && s.state == HumanActive && InTime(s, e.now) && Good(s, t, ControlToken, e.now)
      && (s.site.jarId.Some? ==> s.site.authenticated) && (s.site.authenticated ==> !s.worker.closed)
    case TakeBack(proof, revoked) =>
      && s.state == HandoverRequested && InTime(s, e.now) && !revoked
      && (if proof.Some? then Good(s, proof.value, HandoverToken, e.now) else s.site.authenticated)
    case ExtendIt(t, _) => WithHuman(s) && InTime(s, e.now) && Good(s, t, ControlToken, e.now)
    case GoSensitive(t) => s.state == HumanActive && InTime(s, e.now) && Good(s, t, ControlToken, e.now)
    case HumanInput(t, revoked, _) => WithHuman(s) && InTime(s, e.now) && Good(s, t, ControlToken, e.now) && !revoked
    case AgentInput(cmd, revoked) => AgentState(s.state) && InTime(s, e.now) && !Barred(s.site, cmd) && !revoked && !s.worker.closed
    case SaveIt(actor, target, owns, revoked, late, saved) =>
      InTime(s, e.now) && !revoked && !late && !s.worker.closed && saved.Ok? && SavesRightly(s, e.now, actor, target, owns)
    case AutofillIt(revoked, _, late, doneAt) => AgentState(s.state) && InTime(s, e.now) && !revoked && !late && doneAt.Some?
    case _ => true
  }

  lemma HandoffGrants(s: View, e: Event)
    requires LeaseOk(s) && s.state != SanitizePending && e.op.HandOff?
    ensures Step(s, e).1 == Done <==> Grants(s, e)
  {}

  lemma ClaimGrants(s: View, e: Event)
    requires LeaseOk(s) && s.state != SanitizePending && e.op.ClaimIt?
    ensures Step(s, e).1 == Done <==> Grants(s, e)
  {}

  lemma CancelGrants(s: View, e: Event)
    requires LeaseOk(s) && s.state != SanitizePending && e.op.CancelIt?
    ensures Step(s, e).1 == Done <==> Grants(s, e)
  {
    hide Cleanup;
  }

  lemma HumanGrants(s: View, e: Event)
    requires LeaseOk(s) && s.state != SanitizePending && (e.op.ExtendIt? || e.op.GoSensitive?)
    ensures Step(s, e).1 == Done <==> Grants(s, e)
  {}

  lemma CompleteGrants(s: View, e: Event)
    requires LeaseOk(s) && s.state != SanitizePending && e.op.CompleteIt?
    ensures Step(s, e).1 == Done <==> Grants(s, e)
  {
    SanitizeOutcome(Enter(s, SanitizePending));
    hide Sanitize, Cleanup;
  }

  lemma HandoverGrants(s: View, e: Event)
    requires LeaseOk(s) && s.state != SanitizePending && e.op.HandOver?
    ensures Step(s, e).1 == Done <==> Grants(s, e)
  {
    PrepareOutcome(s, e.op.landed, e.op.fails);
    hide PrepareHandover;
  }

  lemma PrepareOutcome(s: View, landed: Page, fails: bool)
    ensures var (t, ok) := PrepareHandover(s, landed, fails);
      && (ok <==> s.site.authenticated ==> !s.worker.closed)
      && (ok ==> t.state == s.state && t.owner == s.owner && t.site == s.site && t.tokens == s.tokens && t.idle == s.idle && t.expires == s.expires
                 && t.resume == (if s.site.authenticated then AfterSanitize else Finishes)
                 && t.worker.guard == s.worker.guard && t.worker.closed == s.worker.closed)
      && (!ok ==> t.state == SessionState.Failed && t.tokens == s.tokens && t.log == s.log && t.worker == s.worker)
  {
    hide OffScope;
  }

  lemma TakeBackGrants(s: View, e: Event)
    requires LeaseOk(s) && s.state != SanitizePending && e.op.TakeBack?
    ensures Step(s, e).1 == Done <==> Grants(s, e)
  {
    hide ConsumeAll, ConsumeKind;
  }

  lemma InputGrants(s: View, e: Event)
    requires LeaseOk(s) && s.state != SanitizePending && (e.op.HumanInput? || e.op.AgentInput? || e.op.AutofillIt?)
    ensures Step(s, e).1 == Done <==> Grants(s, e)
  {
    hide ConsumeAll, DriveAll, OffScope;
  }

  lemma SaveGrants(s: View, e: Event)
    requires LeaseOk(s) && s.state != SanitizePending && e.op.SaveIt?
    ensures Step(s, e).1 == Done <==> Grants(s, e)
  {
    hide ConsumeAll, Adopt;
  }

  lemma BootGrants(s: View, e: Event)
    requires !(e.op.HandOff? || e.op.ClaimIt? || e.op.CancelIt? || e.op.ExtendIt? || e.op.GoSensitive? || e.op.CompleteIt? || e.op.HandOver?)
    requires !(e.op.TakeBack? || e.op.HumanInput? || e.op.AgentInput? || e.op.AutofillIt? || e.op.SaveIt?)
    ensures Step(s, e).1 == Done <==> Grants(s, e)
  {
    hide ConsumeAll, OffScope, RecheckLoadable, IsRevokedGeneration;
  }

  /** In every reachable state an operation is accepted exactly if the rule book grants it. */
  lemma AcceptedExactly(ss: seq<View>, es: seq<Event>, i: nat)
    requires |ss| == |es| + 1 && Run(ss, es) && i < |es|
    ensures Step(ss[i], es[i]).1 == Done <==> Grants(ss[i], es[i])
  {
    RunKeepsInv(ss, es, i, false);
    hide Step, Grants, Run, TokensFit, DoorsOk, LogOk, ConfinedOk;
    var s, e := ss[i], es[i];
    match e.op
    case CompleteIt(_) => CompleteGrants(s, e);
    case HandOver(_, _, _) => HandoverGrants(s, e);
    case TakeBack(_, _) => TakeBackGrants(s, e);
    case HumanInput(_, _, _) => InputGrants(s, e);
    case AgentInput(_, _) => InputGrants(s, e);
    case AutofillIt(_, _, _, _) => InputGrants(s, e);
    case SaveIt(_, _, _, _, _, _) => SaveGrants(s, e);
    case HandOff(_, _) => HandoffGrants(s, e);
    case ClaimIt(_) => ClaimGrants(s, e);
    case CancelIt(_) => CancelGrants(s, e);
    case ExtendIt(_, _) => HumanGrants(s, e);
    case GoSensitive(_) => HumanGrants(s, e);
    case _ => BootGrants(s, e);
  }

  // ---------------------------------------------------------------- what it leads to

  /** The human asked for the session back sanitised, so completing makes it resumable. */
  predicate Resumes(s: View) { s.state == HumanActive && s.resume == AfterSanitize }

  function StateAfter(s: View, e: Event): SessionState {
    match e.op
    case Boot(_, _, _, _, _) => s.state
    case HandOff(_, _) => HandoffRequested
    case ClaimIt(_) => HumanActive
    case CompleteIt(_) => if Resumes(s) then AgentResumable else Completed
    case CancelIt(_) => Cancelled
    case HandOver(_, _, _) => HandoverRequested
    case TakeBack(_, _) => AgentActive
    case GoSensitive(_) => HumanSensitive
    case CloseIt => if Terminal(s.state) then s.state else Cancelled
    case ReapIt => if Terminal(s.state) || InTime(s, e.now) then s.state else Expired
    case JarGone(id) => if !Terminal(s.state) && (s.site.jarId == Some(id) || id in s.produced) then Cancelled else s.state
    case _ => s.state
  }

  /** Minutes of grace; nothing where the idle deadline stays. No deadline passes the end of the session. */
  function GraceOf(s: View, e: Event): Option<int> {
    match e.op
    case HandOff(_, _) => Some(e.now + 10 * 60)
    case ClaimIt(_) => Some(e.now + 10 * 60)
    case CompleteIt(_) => if Resumes(s) then Some(e.now + 5 * 60) else None
    case HandOver(_, _, _) => Some(e.now + 10 * 60)
    case TakeBack(_, _) => Some(e.now + 15 * 60)
    case ExtendIt(_, minutes) => if e.now + minutes * 60 > s.idle then Some(e.now + minutes * 60) else None
    case GoSensitive(_) => Some(e.now + 5 * 60)
    case AgentInput(_, _) => Some(e.now + 15 * 60)
    case AutofillIt(_, _, _, Some(at)) => Some(at + 15 * 60)
    case _ => None
  }

  function IdleAfter(s: View, e: Event): int {
    var grace := GraceOf(s, e);
    if grace.None? then s.idle else if grace.value < s.expires then grace.value else s.expires
  }

  function ResumeAfter(s: View, e: Event): Resume {
    match e.op
    case HandOff(resume, _) => resume
    case HandOver(_, _, _) => if s.site.authenticated then AfterSanitize else Finishes
    case _ => s.resume
  }

  /** The token an accepted operation gives out. */
  function Minted(s: View, e: Event): Option<Token> {
    match e.op
    case Boot(_, _, _, _, _) => if s.owner == ByHuman then Some(Token(ControlToken, s.expires, false)) else None
    case HandOff(_, _) => Some(Token(HandoffToken, IdleAfter(s, e), false))
    case ClaimIt(_) => Some(Token(ControlToken, s.expires, false))
    case HandOver(_, _, _) => if s.site.authenticated then None else Some(Token(HandoverToken, IdleAfter(s, e), false))
    case _ => None
  }

  /** Whether it spends the token `t`. */
  predicate SpentBy(s: View, e: Event, t: TokenId)
    requires t in s.tokens
  {
    match e.op
    case ClaimIt(proof) => t == proof
    case TakeBack(proof, _) => s.tokens[t].kind == ControlToken || (if proof.Some? then t == proof.value else s.tokens[t].kind == HandoverToken)
    case CompleteIt(_) => !Resumes(s)
    case CancelIt(_) => true
    case CloseIt => true
    case ReapIt => StateAfter(s, e) == Expired && !Terminal(s.state)
    case JarGone(_) => StateAfter(s, e) != s.state
    case _ => false
  }

  ghost predicate TokensAfter(s: View, e: Event, tokens: map<TokenId, Token>) {
    && (forall t :: t in tokens <==> t in s.tokens || (t == e.mint && Minted(s, e).Some?))
    && (forall t <- s.tokens :: tokens[t] == s.tokens[t].(consumed := s.tokens[t].consumed || SpentBy(s, e, t)))
    && (Minted(s, e).Some? ==> tokens[e.mint] == Minted(s, e).value)
  }

  /** Whether the worker is closed for good. */
  predicate Closes(s: View, e: Event) {
    match e.op
    case CompleteIt(_) => !Resumes(s)
    case CancelIt(_) => true
    case CloseIt => true
    case _ => (e.op.ReapIt? || e.op.JarGone?) && StateAfter(s, e) != s.state
  }

  /** The guard is lifted while a human controls a jar-loaded session that is not an authenticated-site one,
      and put back when the agent of an authenticated-site session returns. */
  predicate GuardAfter(s: View, e: Event) {
    match e.op
    case Boot(_, _, _, loaded, _) => s.worker.guard && !(loaded.Some? && s.owner == ByHuman && !s.site.authenticated)
    case HandOff(_, _) => s.worker.guard && !(s.site.jarId.Some? && !s.site.authenticated)
    case TakeBack(_, _) => s.worker.guard || s.site.authenticated
    case _ => s.worker.guard
  }

  ghost predicate MovesTo(s: View, e: Event, t: View) {
    && t.state == StateAfter(s, e) && t.owner == (if t.state == s.state then s.owner else OwnerOf(t.state))
    && t.idle == IdleAfter(s, e) && t.resume == ResumeAfter(s, e) && t.site == s.site && t.expires == s.expires
    && TokensAfter(s, e, t.tokens)
    && t.worker.closed == (s.worker.closed || Closes(s, e)) && t.worker.guard == GuardAfter(s, e)
  }

  lemma SpentTokens(s: View, e: Event)
    requires Minted(s, e).None? && forall t <- s.tokens :: SpentBy(s, e, t)
    ensures TokensAfter(s, e, ConsumeAll(s.tokens))
  {
    hide SpentBy, Minted;
  }

  lemma KeptTokens(s: View, e: Event)
    requires Minted(s, e).None? && forall t <- s.tokens :: !SpentBy(s, e, t)
    ensures TokensAfter(s, e, s.tokens)
  {
    hide SpentBy, Minted;
  }

  lemma NewToken(s: View, e: Event)
    requires Minted(s, e).Some? && e.mint !in s.tokens && forall t <- s.tokens :: !SpentBy(s, e, t)
    ensures TokensAfter(s, e, s.tokens[e.mint := Minted(s, e).value])
  {
    hide SpentBy, Minted;
  }

  lemma HandoffMoves(s: View, e: Event)
    requires LeaseOk(s) && s.state != SanitizePending && Enabled(s, e) && Step(s, e).1 == Done && e.op.HandOff?
    ensures MovesTo(s, e, Step(s, e).0)
  {
    NewToken(s, e);
    hide Transition, TokensAfter, ExpiredAt;
  }

  lemma ClaimMoves(s: View, e: Event)
    requires LeaseOk(s) && s.state != SanitizePending && Enabled(s, e) && Step(s, e).1 == Done && e.op.ClaimIt?
    ensures MovesTo(s, e, Step(s, e).0)
  {
    hide Transition;
  }

  lemma CancelMoves(s: View, e: Event)
    requires LeaseOk(s) && s.state != SanitizePending && Step(s, e).1 == Done && e.op.CancelIt?
    ensures MovesTo(s, e, Step(s, e).0)
  {
    CancelGrants(s, e);
    SpentTokens(s, e);
    hide Transition, HumanOk, ExpiredAt, TokensAfter, ConsumeAll;
  }

  lemma HumanMoves(s: View, e: Event)
    requires LeaseOk(s) && s.state != SanitizePending && Step(s, e).1 == Done && (e.op.ExtendIt? || e.op.GoSensitive?)
    ensures MovesTo(s, e, Step(s, e).0)
  {
    HumanGrants(s, e);
    KeptTokens(s, e);
    hide Transition, HumanOk, ExpiredAt, TokensAfter;
  }

  lemma CompleteMoves(s: View, e: Event)
    requires LeaseOk(s) && s.state != SanitizePending && e.op.CompleteIt? && Step(s, e).1 == Done
    ensures MovesTo(s, e, Step(s, e).0)
  {
    SanitizeOutcome(Enter(s, SanitizePending));
    CompleteGrants(s, e);
    if Resumes(s) { KeptTokens(s, e); } else { SpentTokens(s, e); }
    hide Sanitize, Transition, HumanOk, ExpiredAt, TokensAfter, ConsumeAll;
  }

  lemma HandoverMoves(s: View, e: Event)
    requires LeaseOk(s) && s.state != SanitizePending && Enabled(s, e) && e.op.HandOver? && Step(s, e).1 == Done
    ensures MovesTo(s, e, Step(s, e).0)
  {
    PrepareOutcome(s, e.op.landed, e.op.fails);
    HandoverGrants(s, e);
    if s.site.authenticated { KeptTokens(s, e); } else { NewToken(s, e); }
    hide PrepareHandover, Transition, TokenOk, ExpiredAt, TokensAfter;
  }

  lemma TakeBackTokens(s: View, e: Event, proof: Option<TokenId>)
    requires e.op.TakeBack? && proof == e.op.proof && (proof.Some? ==> proof.value in s.tokens)
    ensures var spent := if proof.Some? then s.tokens[proof.value := s.tokens[proof.value].(consumed := true)] else ConsumeKind(s.tokens, HandoverToken);
      TokensAfter(s, e, ConsumeKind(spent, ControlToken))
  {}

  lemma TakeBackMoves(s: View, e: Event)
    requires LeaseOk(s) && s.state != SanitizePending && e.op.TakeBack? && Step(s, e).1 == Done
    ensures MovesTo(s, e, Step(s, e).0)
  {
    if e.op.proof.None? || e.op.proof.value in s.tokens { TakeBackTokens(s, e, e.op.proof); }
    hide ConsumeAll, ConsumeKind, TokensAfter, Transition;
  }

  lemma InputMoves(s: View, e: Event)
    requires LeaseOk(s) && s.state != SanitizePending && Step(s, e).1 == Done && (e.op.HumanInput? || e.op.AgentInput?)
    ensures MovesTo(s, e, Step(s, e).0)
  {
    KeptTokens(s, e);
    hide ConsumeAll, OffScope, HumanOk, Denied, TokensAfter, ExpiredAt, AgentHolds;
  }

  lemma SaveMoves(s: View, e: Event)
    requires LeaseOk(s) && s.state != SanitizePending && Step(s, e).1 == Done && e.op.SaveIt?
    ensures MovesTo(s, e, Step(s, e).0)
  {
    KeptTokens(s, e);
    hide ConsumeAll, OffScope, HumanOk, MaySave, TokensAfter, ExpiredAt;
  }

  lemma AutofillMoves(s: View, e: Event)
    requires LeaseOk(s) && s.state != SanitizePending && Step(s, e).1 == Done && e.op.AutofillIt?
    ensures MovesTo(s, e, Step(s, e).0)
  {
    DriveAllMoves(s.worker, e.op.drift);
    KeptTokens(s, e);
    hide ConsumeAll, DriveAll, TokensAfter, ExpiredAt, AgentHolds;
  }

  lemma BootMoves(s: View, e: Event)
    requires Enabled(s, e) && Step(s, e).1 == Done && e.op.Boot?
    ensures MovesTo(s, e, Step(s, e).0)
  {
    if s.owner == ByHuman { NewToken(s, e); } else { KeptTokens(s, e); }
    hide RecheckLoadable, IsRevokedGeneration, Cleanup, Fail, TokensAfter;
  }

  lemma CloseMoves(s: View, e: Event)
    requires LeaseOk(s) && e.op.CloseIt?
    ensures MovesTo(s, e, Step(s, e).0)
  {
    SpentTokens(s, e);
    hide ConsumeAll, TokensAfter;
  }

  lemma EndingMoves(s: View, e: Event)
    requires LeaseOk(s) && s.state != SanitizePending && (e.op.ReapIt? || e.op.JarGone? || e.op.PageMoves?)
    ensures MovesTo(s, e, Step(s, e).0)
  {
    if StateAfter(s, e) != s.state { SpentTokens(s, e); } else { KeptTokens(s, e); }
    hide ConsumeAll, TokensAfter, OffScope;
  }

  lemma StepMoves(s: View, e: Event)
    requires LeaseOk(s) && s.state != SanitizePending && Enabled(s, e) && Step(s, e).1 == Done
    ensures MovesTo(s, e, Step(s, e).0)
  {
    hide Step, MovesTo, LeaseOk, Enabled;
    match e.op
    case CompleteIt(_) => CompleteMoves(s, e);
    case HandOver(_, _, _) => HandoverMoves(s, e);
    case TakeBack(_, _) => TakeBackMoves(s, e);
    case HumanInput(_, _, _) => InputMoves(s, e);
    case AgentInput(_, _) => InputMoves(s, e);
    case SaveIt(_, _, _, _, _, _) => SaveMoves(s, e);
    case AutofillIt(_, _, _, _) => AutofillMoves(s, e);
    case HandOff(_, _) => HandoffMoves(s, e);
    case ClaimIt(_) => ClaimMoves(s, e);
    case CancelIt(_) => CancelMoves(s, e);
    case ExtendIt(_, _) => HumanMoves(s, e);
    case GoSensitive(_) => HumanMoves(s, e);
    case Boot(_, _, _, _, _) => BootMoves(s, e);
    case CloseIt => CloseMoves(s, e);
    case _ => EndingMoves(s, e);
  }

  /** In every reachable state an accepted operation leaves the lease, the deadline, the tokens, the guard
      and the worker as the rule book says. */
  lemma AcceptedMoves(ss: seq<View>, es: seq<Event>, i: nat)
    requires |ss| == |es| + 1 && Run(ss, es) && i < |es| && Step(ss[i], es[i]).1 == Done
    ensures MovesTo(ss[i], es[i], ss[i + 1])
  {
    RunKeepsInv(ss, es, i, false);
    hide Step, Run, TokensFit, DoorsOk, LogOk, ConfinedOk, MovesTo, Enabled, LeaseOk;
    FollowsRun(ss, es, i);
    StepMoves(ss[i], es[i]);
  }

  lemma FollowsRun(ss: seq<View>, es: seq<Event>, i: nat)
    requires |ss| == |es| + 1 && Run(ss, es) && i < |es|
    ensures Enabled(ss[i], es[i]) && ss[i + 1] == Step(ss[i], es[i]).0
  {
    hide Step, Enabled;
    assert Follows(ss, es, i);
  }

  /** A refused operation leaves the session as it was, or ends it: cancelled with its worker closed and
      its tokens spent, where the jar was found revoked or no longer good; or failed, where the worker is
      gone or did not start. */
  ghost predicate RefusedLeaves(s: View, e: Event, t: View) {
    || t == s
    || (t.state == Cancelled && t.owner == Nobody && t.worker.closed && t.log == s.log && forall k <- t.tokens :: t.tokens[k].consumed)
    || (t.state == SessionState.Failed && t.owner == Nobody && t.tokens == s.tokens && t.log == s.log && (s.worker.closed || FailsToStart(e)))
    || (e.op.AutofillIt? && t == s.(worker := s.worker.(page := t.worker.page)))
  }

  lemma CompleteRefused(s: View, e: Event)
    requires e.op.CompleteIt? && Step(s, e).1 != Done
    ensures RefusedLeaves(s, e, Step(s, e).0)
  {
    SanitizeOutcome(Enter(s, SanitizePending));
    hide Sanitize, HumanOk, ExpiredAt, Transition, Cleanup;
  }

  lemma HandoverRefused(s: View, e: Event)
    requires LeaseOk(s) && e.op.HandOver? && Step(s, e).1 != Done
    ensures RefusedLeaves(s, e, Step(s, e).0)
  {
    PrepareOutcome(s, e.op.landed, e.op.fails);
    hide PrepareHandover, TokenOk, ExpiredAt;
  }

  lemma CheckedRefused(s: View, e: Event)
    requires (e.op.TakeBack? || e.op.HumanInput? || e.op.AgentInput? || e.op.SaveIt?) && Step(s, e).1 != Done
    ensures RefusedLeaves(s, e, Step(s, e).0)
  {
    hide TokenOk, HumanOk, ExpiredAt, Transition, MaySave, ConsumeKind, Denied, OffScope;
  }

  lemma AutofillRefused(s: View, e: Event)
    requires e.op.AutofillIt? && Step(s, e).1 != Done
    ensures RefusedLeaves(s, e, Step(s, e).0)
  {
    DriveAllMoves(s.worker, e.op.drift);
    hide DriveAll, ExpiredAt;
  }

  lemma RestRefused(s: View, e: Event)
    requires !(e.op.TakeBack? || e.op.HumanInput? || e.op.AgentInput? || e.op.SaveIt? || e.op.AutofillIt? || e.op.CompleteIt? || e.op.HandOver?)
    requires Step(s, e).1 != Done
    ensures RefusedLeaves(s, e, Step(s, e).0)
  {
    hide TokenOk, HumanOk, ExpiredAt, Transition, OffScope, RecheckLoadable, IsRevokedGeneration;
  }

  lemma RefusedMoves(ss: seq<View>, es: seq<Event>, i: nat)
    requires |ss| == |es| + 1 && Run(ss, es) && i < |es| && Step(ss[i], es[i]).1 != Done
    ensures RefusedLeaves(ss[i], es[i], ss[i + 1])
  {
    RunKeepsInv(ss, es, i, false);
    hide Step, Run, TokensFit, DoorsOk, LogOk, ConfinedOk, RefusedLeaves, Enabled, LeaseOk;
    FollowsRun(ss, es, i);
    var s, e := ss[i], es[i];
    match e.op
    case CompleteIt(_) => CompleteRefused(s, e);
    case HandOver(_, _, _) => HandoverRefused(s, e);
    case AutofillIt(_, _, _, _) => AutofillRefused(s, e);
    case TakeBack(_, _) => CheckedRefused(s, e);
    case HumanInput(_, _, _) => CheckedRefused(s, e);
    case AgentInput(_, _) => CheckedRefused(s, e);
    case SaveIt(_, _, _, _, _, _) => CheckedRefused(s, e);
    case _ => RestRefused(s, e);
  }

  predicate Overdue(s: View, now: int) { !Terminal(s.state) && !InTime(s, now) }

  /** The reason a refused operation is given, by what is looked at first. */
  function Reason(s: View, e: Event): Refusal {
    match e.op
    case HandOff(resume, at) => if Overdue(s, e.now) then Inactive else if !at || (s.site.jarId.Some? && resume != Finishes) then Conflict else BadTransition
    case ClaimIt(t) => if Overdue(s, e.now) then Inactive else if !Good(s, t, HandoffToken, e.now) then Unauthorized else BadTransition
    case CompleteIt(t) => if !ByControl(s, t, e.now) then Unauthorized else if Overdue(s, e.now) then Inactive else Conflict
    case CancelIt(t) =>
      if ByControl(s, t, e.now) || (s.state == HandoffRequested && Good(s, t, HandoffToken, e.now)) || (s.state == HandoverRequested && Good(s, t, ControlToken, e.now))
      then Inactive else Unauthorized
    case HandOver(t, _, _) => if Overdue(s, e.now) then Inactive else if !Good(s, t, ControlToken, e.now) then Unauthorized else Conflict
    case TakeBack(_, revoked) => if Overdue(s, e.now) then Inactive else if s.state != HandoverRequested then Conflict else if revoked then Inactive else Unauthorized
    case ExtendIt(t, _) => if !ByControl(s, t, e.now) then Unauthorized else Inactive
    case GoSensitive(t) => if !ByControl(s, t, e.now) then Unauthorized else if Overdue(s, e.now) then Inactive else BadTransition
    case HumanInput(t, _, _) => if Overdue(s, e.now) then Inactive else if !ByControl(s, t, e.now) then Unauthorized else Inactive
    case AgentInput(cmd, revoked) =>
      if !InTime(s, e.now) then Inactive else if !AgentState(s.state) || Barred(s.site, cmd) then Unauthorized else if revoked then Inactive else Conflict
    case SaveIt(actor, target, owns, revoked, late, _) =>
      if actor.ActingHuman? && !ByControl(s, actor.token, e.now) then Unauthorized
      else if Overdue(s, e.now) || (revoked && !Terminal(s.state)) then Inactive
      else if !SavesRightly(s, e.now, actor, target, owns) then Unauthorized
      else if s.worker.closed then Conflict
      else if late then Inactive
      else Conflict
    case AutofillIt(revoked, _, late, _) =>
      if !InTime(s, e.now) then Inactive else if !AgentState(s.state) then Unauthorized else if revoked || late then Inactive else Conflict
    case _ => Inactive
  }

  predicate RefusedRightly(s: View, e: Event) { Step(s, e).1 == Done || Step(s, e).1 == Refused(Reason(s, e)) }

  lemma LeaseReasons(s: View, e: Event)
    requires LeaseOk(s) && s.state != SanitizePending && (e.op.HandOff? || e.op.ClaimIt?)
    ensures RefusedRightly(s, e)
  {}

  lemma HumanReasons(s: View, e: Event)
    requires LeaseOk(s) && s.state != SanitizePending && (e.op.ExtendIt? || e.op.GoSensitive?)
    ensures RefusedRightly(s, e)
  {}

  lemma CancelReasons(s: View, e: Event)
    requires LeaseOk(s) && s.state != SanitizePending && e.op.CancelIt?
    ensures RefusedRightly(s, e)
  {
    hide Cleanup;
  }

  lemma CompleteReasons(s: View, e: Event)
    requires LeaseOk(s) && s.state != SanitizePending && e.op.CompleteIt?
    ensures RefusedRightly(s, e)
  {
    SanitizeOutcome(Enter(s, SanitizePending));
    hide Sanitize, Cleanup;
  }

  lemma HandoverReasons(s: View, e: Event)
    requires LeaseOk(s) && s.state != SanitizePending && (e.op.HandOver? || e.op.TakeBack?)
    ensures RefusedRightly(s, e)
  {
    if e.op.HandOver? { PrepareOutcome(s, e.op.landed, e.op.fails); }
    hide PrepareHandover, ConsumeAll, ConsumeKind;
  }

  lemma InputReasons(s: View, e: Event)
    requires LeaseOk(s) && s.state != SanitizePending && (e.op.HumanInput? || e.op.AgentInput? || e.op.AutofillIt?)
    ensures RefusedRightly(s, e)
  {
    hide ConsumeAll, DriveAll, OffScope;
  }

  lemma SaveReasons(s: View, e: Event)
    requires LeaseOk(s) && s.state != SanitizePending && e.op.SaveIt?
    ensures RefusedRightly(s, e)
  {
    hide ConsumeAll, Adopt;
  }

  lemma RestReasons(s: View, e: Event)
    requires e.op.Boot? || e.op.CloseIt? || e.op.ReapIt? || e.op.JarGone? || e.op.PageMoves?
    ensures RefusedRightly(s, e)
  {
    hide ConsumeAll, OffScope, RecheckLoadable, IsRevokedGeneration;
  }

  /** In every reachable state a refusal names the first thing that stands against the operation. */
  lemma RefusedForAReason(ss: seq<View>, es: seq<Event>, i: nat)
    requires |ss| == |es| + 1 && Run(ss, es) && i < |es|
    ensures Step(ss[i], es[i]).1 == Done || Step(ss[i], es[i]).1 == Refused(Reason(ss[i], es[i]))
  {
    RunKeepsInv(ss, es, i, false);
    hide Step, Reason, Run, TokensFit, DoorsOk, LogOk, ConfinedOk;
    var s, e := ss[i], es[i];
    match e.op
    case HandOff(_, _) => LeaseReasons(s, e);
    case ClaimIt(_) => LeaseReasons(s, e);
    case ExtendIt(_, _) => HumanReasons(s, e);
    case GoSensitive(_) => HumanReasons(s, e);
    case CancelIt(_) => CancelReasons(s, e);
    case CompleteIt(_) => CompleteReasons(s, e);
    case HandOver(_, _, _) => HandoverReasons(s, e);
    case TakeBack(_, _) => HandoverReasons(s, e);
    case HumanInput(_, _, _) => InputReasons(s, e);
    case AgentInput(_, _) => InputReasons(s, e);
    case AutofillIt(_, _, _, _) => InputReasons(s, e);
    case SaveIt(_, _, _, _, _, _) => SaveReasons(s, e);
    case _ => RestReasons(s, e);
  }

  // ---------------------------------------------------------------- the page and the log

  /** Where a navigation to `p` leads. */
  function Landing(page: Page, guard: bool, set': seq<Origin>, p: Page): Page {
    if guard && set' != [] && !(p.At? && p.origin in set') then page else p
  }

  function LastLanding(page: Page, guard: bool, set': seq<Origin>, ps: seq<Page>): Page {
    if ps == [] then page else Landing(LastLanding(page, guard, set', ps[..|ps| - 1]), guard, set', ps[|ps| - 1])
  }

  function PageAfter(s: View, e: Event): Page {
    var w := s.worker;
    match e.op
    case AgentInput(Navigate(p, fails), _) => if fails then w.page else Landing(w.page, w.guard, w.confine, p)
    case AgentInput(ClosePage, _) => NoPage
    case HumanInput(_, _, Some(p)) => Landing(w.page, w.guard, w.confine, p)
    case PageMoves(p) => Landing(w.page, w.guard, w.confine, p)
    case CompleteIt(_) => if Resumes(s) then NoPage else w.page
    case HandOver(_, p, fails) =>
      if !s.site.authenticated then w.page
      else if fails || s.confineOrigins == [] then NoPage
      else Landing(NoPage, w.guard, w.confine, p)
    case SaveIt(_, _, _, _, _, Ok(m)) =>
      if s.site.jarId == Some(m.jarId) && s.site.confine then
        (if w.guard && m.origins + m.allowlist != [] && !(w.page.At? && w.page.origin in m.origins + m.allowlist) then AboutBlank else w.page)
      else w.page
    case AutofillIt(_, ps, _, _) => LastLanding(w.page, w.guard, w.confine, ps)
    case _ => w.page
  }

  function LogAfter(s: View, e: Event): seq<WorkerEvent> {
    match e.op
    case AgentInput(cmd, _) => s.log + [FromAgent(cmd)]
    case HumanInput(_, _, _) => s.log + [FromHuman]
    case CompleteIt(_) => if Resumes(s) then s.log + [Sanitized] else s.log
    case HandOver(_, _, _) =>
      if !s.site.authenticated then s.log else if s.confineOrigins == [] then s.log + [Sanitized] else s.log + [Sanitized, Reopened]
    case _ => s.log
  }

  ghost predicate PageGoes(s: View, e: Event, t: View) { t.worker.page == PageAfter(s, e) && t.log == LogAfter(s, e) }

  lemma {:induction false} DriveLands(w: WorkerView, ps: seq<Page>)
    ensures DriveAll(w, ps).page == LastLanding(w.page, w.guard, w.confine, ps)
    decreases |ps|
  {
    DriveAllMoves(w, ps[..if |ps| > 0 then |ps| - 1 else 0]);
    if ps != [] { DriveLands(w, ps[..|ps| - 1]); }
  }

  lemma CompletePageGoes(s: View, e: Event)
    requires e.op.CompleteIt? && Step(s, e).1 == Done
    ensures PageGoes(s, e, Step(s, e).0)
  {
    SanitizeOutcome(Enter(s, SanitizePending));
    hide Sanitize, HumanOk, ExpiredAt, Transition;
  }

  lemma HandoverPageGoes(s: View, e: Event)
    requires e.op.HandOver? && Step(s, e).1 == Done
    ensures PageGoes(s, e, Step(s, e).0)
  {
    PreparedPageGoes(s, e.op.landed, e.op.fails);
    PrepareOutcome(s, e.op.landed, e.op.fails);
    hide PrepareHandover, TokenOk, ExpiredAt, Transition, Landing;
  }

  lemma PreparedPageGoes(s: View, p: Page, fails: bool)
    ensures var (t, ok) := PrepareHandover(s, p, fails);
      ok ==>
        && t.worker.page == (if !s.site.authenticated then s.worker.page
                             else if fails || s.confineOrigins == [] then NoPage
                             else Landing(NoPage, s.worker.guard, s.worker.confine, p))
        && t.log == (if !s.site.authenticated then s.log else if s.confineOrigins == [] then s.log + [Sanitized] else s.log + [Sanitized, Reopened])
  {}

  lemma CheckedPageGoes(s: View, e: Event)
    requires (e.op.TakeBack? || e.op.HumanInput? || e.op.AgentInput?) && Step(s, e).1 == Done
    ensures PageGoes(s, e, Step(s, e).0)
  {
    hide TokenOk, HumanOk, ExpiredAt, Transition, ConsumeKind, ConsumeAll, Denied;
  }

  lemma SavePageGoes(s: View, e: Event)
    requires e.op.SaveIt? && Step(s, e).1 == Done
    ensures PageGoes(s, e, Step(s, e).0)
  {
    DoneWasSaved(s, e);
    hide HumanOk, ExpiredAt, MaySave, ConsumeAll;
  }

  lemma AutofillPageGoes(s: View, e: Event)
    requires e.op.AutofillIt? && Step(s, e).1 == Done
    ensures PageGoes(s, e, Step(s, e).0)
  {
    DriveLands(s.worker, e.op.drift);
    hide DriveAll, LastLanding, ExpiredAt;
  }

  lemma RestPageGoes(s: View, e: Event)
    requires !(e.op.TakeBack? || e.op.HumanInput? || e.op.AgentInput? || e.op.SaveIt? || e.op.AutofillIt? || e.op.CompleteIt? || e.op.HandOver?)
    requires Step(s, e).1 == Done
    ensures PageGoes(s, e, Step(s, e).0)
  {
    hide TokenOk, HumanOk, ExpiredAt, Transition, RecheckLoadable, IsRevokedGeneration, ConsumeAll;
  }

  /** In every run an accepted operation puts the page where the rule book says: navigations of the agent,
      the human and the page itself land wherever the guard lets them, a session that becomes resumable or is
      handed over has its page closed, a jar that is saved with a narrower scope blanks a page outside it.
      What the worker's log gains is as it says, too. */
  lemma AcceptedPage(ss: seq<View>, es: seq<Event>, i: nat)
    requires |ss| == |es| + 1 && Run(ss, es) && i < |es| && Step(ss[i], es[i]).1 == Done
    ensures PageGoes(ss[i], es[i], ss[i + 1])
  {
    hide Step, Run, PageGoes, Enabled;
    FollowsRun(ss, es, i);
    var s, e := ss[i], es[i];
    match e.op
    case CompleteIt(_) => CompletePageGoes(s, e);
    case HandOver(_, _, _) => HandoverPageGoes(s, e);
    case AutofillIt(_, _, _, _) => AutofillPageGoes(s, e);
    case TakeBack(_, _) => CheckedPageGoes(s, e);
    case HumanInput(_, _, _) => CheckedPageGoes(s, e);
    case AgentInput(_, _) => CheckedPageGoes(s, e);
    case SaveIt(_, _, _, _, _, _) => SavePageGoes(s, e);
    case _ => RestPageGoes(s, e);
  }
}
