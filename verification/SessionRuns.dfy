/** Whole runs of one browser session.

    Any sequence of operations, in any order, with any answers from the jar store and any navigation the
    page starts on its own. Creation registers the session before its worker starts and holds no lock
    meanwhile, so what follows the start (`Boot`) may fall between any two other operations. */
module SessionRuns {
  import opened Tombstones
  import opened CookieScope
  import opened JarEnvelope
  import opened JarStore
  import opened Leases
  import opened Sessions

  datatype Op =
    | Boot(config: Config, disk: Disk, req: CreateReq, loaded: Option<Meta>, started: bool)
    | HandOff(resume: Resume, atExpectedOrigin: bool)
    | ClaimIt(token: TokenId)
    | CompleteIt(token: TokenId)
    | CancelIt(token: TokenId)
    | HandOver(token: TokenId, landed: Page, fails: bool)
    | TakeBack(proof: Option<TokenId>, revoked: bool)
    | ExtendIt(token: TokenId, minutes: nat)
    | GoSensitive(token: TokenId)
    | HumanInput(token: TokenId, revoked: bool, moves: Option<Page>)
    | AgentInput(cmd: Cmd, revoked: bool)
    | SaveIt(actor: Actor, target: Option<JarId>, ownsTarget: bool, revoked: bool, revokedAfterExport: bool, saved: Result<Meta>)
    | AutofillIt(revoked: bool, drift: seq<Page>, late: bool, doneAt: Option<int>)
    | CloseIt | ReapIt | JarGone(id: JarId)
    | PageMoves(page: Page)

  /** `mint` is the token the operation may issue. */
  datatype Event = Event(now: int, mint: TokenId, op: Op)

  function Step(s: View, e: Event): (View, Reply) {
    match e.op
    case Boot(c, d, r, loaded, started) => AfterStart(c, d, r, loaded, s, e.now, started, e.mint)
    case HandOff(resume, at) => Handoff(s, e.now, resume, at, e.mint)
    case ClaimIt(t) => Claim(s, e.now, t, e.mint)
    case CompleteIt(t) => Complete(s, e.now, t)
    case CancelIt(t) => Cancel(s, e.now, t)
    case HandOver(t, landed, fails) => Handover(s, e.now, t, e.mint, landed, fails)
    case TakeBack(t, revoked) => AgentClaim(s, e.now, t, revoked)
    case ExtendIt(t, minutes) => Extend(s, e.now, t, minutes)
    case GoSensitive(t) => MarkSensitive(s, e.now, t)
    case HumanInput(t, revoked, moves) => Input(s, e.now, t, revoked, moves)
    case AgentInput(cmd, revoked) => Command(s, e.now, cmd, revoked)
    case SaveIt(actor, target, owns, revoked, late, saved) => SaveFrom(s, e.now, actor, target, owns, revoked, late, saved)
    case AutofillIt(revoked, moves, late, doneAt) => AutofillTurn(s, e.now, revoked, moves, late, doneAt)
    case CloseIt => (Close(s), Done)
    case ReapIt => (Reap(s, e.now), Done)
    case JarGone(id) => (CloseForJar(s, id), Done)
    case PageMoves(page) => (s.(worker := Drive(s.worker, page)), Done)
  }

  predicate Enabled(s: View, e: Event) {
    && e.mint !in s.tokens
    && (e.op.Boot? ==> e.op.loaded.Some? == s.site.jarId.Some?)
  }

  /** Creation refuses an authenticated-site session that has neither a jar nor an origin set. */
  predicate Admissible(r: CreateReq, loaded: Option<Meta>) {
    && ConfinementAgrees(r, loaded)
    && (r.authenticated && loaded.None? ==> r.origins.Some? && r.origins.value != [])
  }

  ghost predicate Born(s: View) {
    exists r, loaded, now :: Admissible(r, loaded) && s == Registered(r, loaded, now)
  }

  ghost predicate Run(ss: seq<View>, es: seq<Event>) {
    && |ss| == |es| + 1
    && Born(ss[0])
    && forall i | 0 <= i < |es| :: Follows(ss, es, i)
  }

  ghost predicate Follows(ss: seq<View>, es: seq<Event>, i: nat)
    requires i < |es| < |ss|
  {
    Enabled(ss[i], es[i]) && ss[i + 1] == Step(ss[i], es[i]).0
  }

  predicate FailsToStart(e: Event) { e.op.Boot? && !e.op.started }

  /** The start fails while an unspent handoff or handover token is out. */
  ghost predicate Strands(s: View, e: Event) {
    FailsToStart(e) && exists t :: Live(s.tokens, t, HandoffToken) || Live(s.tokens, t, HandoverToken)
  }

  // ---------------------------------------------------------------- the invariant

  predicate LeaseOk(s: View) { s.owner == OwnerOf(s.state) && s.idle <= s.expires }

  predicate Live(tokens: map<TokenId, Token>, t: TokenId, kind: TokenKind) {
    t in tokens && !tokens[t].consumed && tokens[t].kind == kind
  }

  ghost predicate OneAtMost(tokens: map<TokenId, Token>, kind: TokenKind) {
    forall t, u | Live(tokens, t, kind) && Live(tokens, u, kind) :: t == u
  }

  /** `strict` holds of runs in which no start fails while a request is pending. */
  ghost predicate TokensFit(tokens: map<TokenId, Token>, state: SessionState, strict: bool) {
    && (forall t | Live(tokens, t, HandoffToken) :: state == HandoffRequested || (!strict && state == SessionState.Failed))
    && (forall t | Live(tokens, t, HandoverToken) :: state == HandoverRequested || (!strict && state == SessionState.Failed))
    && (forall t | Live(tokens, t, ControlToken) :: state !in {AgentActive, Completed, Cancelled, Expired})
    && OneAtMost(tokens, HandoffToken)
    && OneAtMost(tokens, HandoverToken)
  }

  /** Loaded from a jar and not an authenticated-site session. */
  predicate JarOnly(s: View) { s.site.jarId.Some? && !s.site.authenticated }

  predicate DoorsOk(s: View) {
    && (JarOnly(s) ==> s.resume == Finishes && s.state !in {HandoverRequested, AgentResumable})
    && (!s.worker.guard ==> JarOnly(s) && !AgentState(s.state))
  }

  ghost predicate SanitizedAfter(log: seq<WorkerEvent>, h: int) { exists z :: h < z < |log| && 0 <= z && log[z] == Sanitized }

  /** Whatever a human did is behind a closed page. */
  ghost predicate Clean(log: seq<WorkerEvent>) { forall h | 0 <= h < |log| && log[h] == FromHuman :: SanitizedAfter(log, h) }

  ghost predicate AgentSeesClean(log: seq<WorkerEvent>) { forall k | 0 <= k < |log| && log[k].FromAgent? :: Clean(log[..k]) }

  predicate NoHuman(log: seq<WorkerEvent>) { FromHuman !in log }

  predicate NoAgentAfterHuman(log: seq<WorkerEvent>) {
    forall h, k | 0 <= h < k < |log| && log[h] == FromHuman :: !log[k].FromAgent?
  }

  ghost predicate LogOk(s: View) {
    && (s.state == AgentResumable ==> Clean(s.log))
    && (s.site.authenticated && (AgentState(s.state) || s.state in {HandoffRequested, HandoverRequested}) ==> Clean(s.log))
    && (s.site.authenticated ==> AgentSeesClean(s.log))
    && (JarOnly(s) && AgentState(s.state) ==> NoHuman(s.log))
    && (JarOnly(s) ==> NoAgentAfterHuman(s.log))
  }

  predicate Inside(p: Page, origins: seq<Origin>) { p.NoPage? || p.AboutBlank? || (p.At? && p.origin in origins) }

  predicate ConfinedOk(s: View) {
    && (s.site.authenticated ==> s.site.confine)
    && (s.site.authenticated && s.site.jarId.None? ==> s.confineOrigins != [])
    && s.worker.confine == (if s.site.confine then s.confineOrigins else [])
    && (s.worker.guard && s.worker.confine != [] ==> Inside(s.worker.page, s.worker.confine))
  }

  ghost predicate Inv(s: View, strict: bool) {
    LeaseOk(s) && s.state != SanitizePending && TokensFit(s.tokens, s.state, strict) && DoorsOk(s) && LogOk(s) && ConfinedOk(s)
  }

  lemma BornIsFine(s: View)
    requires Born(s)
    ensures Inv(s, true)
  {}

  // ---------------------------------------------------------------- the log

  lemma CleanAppend(log: seq<WorkerEvent>, e: WorkerEvent)
    requires e == Sanitized || (Clean(log) && e != FromHuman)
    ensures Clean(log + [e])
  {
    forall h | 0 <= h < |log + [e]| && (log + [e])[h] == FromHuman
      ensures SanitizedAfter(log + [e], h)
    {
      if e == Sanitized { assert (log + [e])[|log|] == Sanitized; }
      else {
        assert SanitizedAfter(log, h);
        var z :| h < z < |log| && 0 <= z && log[z] == Sanitized;
        assert (log + [e])[z] == Sanitized;
      }
    }
  }

  lemma SeesCleanAppend(log: seq<WorkerEvent>, e: WorkerEvent)
    requires AgentSeesClean(log) && (e.FromAgent? ==> Clean(log))
    ensures AgentSeesClean(log + [e])
  {
    forall k | 0 <= k < |log + [e]| && (log + [e])[k].FromAgent? ensures Clean((log + [e])[..k]) {
      if k < |log| { assert (log + [e])[..k] == log[..k]; } else { assert (log + [e])[..k] == log; }
    }
  }

  // ---------------------------------------------------------------- every operation keeps the invariant

  lemma SpentFits(tokens: map<TokenId, Token>, state: SessionState, strict: bool)
    ensures TokensFit(ConsumeAll(tokens), state, strict)
  {}

  /** A token minted for the state that begins. */
  lemma MintFits(tokens: map<TokenId, Token>, from: SessionState, mint: TokenId, token: Token, to: SessionState, strict: bool)
    requires TokensFit(tokens, from, strict) && mint !in tokens && !Terminal(from)
    requires match token.kind
             case HandoffToken => from != HandoffRequested && to == HandoffRequested && from != HandoverRequested
             case HandoverToken => from != HandoverRequested && to == HandoverRequested && from != HandoffRequested
             case ControlToken => from == to && to !in {AgentActive, Completed, Cancelled, Expired}
    ensures TokensFit(tokens[mint := token], to, strict)
  {
    var after := tokens[mint := token];
    forall t, kind | Live(after, t, kind) ensures t == mint || Live(tokens, t, kind) {}
  }

  lemma HandoffKeeps(s: View, e: Event, resume: Resume, at: bool, strict: bool)
    requires Inv(s, strict) && e.mint !in s.tokens
    ensures Inv(Handoff(s, e.now, resume, at, e.mint).0, strict)
  {
    hide TokensFit, Clean, AgentSeesClean, NoAgentAfterHuman, NoHuman, Inside;
    if !Terminal(s.state) && s.state !in {HandoffRequested, HandoverRequested} {
      var idle := Min(e.now + 10 * MINUTE, s.expires);
      MintFits(s.tokens, s.state, e.mint, Token(HandoffToken, idle, false), HandoffRequested, strict);
    }
  }

  lemma ClaimFits(tokens: map<TokenId, Token>, t: TokenId, mint: TokenId, token: Token, strict: bool)
    requires TokensFit(tokens, HandoffRequested, strict) && mint !in tokens && Live(tokens, t, HandoffToken) && token.kind == ControlToken
    ensures TokensFit(tokens[t := tokens[t].(consumed := true)][mint := token], HumanActive, strict)
  {
    var after := tokens[t := tokens[t].(consumed := true)][mint := token];
    forall u, kind | Live(after, u, kind) ensures u == mint || (u != t && Live(tokens, u, kind)) {}
  }

  lemma ClaimKeeps(s: View, e: Event, t: TokenId, strict: bool)
    requires Inv(s, strict) && e.mint !in s.tokens
    ensures Inv(Claim(s, e.now, t, e.mint).0, strict)
  {
    hide TokensFit, Clean, AgentSeesClean, NoAgentAfterHuman, NoHuman, Inside;
    if s.state == HandoffRequested && Live(s.tokens, t, HandoffToken) {
      ClaimFits(s.tokens, t, e.mint, Token(ControlToken, s.expires, false), strict);
    }
  }

  /** Without a token minted or spent, a state may be followed by any that its tokens allow. */
  lemma StaysFit(tokens: map<TokenId, Token>, from: SessionState, to: SessionState, strict: bool)
    requires TokensFit(tokens, from, strict)
    requires from == to || (from !in {HandoffRequested, HandoverRequested} && !Terminal(from))
    requires to !in {AgentActive, Completed, Cancelled, Expired}
    ensures TokensFit(tokens, to, strict)
  {}

  /** Ending the session, with or without clearing up: only a terminal state has so little to keep. */
  lemma EndedIsFine(s: View, to: SessionState, strict: bool)
    requires Inv(s, strict) && Terminal(to)
    ensures Inv(Cleanup(Enter(s, to)), strict)
    ensures (!strict || s.state !in {HandoffRequested, HandoverRequested}) && to == SessionState.Failed ==> Inv(Enter(s, to), strict)
  {
    hide TokensFit, Clean, AgentSeesClean, NoAgentAfterHuman, NoHuman, Inside;
    SpentFits(s.tokens, to, strict);
    if (!strict || s.state !in {HandoffRequested, HandoverRequested}) && to == SessionState.Failed {
      FailedFits(s.tokens, s.state, strict);
    }
  }

  lemma FailedFits(tokens: map<TokenId, Token>, from: SessionState, strict: bool)
    requires TokensFit(tokens, from, strict) && (!strict || from !in {HandoffRequested, HandoverRequested})
    ensures TokensFit(tokens, SessionState.Failed, strict)
  {}

  lemma EnforceKeeps(s: View, revoked: bool, strict: bool)
    requires Inv(s, strict)
    ensures Inv(Enforce(s, revoked).0, strict)
    ensures !Enforce(s, revoked).1 ==> Enforce(s, revoked).0 == s
  {
    hide Inv, Cleanup;
    EndedIsFine(s, Cancelled, strict);
  }

  /** Closing the page makes the log clean, whatever it was. */
  lemma SanitizedIsClean(s: View)
    requires ConfinedOk(s) && !s.worker.closed && (s.site.authenticated ==> AgentSeesClean(s.log)) && (JarOnly(s) ==> NoAgentAfterHuman(s.log))
    ensures var r := Sanitize(s).0; Clean(r.log) && ConfinedOk(r) && (s.site.authenticated ==> AgentSeesClean(r.log)) && (JarOnly(s) ==> NoAgentAfterHuman(r.log))
  {
    hide Clean, AgentSeesClean;
    CleanAppend(s.log, Sanitized);
    if s.site.authenticated { SeesCleanAppend(s.log, Sanitized); }
  }

  lemma CompleteKeeps(s: View, e: Event, t: TokenId, strict: bool)
    requires Inv(s, strict)
    ensures Inv(Complete(s, e.now, t).0, strict)
  {
    hide TokensFit, Clean, AgentSeesClean, NoAgentAfterHuman, NoHuman, Inside, Cleanup, Sanitize;
    EndedIsFine(s, Completed, strict);
    EndedIsFine(s, SessionState.Failed, strict);
    if s.state == HumanActive && s.resume == AfterSanitize {
      var s1 := Enter(s, SanitizePending);
      StaysFit(s.tokens, HumanActive, AgentResumable, strict);
      SanitizeOutcome(s1);
      if !s1.worker.closed { SanitizedIsClean(s1); }
    }
  }

  lemma SanitizeOutcome(s: View)
    ensures s.worker.closed ==> Sanitize(s) == (Enter(s, SessionState.Failed), false)
    ensures !s.worker.closed ==> Sanitize(s) == (s.(worker := s.worker.(page := NoPage), log := s.log + [Sanitized]), true)
  {}

  lemma PrepareKeeps(s: View, landed: Page, fails: bool, strict: bool)
    requires Inv(s, strict) && s.state == HumanActive && !JarOnly(s)
    ensures var (r, ok) := PrepareHandover(s, landed, fails);
      && Inv(r, strict)
      && (ok ==> r == s.(resume := r.resume, worker := r.worker, log := r.log) && (s.site.authenticated ==> Clean(r.log)))
  {
    hide TokensFit, Clean, AgentSeesClean, NoAgentAfterHuman, NoHuman, Inside, Cleanup, Sanitize;
    var s1 := s.(resume := if s.site.authenticated then AfterSanitize else Finishes);
    EndedIsFine(s1, SessionState.Failed, strict);
    if s.site.authenticated {
      SanitizeOutcome(s1);
      if !s.worker.closed {
        SanitizedIsClean(s1);
        ReopenKeeps(Sanitize(s1).0, landed, fails);
      }
    }
  }

  lemma ReopenKeeps(s: View, landed: Page, fails: bool)
    requires ConfinedOk(s) && s.site.authenticated && Clean(s.log) && AgentSeesClean(s.log)
    ensures var r := Reopen(s, landed, fails); Clean(r.log) && ConfinedOk(r) && AgentSeesClean(r.log) && r == s.(worker := s.worker.(page := r.worker.page), log := r.log)
  {
    hide Clean, AgentSeesClean;
    CleanAppend(s.log, Reopened);
    SeesCleanAppend(s.log, Reopened);
  }

  lemma HandoverKeeps(s: View, e: Event, t: TokenId, landed: Page, fails: bool, strict: bool)
    requires Inv(s, strict) && e.mint !in s.tokens
    ensures Inv(Handover(s, e.now, t, e.mint, landed, fails).0, strict)
  {
    hide TokensFit, Clean, AgentSeesClean, NoAgentAfterHuman, NoHuman, Inside, PrepareHandover;
    if s.state == HumanActive && !JarOnly(s) {
      PrepareKeeps(s, landed, fails, strict);
      var idle := Min(e.now + 10 * MINUTE, s.expires);
      StaysFit(s.tokens, s.state, HandoverRequested, strict);
      MintFits(s.tokens, s.state, e.mint, Token(HandoverToken, idle, false), HandoverRequested, strict);
    }
  }

  lemma TakeBackFits(tokens: map<TokenId, Token>, t: Option<TokenId>, strict: bool)
    requires TokensFit(tokens, HandoverRequested, strict) && (t.Some? ==> Live(tokens, t.value, HandoverToken))
    ensures var spent := if t.Some? then tokens[t.value := tokens[t.value].(consumed := true)] else ConsumeKind(tokens, HandoverToken);
      TokensFit(ConsumeKind(spent, ControlToken), AgentActive, strict)
  {
    var spent := if t.Some? then tokens[t.value := tokens[t.value].(consumed := true)] else ConsumeKind(tokens, HandoverToken);
    var after := ConsumeKind(spent, ControlToken);
    forall u: TokenId, kind ensures !Live(after, u, kind) {
      assert Live(after, u, kind) ==> Live(tokens, u, kind) && t != Some(u);
    }
  }

  lemma TakeBackKeeps(s: View, e: Event, t: Option<TokenId>, revoked: bool, strict: bool)
    requires Inv(s, strict)
    ensures Inv(AgentClaim(s, e.now, t, revoked).0, strict)
  {
    hide TokensFit, Clean, AgentSeesClean, NoAgentAfterHuman, NoHuman, Inside, Enforce, ConsumeKind;
    EnforceKeeps(s, revoked, strict);
    if s.state == HandoverRequested && (t.None? || Live(s.tokens, t.value, HandoverToken)) {
      TakeBackFits(s.tokens, t, strict);
    }
  }

  lemma DriveKeeps(s: View, p: Page)
    requires ConfinedOk(s)
    ensures ConfinedOk(s.(worker := Drive(s.worker, p)))
    ensures Drive(s.worker, p) == s.worker.(page := Drive(s.worker, p).page)
  {}

  lemma InputKeeps(s: View, e: Event, t: TokenId, revoked: bool, moves: Option<Page>, strict: bool)
    requires Inv(s, strict)
    ensures Inv(Input(s, e.now, t, revoked, moves).0, strict)
  {
    hide TokensFit, Clean, AgentSeesClean, NoHuman, Inside, Enforce, Drive;
    EnforceKeeps(s, revoked, strict);
    if moves.Some? { DriveKeeps(s, moves.value); }
    if s.site.authenticated { SeesCleanAppend(s.log, FromHuman); }
  }

  lemma CommandKeeps(s: View, e: Event, cmd: Cmd, revoked: bool, strict: bool)
    requires Inv(s, strict)
    ensures Inv(Command(s, e.now, cmd, revoked).0, strict)
  {
    hide TokensFit, Clean, AgentSeesClean, Enforce, Drive;
    EnforceKeeps(s, revoked, strict);
    if AgentState(s.state) { EndedIsFine(s, SessionState.Failed, strict); }
    if cmd.Navigate? { DriveKeeps(s, cmd.target); }
    if s.state == AgentResumable || (s.site.authenticated && AgentState(s.state)) {
      CleanAppend(s.log, FromAgent(cmd));
      if s.site.authenticated { SeesCleanAppend(s.log, FromAgent(cmd)); }
    }
  }

  lemma AdoptKeeps(s: View, m: Meta, strict: bool)
    requires Inv(s, strict) && !s.worker.closed
    ensures Inv(Adopt(s, m), strict)
  {
    hide TokensFit, Clean, AgentSeesClean, NoAgentAfterHuman, NoHuman;
  }

  lemma SaveKeeps(s: View, e: Event, strict: bool)
    requires Inv(s, strict) && e.op.SaveIt?
    ensures Inv(Step(s, e).0, strict)
  {
    hide Inv, Enforce, Adopt, MaySave;
    var SaveIt(actor, target, owns, revoked, late, saved) := e.op;
    EnforceKeeps(s, revoked, strict);
    EnforceKeeps(s, late, strict);
    if !s.worker.closed && saved.Ok? { AdoptKeeps(s, saved.value, strict); }
  }

  /** A start that fails leaves tokens and state in step exactly if no handoff or handover token is out. */
  lemma UnstrandedFits(tokens: map<TokenId, Token>, from: SessionState)
    requires TokensFit(tokens, from, true)
    ensures TokensFit(tokens, SessionState.Failed, true) <==>
              forall t :: !Live(tokens, t, HandoffToken) && !Live(tokens, t, HandoverToken)
  {}

  lemma FailedStartKeeps(s: View, strict: bool)
    requires Inv(s, strict)
    requires strict ==> forall t :: !Live(s.tokens, t, HandoffToken) && !Live(s.tokens, t, HandoverToken)
    ensures Inv(Fail(s), strict)
  {
    if strict { UnstrandedFits(s.tokens, s.state); } else { FailedFits(s.tokens, s.state, false); }
    hide TokensFit, Clean, AgentSeesClean, NoAgentAfterHuman, NoHuman, Inside;
  }

  lemma StartedKeeps(s: View, e: Event, strict: bool)
    requires Inv(s, strict) && Enabled(s, e) && e.op.Boot? && e.op.started
    ensures Inv(Step(s, e).0, strict)
  {
    hide TokensFit, Clean, AgentSeesClean, NoAgentAfterHuman, NoHuman, Inside, RecheckLoadable, IsRevokedGeneration, Cleanup, Fail;
    EndedIsFine(s, Cancelled, strict);
    if s.owner == ByHuman {
      MintFits(s.tokens, s.state, e.mint, Token(ControlToken, s.expires, false), s.state, strict);
    }
  }

  lemma BootKeeps(s: View, e: Event, strict: bool)
    requires Inv(s, strict) && Enabled(s, e) && e.op.Boot? && (strict ==> !Strands(s, e))
    ensures Inv(Step(s, e).0, strict)
  {
    if e.op.started {
      hide *;
      StartedKeeps(s, e, strict);
    } else {
      hide Inv, Live, Enabled, RecheckLoadable, IsRevokedGeneration, Cleanup, Fail;
      FailedStartKeeps(s, strict);
    }
  }

  lemma EndingKeeps(s: View, now: int, t: TokenId, id: JarId, strict: bool)
    requires Inv(s, strict)
    ensures Inv(Cancel(s, now, t).0, strict)
    ensures Inv(Close(s), strict)
    ensures Inv(Reap(s, now), strict)
    ensures Inv(CloseForJar(s, id), strict)
  {
    assert LeaseOk(s);
    hide Inv, Cleanup, ExpiredAt, HumanOk;
    EndedIsFine(s, Cancelled, strict);
    EndedIsFine(s, Expired, strict);
    if Terminal(s.state) { EndedIsFine(s, s.state, strict); }
  }

  lemma LingeringKeeps(s: View, now: int, t: TokenId, minutes: nat, strict: bool)
    requires Inv(s, strict)
    ensures Inv(Extend(s, now, t, minutes).0, strict)
    ensures Inv(MarkSensitive(s, now, t).0, strict)
  {
    hide TokensFit, Clean, AgentSeesClean, NoAgentAfterHuman, NoHuman, Inside, HumanOk;
    if s.state == HumanActive { StaysFit(s.tokens, HumanActive, HumanSensitive, strict); }
  }

  lemma PageMoveKeeps(s: View, p: Page, strict: bool)
    requires Inv(s, strict)
    ensures Inv(s.(worker := Drive(s.worker, p)), strict)
  {
    hide TokensFit, Clean, AgentSeesClean, NoAgentAfterHuman, NoHuman, Inside, Drive;
    DriveKeeps(s, p);
  }

  lemma {:induction false} DriveAllKeeps(s: View, ps: seq<Page>)
    requires ConfinedOk(s)
    ensures ConfinedOk(s.(worker := DriveAll(s.worker, ps)))
    ensures DriveAll(s.worker, ps) == s.worker.(page := DriveAll(s.worker, ps).page)
    decreases |ps|
  {
    if ps != [] {
      DriveAllKeeps(s, ps[..|ps| - 1]);
      hide Drive, Inside;
      var w := DriveAll(s.worker, ps[..|ps| - 1]);
      DriveKeeps(s.(worker := w), ps[|ps| - 1]);
    }
  }

  lemma AutofillKeeps(s: View, e: Event, revoked: bool, moves: seq<Page>, late: bool, doneAt: Option<int>, strict: bool)
    requires Inv(s, strict)
    ensures Inv(AutofillTurn(s, e.now, revoked, moves, late, doneAt).0, strict)
  {
    hide TokensFit, Clean, AgentSeesClean, NoAgentAfterHuman, NoHuman, Inside, Enforce, DriveAll, ExpiredAt;
    EnforceKeeps(s, revoked, strict);
    DriveAllKeeps(s, moves);
    EnforceKeeps(s.(worker := DriveAll(s.worker, moves)), true, strict);
  }

  lemma StepKeepsInv(s: View, e: Event, strict: bool)
    requires Inv(s, strict) && Enabled(s, e) && (strict ==> !Strands(s, e))
    ensures Inv(Step(s, e).0, strict)
  {
    hide Inv, AfterStart, Handoff, Claim, Complete, Cancel, Handover, AgentClaim, Extend, MarkSensitive, Input, Command, SaveFrom, AutofillTurn, Close, Reap, CloseForJar, Drive;
    match e.op
    case Boot(_, _, _, _, _) => BootKeeps(s, e, strict);
    case HandOff(resume, at) => HandoffKeeps(s, e, resume, at, strict);
    case ClaimIt(t) => ClaimKeeps(s, e, t, strict);
    case CompleteIt(t) => CompleteKeeps(s, e, t, strict);
    case HandOver(t, landed, fails) => HandoverKeeps(s, e, t, landed, fails, strict);
    case TakeBack(t, revoked) => TakeBackKeeps(s, e, t, revoked, strict);
    case HumanInput(t, revoked, moves) => InputKeeps(s, e, t, revoked, moves, strict);
    case AgentInput(cmd, revoked) => CommandKeeps(s, e, cmd, revoked, strict);
    case SaveIt(_, _, _, _, _, _) => SaveKeeps(s, e, strict);
    case AutofillIt(revoked, moves, late, doneAt) => AutofillKeeps(s, e, revoked, moves, late, doneAt, strict);
    case CancelIt(t) => EndingKeeps(s, e.now, t, "", strict);
    case CloseIt => EndingKeeps(s, e.now, 0, "", strict);
    case ReapIt => EndingKeeps(s, e.now, 0, "", strict);
    case JarGone(id) => EndingKeeps(s, e.now, 0, id, strict);
    case ExtendIt(t, minutes) => LingeringKeeps(s, e.now, t, minutes, strict);
    case GoSensitive(t) => LingeringKeeps(s, e.now, t, 0, strict);
    case PageMoves(p) => PageMoveKeeps(s, p, strict);
  }

  // ---------------------------------------------------------------- what a run can and cannot do

  /** Before point `n` no start failed while a request was pending. */
  ghost predicate NothingStranded(ss: seq<View>, es: seq<Event>, n: nat) {
    forall i | 0 <= i < n && i < |es| && i < |ss| :: !Strands(ss[i], es[i])
  }

  lemma {:induction false} RunKeepsInv(ss: seq<View>, es: seq<Event>, i: nat, strict: bool)
    requires Run(ss, es) && i < |ss| && (strict ==> NothingStranded(ss, es, i))
    ensures Inv(ss[i], strict)
    decreases i
  {
    hide Inv, Born, Step, Enabled;
    if i == 0 {
      BornIsFine(ss[0]);
      if !strict { Weaker(ss[0]); }
    } else {
      RunKeepsInv(ss, es, i - 1, strict);
      assert Follows(ss, es, i - 1);
      StepKeepsInv(ss[i - 1], es[i - 1], strict);
    }
  }

  lemma Weaker(s: View)
    requires Inv(s, true)
    ensures Inv(s, false)
  {}

  /** What no step takes back: spent tokens stay spent, tokens keep their kind and expiry, the log only
      grows, the session stays the one that was created, and its deadline does not move. */
  ghost predicate Grows(s: View, t: View) {
    && t.site == s.site && t.expires == s.expires
    && (forall k <- s.tokens :: KeptToken(s.tokens, t.tokens, k))
    && s.log <= t.log
    && (Terminal(s.state) ==> Terminal(t.state) && t.log == s.log)
    && (s.state == HumanSensitive ==> (t.state == HumanSensitive || Terminal(t.state)))
    && (JarOnly(s) && s.resume == Finishes && !AgentState(s.state) && s.state != HandoverRequested ==> !AgentState(t.state) && t.state != HandoverRequested)
    && (!AgentHolds(s) ==> forall k | |s.log| <= k < |t.log| :: !t.log[k].FromAgent?)
    && (s.worker.closed ==> t.worker.closed)
    && (t.state == AgentResumable && s.state != AgentResumable ==> t.log == s.log + [Sanitized] && t.worker.page == NoPage)
  }

  predicate KeptToken(before: map<TokenId, Token>, after: map<TokenId, Token>, k: TokenId)
    requires k in before
  {
    && k in after && after[k].kind == before[k].kind && after[k].expiresAt == before[k].expiresAt
    && (before[k].consumed ==> after[k].consumed)
  }

  predicate Calm(s: View) { LeaseOk(s) && s.state != SanitizePending && DoorsOk(s) }

  lemma EndedGrows(s: View, to: SessionState)
    requires Calm(s) && Terminal(to)
    ensures Grows(s, Enter(s, to)) && Grows(s, Cleanup(Enter(s, to)))
  {}

  lemma HandoffGrows(s: View, now: int, resume: Resume, at: bool, mint: TokenId)
    requires Calm(s) && mint !in s.tokens
    ensures Grows(s, Handoff(s, now, resume, at, mint).0)
  {}

  lemma ClaimGrows(s: View, now: int, t: TokenId, mint: TokenId)
    requires Calm(s) && mint !in s.tokens
    ensures Grows(s, Claim(s, now, t, mint).0)
  {}

  lemma EndingGrows(s: View, now: int, t: TokenId, id: JarId)
    requires Calm(s)
    ensures Grows(s, Cancel(s, now, t).0)
    ensures Grows(s, Close(s))
    ensures Grows(s, Reap(s, now))
    ensures Grows(s, CloseForJar(s, id))
  {
    hide Cleanup, ExpiredAt, HumanOk, Grows;
    EndedGrows(s, Cancelled);
    EndedGrows(s, Expired);
    if Terminal(s.state) { EndedGrows(s, s.state); }
    Unmoved(s);
  }

  lemma Unmoved(s: View)
    requires Calm(s)
    ensures Grows(s, s)
  {}

  lemma CompleteGrows(s: View, now: int, t: TokenId)
    requires Calm(s)
    ensures Grows(s, Complete(s, now, t).0)
  {
    hide Cleanup, Sanitize, HumanOk;
    EndedGrows(s, Completed);
    EndedGrows(s, SessionState.Failed);
    SanitizeOutcome(Enter(s, SanitizePending));
  }

  lemma PrepareGrows(s: View, landed: Page, fails: bool)
    requires Calm(s) && s.state == HumanActive && !JarOnly(s)
    ensures var (r, ok) := PrepareHandover(s, landed, fails);
      Grows(s, r) && (ok ==> r.state == s.state && r.owner == s.owner && r.tokens == s.tokens && r.expires == s.expires && r.site == s.site)
  {}

  lemma HandoverGrows(s: View, now: int, t: TokenId, mint: TokenId, landed: Page, fails: bool)
    requires Calm(s) && mint !in s.tokens
    ensures Grows(s, Handover(s, now, t, mint, landed, fails).0)
  {
    hide PrepareHandover;
    if s.state == HumanActive && !JarOnly(s) { PrepareGrows(s, landed, fails); }
  }

  lemma TakeBackGrows(s: View, now: int, t: Option<TokenId>, revoked: bool)
    requires Calm(s)
    ensures Grows(s, AgentClaim(s, now, t, revoked).0)
  {
    hide Cleanup;
    EndedGrows(s, Cancelled);
  }

  lemma LingeringGrows(s: View, now: int, t: TokenId, minutes: nat, p: Page)
    requires Calm(s)
    ensures Grows(s, Extend(s, now, t, minutes).0)
    ensures Grows(s, MarkSensitive(s, now, t).0)
    ensures Grows(s, s.(worker := Drive(s.worker, p)))
  {}

  lemma InputGrows(s: View, now: int, t: TokenId, cmd: Cmd, revoked: bool, moves: Option<Page>)
    requires Calm(s)
    ensures Grows(s, Input(s, now, t, revoked, moves).0)
    ensures Grows(s, Command(s, now, cmd, revoked).0)
  {
    hide Cleanup;
    EndedGrows(s, Cancelled);
    EndedGrows(s, SessionState.Failed);
  }

  lemma EnforceGrows(s: View, revoked: bool)
    requires Calm(s)
    ensures Grows(s, Enforce(s, revoked).0)
  {
    hide Cleanup, Grows;
    EndedGrows(s, Cancelled);
    Unmoved(s);
  }

  lemma AdoptGrows(s: View, m: Meta)
    requires Calm(s)
    ensures Grows(s, Adopt(s, m))
  {
    hide OffScope;
  }

  lemma SaveGrows(s: View, e: Event)
    requires Calm(s) && e.op.SaveIt?
    ensures Grows(s, Step(s, e).0)
  {
    hide Grows, Enforce, Adopt, MaySave, HumanOk, ExpiredAt;
    EnforceGrows(s, e.op.revoked);
    EnforceGrows(s, e.op.revokedAfterExport);
    Unmoved(s);
    if e.op.saved.Ok? { AdoptGrows(s, e.op.saved.value); }
  }

  lemma {:induction false} DriveAllMoves(w: WorkerView, ps: seq<Page>)
    ensures DriveAll(w, ps) == w.(page := DriveAll(w, ps).page)
    decreases |ps|
  {
    if ps != [] { DriveAllMoves(w, ps[..|ps| - 1]); }
  }

  lemma AutofillGrows(s: View, now: int, revoked: bool, moves: seq<Page>, late: bool, doneAt: Option<int>)
    requires Calm(s)
    ensures Grows(s, AutofillTurn(s, now, revoked, moves, late, doneAt).0)
  {
    hide Cleanup, DriveAll, ExpiredAt;
    DriveAllMoves(s.worker, moves);
    EndedGrows(s, Cancelled);
    EndedGrows(s.(worker := DriveAll(s.worker, moves)), Cancelled);
  }

  lemma BootGrows(s: View, e: Event)
    requires Calm(s) && e.op.Boot? && Enabled(s, e)
    ensures Grows(s, Step(s, e).0)
  {
    hide Cleanup, RecheckLoadable, IsRevokedGeneration;
    EndedGrows(s, Cancelled);
    EndedGrows(s, SessionState.Failed);
  }

  lemma StepGrows(s: View, e: Event)
    requires Inv(s, false) && Enabled(s, e)
    ensures Grows(s, Step(s, e).0)
  {
    hide Grows, AfterStart, Handoff, Claim, Complete, Cancel, Handover, AgentClaim, Extend, MarkSensitive, Input, Command, SaveFrom, AutofillTurn, Close, Reap, CloseForJar, Drive;
    match e.op
    case Boot(_, _, _, _, _) => BootGrows(s, e);
    case HandOff(resume, at) => HandoffGrows(s, e.now, resume, at, e.mint);
    case ClaimIt(t) => ClaimGrows(s, e.now, t, e.mint);
    case CompleteIt(t) => CompleteGrows(s, e.now, t);
    case HandOver(t, landed, fails) => HandoverGrows(s, e.now, t, e.mint, landed, fails);
    case TakeBack(t, revoked) => TakeBackGrows(s, e.now, t, revoked);
    case HumanInput(t, revoked, moves) => InputGrows(s, e.now, t, ClosePage, revoked, moves);
    case AgentInput(cmd, revoked) => InputGrows(s, e.now, 0, cmd, revoked, None);
    case SaveIt(_, _, _, _, _, _) => SaveGrows(s, e);
    case AutofillIt(revoked, moves, late, doneAt) => AutofillGrows(s, e.now, revoked, moves, late, doneAt);
    case CancelIt(t) => EndingGrows(s, e.now, t, "");
    case CloseIt => EndingGrows(s, e.now, 0, "");
    case ReapIt => EndingGrows(s, e.now, 0, "");
    case JarGone(id) => EndingGrows(s, e.now, 0, id);
    case ExtendIt(t, minutes) => LingeringGrows(s, e.now, t, minutes, NoPage);
    case GoSensitive(t) => LingeringGrows(s, e.now, t, 0, NoPage);
    case PageMoves(p) => LingeringGrows(s, e.now, 0, 0, p);
  }

  lemma {:induction false} RunGrows(ss: seq<View>, es: seq<Event>, i: nat, j: nat)
    requires Run(ss, es) && i <= j < |ss|
    ensures ss[j].site == ss[i].site && ss[j].expires == ss[i].expires && ss[i].log <= ss[j].log
    ensures forall k <- ss[i].tokens :: KeptToken(ss[i].tokens, ss[j].tokens, k)
    ensures Terminal(ss[i].state) ==> Terminal(ss[j].state) && ss[j].log == ss[i].log
    ensures ss[i].worker.closed ==> ss[j].worker.closed
    decreases j - i
  {
    hide Inv, Born, Step, Enabled;
    if i < j {
      RunGrows(ss, es, i, j - 1);
      RunKeepsInv(ss, es, j - 1, false);
      assert Follows(ss, es, j - 1);
      StepGrows(ss[j - 1], es[j - 1]);
    }
  }

  /** At every point of every run the owner is the one that belongs to the state and terminal states are
      left only for terminal ones; an unspent handoff or handover token is the only one of its kind and
      its request is pending, and an active agent leaves no token with the human. The one exception is a
      worker that fails to start: the session fails with its tokens as they are. */
  lemma LeaseAndTokens(ss: seq<View>, es: seq<Event>, i: nat, t: TokenId, kind: TokenKind)
    requires Run(ss, es) && i < |ss|
    ensures ss[i].owner == OwnerOf(ss[i].state)
    ensures forall j | i <= j < |ss| && Terminal(ss[i].state) :: Terminal(ss[j].state)
    ensures var s := ss[i]; Live(s.tokens, t, kind) ==>
      match kind
      case ControlToken => s.state !in {AgentActive, Completed, Cancelled, Expired}
      case _ => && s.state == (if !NothingStranded(ss, es, i) && s.state == SessionState.Failed then SessionState.Failed
                               else if kind == HandoffToken then HandoffRequested else HandoverRequested)
                && forall u | Live(s.tokens, u, kind) :: u == t
  {
    RunKeepsInv(ss, es, i, NothingStranded(ss, es, i));
    forall j | i <= j < |ss| && Terminal(ss[i].state) ensures Terminal(ss[j].state) { RunGrows(ss, es, i, j); }
  }

  /** The exact condition, step by step: a failed start leaves an unspent handoff or handover token
      behind exactly if one was out when it failed, and such a token is of no use afterwards. */
  lemma FailedStartStrands(s: View, e: Event)
    requires Inv(s, true) && Enabled(s, e) && FailsToStart(e)
    ensures TokensFit(Step(s, e).0.tokens, Step(s, e).0.state, true) <==>
              forall t :: !Live(s.tokens, t, HandoffToken) && !Live(s.tokens, t, HandoverToken)
  {
    UnstrandedFits(s.tokens, s.state);
    hide TokensFit, Live;
  }

  lemma StrandedIsUseless(s: View, now: int, t: TokenId, mint: TokenId, proof: Option<TokenId>, revoked: bool)
    requires s.state == SessionState.Failed
    ensures Claim(s, now, t, mint).1 != Done && Cancel(s, now, t).1 != Done && AgentClaim(s, now, proof, revoked).1 != Done
  {}

  /** And over runs: handoff and handover tokens are in step with the state at every point up to `n`
      exactly if no start failed before while such a token was out. */
  lemma TokensFitUnlessStranded(ss: seq<View>, es: seq<Event>, n: nat)
    requires Run(ss, es) && n < |ss|
    ensures (forall i | 0 <= i <= n :: TokensFit(ss[i].tokens, ss[i].state, true)) <==> NothingStranded(ss, es, n)
  {
    hide TokensFit, Step, Enabled, Born, FailsToStart, DoorsOk, LogOk, ConfinedOk, LeaseOk;
    if NothingStranded(ss, es, n) {
      forall i | 0 <= i <= n ensures TokensFit(ss[i].tokens, ss[i].state, true) { RunKeepsInv(ss, es, i, true); }
    } else {
      var k := FirstStranding(ss, es, n);
      RunKeepsInv(ss, es, k, true);
      assert Follows(ss, es, k);
      FailedStartStrands(ss[k], es[k]);
      assert !TokensFit(ss[k + 1].tokens, ss[k + 1].state, true);
    }
  }

  lemma {:induction false} FirstStranding(ss: seq<View>, es: seq<Event>, n: nat) returns (k: nat)
    requires |ss| == |es| + 1 && n < |ss| && !NothingStranded(ss, es, n)
    ensures k < n && Strands(ss[k], es[k]) && NothingStranded(ss, es, k)
    decreases n
  {
    hide Strands;
    if !NothingStranded(ss, es, n - 1) { k := FirstStranding(ss, es, n - 1); } else { k := n - 1; }
  }

  /** A plain agent session, and the failure of its start. */
  const PLAIN: CreateReq := CreateReq(false, None, None, false, false, false, None)

  function FailingBoot(mint: TokenId): Event {
    Event(0, mint, Boot(Config([], 0, 0), Disk(map[], Copies(Log([], false, true), Unusable), []), PLAIN, None, false))
  }

  ghost predicate Reaches(ss: seq<View>, es: seq<Event>, t: TokenId, kind: TokenKind) {
    Run(ss, es) && var s := ss[|ss| - 1]; s.state == SessionState.Failed && Live(s.tokens, t, kind)
  }

  const ASKED: Event := Event(0, 1, HandOff(Finishes, true))
  const CLAIMED: Event := Event(0, 2, ClaimIt(1))
  const HANDED: Event := Event(0, 3, HandOver(2, NoPage, false))

  lemma AskedState()
    ensures var s0 := Registered(PLAIN, None, 0);
      var s1 := Step(s0, ASKED).0;
      && Born(s0) && Enabled(s0, ASKED) && Enabled(s1, FailingBoot(2)) && Enabled(s1, CLAIMED)
      && s1 == s0.(state := HandoffRequested, owner := ByService, idle := 600, tokens := map[1 := Token(HandoffToken, 600, false)])
  {
    assert Admissible(PLAIN, None);
  }

  lemma ClaimedState()
    ensures var s1 := Step(Registered(PLAIN, None, 0), ASKED).0;
      Step(s1, CLAIMED).0 == s1.(state := HumanActive, owner := ByHuman,
                                 tokens := map[1 := Token(HandoffToken, 600, true), 2 := Token(ControlToken, 3600, false)])
  {
    AskedState();
    hide Born, AfterStart, SaveFrom, AgentClaim, Complete, AutofillTurn, Input, Command, Close, Reap, Handover, Handoff, Enabled;
  }

  lemma HandedState()
    ensures var s1 := Step(Registered(PLAIN, None, 0), ASKED).0;
      var s2 := Step(s1, CLAIMED).0;
      var s3 := Step(s2, HANDED).0;
      && Enabled(s2, HANDED) && Enabled(s3, FailingBoot(4)) && s3.state == HandoverRequested && Live(s3.tokens, 3, HandoverToken)
  {
    AskedState();
    ClaimedState();
    hide Born, AfterStart, SaveFrom, AgentClaim, Complete, AutofillTurn, Input, Command, Close, Reap, Claim, Handoff;
  }

  lemma FailedStateOf(s: View, mint: TokenId)
    ensures Step(s, FailingBoot(mint)).0 == Fail(s)
  {}

  /** Both happen: a start that fails after a handoff request, and one that fails after a handover
      request. */
  lemma StrandedTokensAreReachable()
    ensures exists ss, es :: Reaches(ss, es, 1, HandoffToken)
    ensures exists ss, es :: Reaches(ss, es, 3, HandoverToken)
  {
    var s0 := Registered(PLAIN, None, 0);
    var s1 := Step(s0, ASKED).0;
    var s2 := Step(s1, CLAIMED).0;
    var s3 := Step(s2, HANDED).0;
    var f1, f3 := Step(s1, FailingBoot(2)).0, Step(s3, FailingBoot(4)).0;
    AskedState();
    HandedState();
    FailedStateOf(s1, 2);
    FailedStateOf(s3, 4);
    hide Step, Enabled, Born, FailingBoot, Registered, Run, Live, Inv, DoorsOk, LogOk, ConfinedOk, TokensFit;
    ShortRun([s0, s1, f1], [ASKED, FailingBoot(2)]);
    assert Reaches([s0, s1, f1], [ASKED, FailingBoot(2)], 1, HandoffToken);
    ShortRun([s0, s1, s2, s3, f3], [ASKED, CLAIMED, HANDED, FailingBoot(4)]);
    assert Reaches([s0, s1, s2, s3, f3], [ASKED, CLAIMED, HANDED, FailingBoot(4)], 3, HandoverToken);
  }

  lemma ShortRun(ss: seq<View>, es: seq<Event>)
    requires |ss| == |es| + 1 && Born(ss[0]) && 2 <= |es| <= 4
    requires Follows(ss, es, 0) && Follows(ss, es, 1)
    requires |es| > 2 ==> Follows(ss, es, 2)
    requires |es| > 3 ==> Follows(ss, es, 3)
    ensures Run(ss, es)
  {
    hide Step, Enabled, Born;
    forall i | 0 <= i < |es| ensures Follows(ss, es, i) {
      if i == 0 {} else if i == 1 {} else if i == 2 {} else { assert i == 3; }
    }
  }

  predicate Spends(s: View, e: Event, t: TokenId) {
    && (e.op == ClaimIt(t) || e.op == CancelIt(t) || (e.op.TakeBack? && e.op.proof == Some(t)))
    && Step(s, e).1 == Done
  }

  lemma SpendingConsumes(s: View, e: Event, t: TokenId)
    requires Spends(s, e, t) && Enabled(s, e)
    ensures t in s.tokens && !s.tokens[t].consumed
    ensures t in Step(s, e).0.tokens && Step(s, e).0.tokens[t].consumed
  {}

  /** Claiming a handoff, cancelling and taking a handover back succeed at most once for a token, in
      whatever combination. */
  lemma TokenSpentOnce(ss: seq<View>, es: seq<Event>, i: nat, j: nat, t: TokenId)
    requires Run(ss, es) && i < j < |es| && Spends(ss[i], es[i], t)
    ensures !Spends(ss[j], es[j], t)
  {
    hide Spends, Step, Inv, Born, Enabled;
    assert Follows(ss, es, i);
    assert Follows(ss, es, j);
    SpendingConsumes(ss[i], es[i], t);
    RunGrows(ss, es, i + 1, j);
    assert KeptToken(ss[i + 1].tokens, ss[j].tokens, t);
    if Spends(ss[j], es[j], t) { SpendingConsumes(ss[j], es[j], t); }
  }

  /** Completing leaves the control token unspent exactly if it makes the session resumable: once a new
      handoff has been claimed there, by whoever holds the new handoff token, the old control token is
      good again. */
  lemma ResumingLeavesTheControlToken(s: View, now: int, t: TokenId, later: int, resume: Resume, h: TokenId, mint: TokenId)
    requires Complete(s, now, t).1 == Done && h != t && mint != t && now <= later
    ensures var s1 := Complete(s, now, t).0;
      var s2 := Handoff(s1, later, resume, true, h).0;
      var (s3, r) := Claim(s2, later, h, mint);
      && (Live(s1.tokens, t, ControlToken) <==> s1.state == AgentResumable)
      && (s1.state == AgentResumable && r == Done && later < s.tokens[t].expiresAt ==> HumanOk(s3, t, false, later))
  {
    CompletingSpends(s, now, t);
    hide Sanitize, ConsumeAll;
    SanitizeOutcome(Enter(s, SanitizePending));
  }

  lemma CompletingSpends(s: View, now: int, t: TokenId)
    requires Complete(s, now, t).1 == Done
    ensures t in s.tokens
    ensures Live(Complete(s, now, t).0.tokens, t, ControlToken) <==> Complete(s, now, t).0.state == AgentResumable
  {}

  /** The ways an agent can be shut out for good. */
  predicate DoorShut(s: View) {
    s.state == HumanSensitive || Terminal(s.state) || (JarOnly(s) && !AgentState(s.state))
  }

  ghost predicate NoAgentFrom(log: seq<WorkerEvent>, n: nat) { forall k | n <= k < |log| :: !log[k].FromAgent? }

  lemma ShutDoorStep(s: View, e: Event)
    requires Inv(s, false) && Enabled(s, e) && DoorShut(s)
    ensures !AgentHolds(s)
    ensures var t := Step(s, e).0; DoorShut(t) && s.log <= t.log && NoAgentFrom(t.log, |s.log|)
  {
    StepGrows(s, e);
    hide Step, Enabled, TokensFit, LogOk, ConfinedOk;
  }

  /** After the human marks the session sensitive, and after a session loaded from a jar has been offered
      to a human or started with one, no agent command ever reaches the worker again. */
  lemma {:induction false} ShutDoorsStayShut(ss: seq<View>, es: seq<Event>, i: nat, j: nat)
    requires Run(ss, es) && i <= j < |ss| && DoorShut(ss[i])
    ensures DoorShut(ss[j]) && !AgentHolds(ss[j])
    ensures ss[i].log <= ss[j].log && NoAgentFrom(ss[j].log, |ss[i].log|)
    decreases j - i
  {
    hide Inv, Born, Step, Enabled, DoorShut, AgentHolds;
    RunKeepsInv(ss, es, j, false);
    ShutOut(ss[j]);
    if i < j {
      ShutDoorsStayShut(ss, es, i, j - 1);
      RunKeepsInv(ss, es, j - 1, false);
      assert Follows(ss, es, j - 1);
      ShutDoorStep(ss[j - 1], es[j - 1]);
    }
  }

  lemma ShutOut(s: View)
    requires Inv(s, false)
    ensures DoorShut(s) ==> !AgentHolds(s)
  {}

  /** What the worker has seen, in order: in an authenticated-site session a page is closed between any
      human input and the next agent command; in another session loaded from a jar no agent command
      follows a human input; and a resumable session has its page closed after the last human input. */
  lemma HumanInputIsHidden(ss: seq<View>, es: seq<Event>, i: nat, h: nat, k: nat)
    requires Run(ss, es) && i < |ss| && h < k <= |ss[i].log| && ss[i].log[h] == FromHuman
    ensures k < |ss[i].log| && ss[i].log[k].FromAgent? ==>
      && !JarOnly(ss[i])
      && (ss[i].site.authenticated ==> exists z :: h < z < k && ss[i].log[z] == Sanitized)
    ensures k == |ss[i].log| && ss[i].state == AgentResumable ==> exists z :: h < z < k && ss[i].log[z] == Sanitized
  {
    RunKeepsInv(ss, es, i, false);
    var log := ss[i].log;
    if k < |log| && log[k].FromAgent? && ss[i].site.authenticated {
      assert Clean(log[..k]) && log[..k][h] == FromHuman;
      assert SanitizedAfter(log[..k], h);
      var z :| h < z < k && log[..k][z] == Sanitized;
      assert log[z] == Sanitized;
    }
    if k == |log| && ss[i].state == AgentResumable { assert SanitizedAfter(log, h); }
  }

  /** Whoever makes a session resumable has just closed its page. */
  lemma ResumableIsSanitized(ss: seq<View>, es: seq<Event>, i: nat)
    requires Run(ss, es) && i < |es| && ss[i].state != AgentResumable && ss[i + 1].state == AgentResumable
    ensures ss[i + 1].log == ss[i].log + [Sanitized] && ss[i + 1].worker.page == NoPage
  {
    hide Step, Enabled, Inv, Born;
    RunKeepsInv(ss, es, i, false);
    assert Follows(ss, es, i);
    StepGrows(ss[i], es[i]);
  }

  /** Whenever the agent has the lease of a confined session, the worker's guard is on, guards the
      session's own origin set and the page is inside it. A jarless authenticated-site session always
      has such a set. */
  lemma AgentIsConfined(ss: seq<View>, es: seq<Event>, i: nat)
    requires Run(ss, es) && i < |ss| && AgentHolds(ss[i]) && ss[i].site.confine
    ensures var s := ss[i];
      && s.worker.guard && s.worker.confine == s.confineOrigins
      && (s.confineOrigins != [] ==> Inside(s.worker.page, s.confineOrigins))
      && (s.site.authenticated && s.site.jarId.None? ==> s.confineOrigins != [])
  {
    RunKeepsInv(ss, es, i, false);
  }

  /** What an operation adds to the log it adds in time, and an agent command only from an agent that
      holds the lease and may send it. */
  ghost predicate LoggedInTime(s: View, t: View, now: int) {
    && (t.log == s.log || (now < s.idle && !Terminal(s.state)))
    && s.log <= t.log
    && forall k | |s.log| <= k < |t.log| && t.log[k].FromAgent? :: AgentHolds(s) && !Denied(s, t.log[k].cmd)
  }

  lemma CompleteInTime(s: View, now: int, t: TokenId)
    ensures LoggedInTime(s, Complete(s, now, t).0, now)
  {
    hide Transition, HumanOk, Sanitize;
    SanitizeOutcome(Enter(s, SanitizePending));
  }

  lemma HandoverInTime(s: View, now: int, t: TokenId, mint: TokenId, landed: Page, fails: bool)
    ensures LoggedInTime(s, Handover(s, now, t, mint, landed, fails).0, now)
  {
    hide Transition, TokenOk, PrepareHandover;
    PrepareLogs(s, landed, fails);
  }

  lemma PrepareLogs(s: View, landed: Page, fails: bool)
    ensures var t := PrepareHandover(s, landed, fails).0;
      s.log <= t.log && forall k | |s.log| <= k < |t.log| :: !t.log[k].FromAgent?
  {
    hide Perform;
  }

  lemma InputInTime(s: View, now: int, t: TokenId, revoked: bool, moves: Option<Page>, cmd: Cmd)
    ensures LoggedInTime(s, Input(s, now, t, revoked, moves).0, now)
    ensures LoggedInTime(s, Command(s, now, cmd, revoked).0, now)
  {
    hide OffScope, ConsumeAll;
  }

  lemma RestLogsNothing(s: View, e: Event)
    requires !e.op.CompleteIt? && !e.op.HandOver? && !e.op.HumanInput? && !e.op.AgentInput?
    ensures Step(s, e).0.log == s.log
  {
    hide Transition, HumanOk, TokenOk, ExpiredAt, MaySave, OffScope, ConsumeAll, ConsumeKind, RecheckLoadable, IsRevokedGeneration, DriveAll;
  }

  lemma OnlyInTime(s: View, e: Event)
    ensures LoggedInTime(s, Step(s, e).0, e.now)
  {
    hide Complete, Handover, Input, Command, AfterStart, Handoff, Claim, Cancel, AgentClaim, Extend, MarkSensitive, SaveFrom, AutofillTurn, Close, Reap, CloseForJar, Drive;
    match e.op
    case CompleteIt(t) => CompleteInTime(s, e.now, t);
    case HandOver(t, landed, fails) => HandoverInTime(s, e.now, t, e.mint, landed, fails);
    case HumanInput(t, revoked, moves) => InputInTime(s, e.now, t, revoked, moves, ClosePage);
    case AgentInput(cmd, revoked) => InputInTime(s, e.now, 0, revoked, None, cmd);
    case _ => RestLogsNothing(s, e);
  }

  /** Nothing reaches the worker at or after the idle deadline or the fixed end of the session. */
  lemma NothingAfterTheDeadline(ss: seq<View>, es: seq<Event>, i: nat)
    requires Run(ss, es) && i < |es| && ss[i + 1].log != ss[i].log
    ensures es[i].now < ss[i].idle <= ss[0].expires && !Terminal(ss[i].state)
  {
    hide Step, Enabled, LogOk, ConfinedOk, TokensFit, Born;
    RunKeepsInv(ss, es, i, false);
    RunGrows(ss, es, 0, i);
    assert Follows(ss, es, i);
    OnlyInTime(ss[i], es[i]);
  }

  lemma SameSiteSameDenial(s: View, t: View, cmd: Cmd)
    requires s.site == t.site
    ensures Denied(s, cmd) == Denied(t, cmd)
  {}

  lemma StepAllows(s: View, e: Event, k: nat)
    requires s.log <= Step(s, e).0.log && |s.log| <= k < |Step(s, e).0.log| && Step(s, e).0.log[k].FromAgent?
    ensures !Denied(s, Step(s, e).0.log[k].cmd)
  {
    hide Step, Denied, AgentHolds;
    OnlyInTime(s, e);
  }

  /** Whatever the agent asks for, no command that is denied to this session ever reaches the worker:
      no exec in a jar-loaded session that did not opt in, no exec, extract or transfer chord in a
      credential-protected one. */
  lemma {:induction false} DeniedNeverReachesTheWorker(ss: seq<View>, es: seq<Event>, i: nat, k: nat)
    requires |ss| == |es| + 1 && Run(ss, es) && i < |ss| && k < |ss[i].log| && ss[i].log[k].FromAgent?
    ensures !Denied(ss[i], ss[i].log[k].cmd)
    decreases i
  {
    hide *;
    if i > 0 {
      var s, t := ss[i - 1], ss[i];
      StepOfRun(ss, es, i - 1);
      RunGrows(ss, es, i - 1, i);
      SameSiteSameDenial(s, t, t.log[k].cmd);
      if k < |s.log| {
        assert t.log[k] == s.log[k];
        DeniedNeverReachesTheWorker(ss, es, i - 1, k);
      } else {
        StepAllows(s, es[i - 1], k);
      }
    } else {
      RunStartsSilent(ss, es);
    }
  }

  lemma StepOfRun(ss: seq<View>, es: seq<Event>, i: nat)
    requires Run(ss, es) && i < |es|
    ensures ss[i + 1] == Step(ss[i], es[i]).0
  {
    assert Follows(ss, es, i);
  }

  lemma RunStartsSilent(ss: seq<View>, es: seq<Event>)
    requires Run(ss, es)
    ensures |ss| > 0 && ss[0].log == []
  {}
}
