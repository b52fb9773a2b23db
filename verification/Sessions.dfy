/** One browser session as the registry keeps it: the session record, its worker and its tokens.

    Every operation runs under the session's lock, so it is a function from one `View` to the next; the
    methods of `Session` and `Worker` carry it out field by field. Whether a jar behind the session is
    revoked is read from the shared store, which other processes change at any time. */
module Sessions {
  import opened Tombstones
  import opened CookieScope
  import opened JarEnvelope
  import opened JarStore
  import opened Leases

  // ---------------------------------------------------------------- the worker

  /** What the current page is: none, blank, at a web origin, or at an address without one. */
  datatype Page = NoPage | AboutBlank | At(origin: Origin) | Opaque

  datatype Cmd = Navigate(target: Page, fails: bool) | ClosePage | Exec | Extract | TransferChord | OtherCmd

  /** What reaches the worker, in order. */
  datatype WorkerEvent = FromAgent(cmd: Cmd) | FromHuman | Sanitized | Reopened

  datatype WorkerView = WorkerView(closed: bool, page: Page, confine: seq<Origin>, guard: bool)

  predicate OffScope(w: WorkerView, p: Page) {
    w.confine != [] && w.guard && !(p.At? && p.origin in w.confine)
  }

  /** A navigation, whoever drives it: the guard aborts it before the request or lets it through. */
  function Drive(w: WorkerView, p: Page): WorkerView { if OffScope(w, p) then w else w.(page := p) }

  /** Several navigations in a row. */
  function DriveAll(w: WorkerView, ps: seq<Page>): WorkerView {
    if ps == [] then w else Drive(DriveAll(w, ps[..|ps| - 1]), ps[|ps| - 1])
  }

  function Evict(w: WorkerView): WorkerView { if OffScope(w, w.page) then w.(page := AboutBlank) else w }

  function Perform(w: WorkerView, cmd: Cmd): WorkerView {
    match cmd
    case Navigate(target, fails) => if fails then w else Drive(w, target)
    case ClosePage => w.(page := NoPage)
    case _ => w
  }

  class Worker {
    var closed: bool
    var page: Page
    var confine: seq<Origin>
    var guard: bool

    function View(): WorkerView
      reads this
    {
      WorkerView(closed, page, confine, guard)
    }

    constructor (confine: seq<Origin>)
      ensures View() == WorkerView(false, NoPage, confine, true)
    {
      closed, page, this.confine, guard := false, NoPage, confine, true;
    }

    method SetConfinementActive(enabled: bool)
      modifies this
      ensures View() == old(View()).(guard := enabled)
    {
      guard := enabled;
    }

    method SetConfineOrigins(origins: seq<Origin>)
      modifies this
      ensures View() == old(View()).(confine := origins)
    {
      confine := origins;
    }

    method EvictOffScopePage()
      modifies this
      ensures View() == Evict(old(View()))
    {
      if OffScope(View(), page) { page := AboutBlank; }
    }

    method Command(cmd: Cmd)
      modifies this
      ensures View() == Perform(old(View()), cmd)
    {
      match cmd {
        case Navigate(target, fails) =>
          if fails { return; }
          if OffScope(View(), target) { return; }
          page := target;
        case ClosePage => page := NoPage;
        case _ =>
      }
    }

    method Close()
      modifies this
      ensures View() == old(View()).(closed := true)
    {
      closed := true;
    }
  }

  // ---------------------------------------------------------------- the session

  datatype TokenKind = HandoffToken | HandoverToken | ControlToken

  type TokenId = nat

  datatype Token = Token(kind: TokenKind, expiresAt: int, consumed: bool)

  datatype Resume = Finishes | AfterSanitize

  /** What creation fixes for good. */
  datatype Site = Site(jarId: Option<JarId>, authenticated: bool, confine: bool, allowExec: bool, autofill: bool)

  datatype View = View(
    site: Site, state: SessionState, owner: Owner, resume: Resume, jarGeneration: Option<int>, produced: map<JarId, int>,
    confineOrigins: seq<Origin>, idle: int, expires: int, worker: WorkerView, tokens: map<TokenId, Token>, log: seq<WorkerEvent>)

  datatype Refusal = Inactive | Unauthorized | Conflict | BadTransition

  datatype Reply = Done | Refused(why: Refusal)

  const MINUTE: int := 60

  predicate ExpiredAt(s: View, now: int) { !Terminal(s.state) && (s.idle <= now || s.expires <= now) }

  predicate TokenOk(s: View, t: TokenId, kind: TokenKind, now: int) {
    t in s.tokens && s.tokens[t].kind == kind && !s.tokens[t].consumed && now < s.tokens[t].expiresAt
  }

  /** The human's authority: the control token, or the handoff token while the handoff is pending. */
  predicate HumanOk(s: View, t: TokenId, allowPending: bool, now: int) {
    && (s.state in {HumanActive, HumanSensitive} || (allowPending && s.state in {HandoffRequested, HandoverRequested}))
    && TokenOk(s, t, if s.state == HandoffRequested then HandoffToken else ControlToken, now)
  }

  function ConsumeAll(tokens: map<TokenId, Token>): map<TokenId, Token> {
    map t | t in tokens :: tokens[t].(consumed := true)
  }

  function ConsumeKind(tokens: map<TokenId, Token>, kind: TokenKind): map<TokenId, Token> {
    map t | t in tokens :: if tokens[t].kind == kind then tokens[t].(consumed := true) else tokens[t]
  }

  function Cleanup(s: View): View {
    s.(tokens := ConsumeAll(s.tokens), worker := s.worker.(closed := true))
  }

  function Fail(s: View): View { s.(state := SessionState.Failed, owner := Nobody) }

  /** Whether a jar the session was loaded from, or saved, is revoked at the generation it holds or no
      longer opens. */
  predicate RevokedFor(c: Config, d: Disk, s: View) {
    && c.keys != []
    && (|| (exists id <- s.produced :: IsRevokedGeneration(c, d, id, Some(s.produced[id])) || !Authenticates(c, d, id))
        || (s.site.jarId.Some? &&
            (IsRevokedGeneration(c, d, s.site.jarId.value, s.jarGeneration) || !Authenticates(c, d, s.site.jarId.value))))
  }

  /** The kill-switch check; its second component says whether the session was torn down. */
  function Enforce(s: View, revoked: bool): (View, bool) {
    if Terminal(s.state) || !revoked then (s, false) else (Cleanup(s.(state := Cancelled, owner := Nobody)), true)
  }

  function Enter(s: View, to: SessionState): View { s.(state := to, owner := OwnerOf(to)) }

  // ---------------------------------------------------------------- lease operations

  function Handoff(s: View, now: int, resume: Resume, atExpectedOrigin: bool, mint: TokenId): (View, Reply) {
    if ExpiredAt(s, now) then (s, Refused(Inactive))
    else if s.site.jarId.Some? && resume != Finishes then (s, Refused(Conflict))
    else if !atExpectedOrigin then (s, Refused(Conflict))
    else if Transition(s.state, s.owner, HandoffRequested).None? then (s, Refused(BadTransition))
    else
      var idle := Min(now + 10 * MINUTE, s.expires);
      var s1 := Enter(s, HandoffRequested).(resume := resume, idle := idle,
                  tokens := s.tokens[mint := Token(HandoffToken, idle, false)]);
      (if s.site.jarId.Some? && !s.site.authenticated then s1.(worker := s.worker.(guard := false)) else s1, Done)
  }

  function Claim(s: View, now: int, t: TokenId, mint: TokenId): (View, Reply) {
    if ExpiredAt(s, now) then (s, Refused(Inactive))
    else if !TokenOk(s, t, HandoffToken, now) then (s, Refused(Unauthorized))
    else if Transition(s.state, s.owner, HumanActive).None? then (s, Refused(BadTransition))
    else
      (Enter(s, HumanActive).(idle := Min(now + 10 * MINUTE, s.expires),
         tokens := s.tokens[t := s.tokens[t].(consumed := true)][mint := Token(ControlToken, s.expires, false)]), Done)
  }

  /** Closing the page for the next agent turn; a session whose worker is gone fails instead. */
  function Sanitize(s: View): (View, bool) {
    if s.worker.closed then (Fail(s), false)
    else (s.(worker := Perform(s.worker, ClosePage), log := s.log + [Sanitized]), true)
  }

  function Complete(s: View, now: int, t: TokenId): (View, Reply) {
    if !HumanOk(s, t, false, now) then (s, Refused(Unauthorized))
    else if ExpiredAt(s, now) then (s, Refused(Inactive))
    else if s.resume == AfterSanitize && s.state == HumanActive then
      if Transition(s.state, s.owner, SanitizePending).None? then (s, Refused(BadTransition))
      else
        var (s1, ok) := Sanitize(Enter(s, SanitizePending));
        if !ok then (s1, Refused(Conflict))
        else (Enter(s1, AgentResumable).(idle := Min(now + 5 * MINUTE, s.expires)), Done)
    else if Transition(s.state, s.owner, Completed).None? then (s, Refused(BadTransition))
    else (Cleanup(Enter(s, Completed)), Done)
  }

  function Cancel(s: View, now: int, t: TokenId): (View, Reply) {
    if !HumanOk(s, t, true, now) then (s, Refused(Unauthorized))
    else if ExpiredAt(s, now) then (s, Refused(Inactive))
    else if Transition(s.state, s.owner, Cancelled).None? then (s, Refused(BadTransition))
    else (Cleanup(Enter(s, Cancelled)), Done)
  }

  /** Opening a page inside the confinement set after sanitising; `landed` is where it ends up. */
  function Reopen(s: View, landed: Page, fails: bool): View {
    if s.confineOrigins == [] || s.worker.closed then s
    else s.(worker := Perform(s.worker, Navigate(landed, fails)), log := s.log + [Reopened])
  }

  /** An authenticated-site session is sanitised and reopened before the agent may have it back. */
  function PrepareHandover(s: View, landed: Page, fails: bool): (View, bool) {
    if !s.site.authenticated then (s.(resume := Finishes), true)
    else
      var (s1, ok) := Sanitize(s.(resume := AfterSanitize));
      if !ok then (s1, false) else (Reopen(s1, landed, fails), true)
  }

  function Handover(s: View, now: int, t: TokenId, mint: TokenId, landed: Page, fails: bool): (View, Reply) {
    if ExpiredAt(s, now) then (s, Refused(Inactive))
    else if !TokenOk(s, t, ControlToken, now) then (s, Refused(Unauthorized))
    else if s.state != HumanActive then (s, Refused(Conflict))
    else if s.site.jarId.Some? && !s.site.authenticated then (s, Refused(Conflict))
    else
      var (s3, ok) := PrepareHandover(s, landed, fails);
      if !ok then (s3, Refused(Conflict))
      else
        if Transition(s3.state, s3.owner, HandoverRequested).None? then (s3, Refused(BadTransition))
        else
          var idle := Min(now + 10 * MINUTE, s.expires);
          var s4 := Enter(s3, HandoverRequested).(idle := idle);
          (if s.site.authenticated then s4 else s4.(tokens := s4.tokens[mint := Token(HandoverToken, idle, false)]), Done)
  }

  function AgentClaim(s: View, now: int, t: Option<TokenId>, revoked: bool): (View, Reply) {
    if ExpiredAt(s, now) then (s, Refused(Inactive))
    else if s.state != HandoverRequested then (s, Refused(Conflict))
    else
      var (s1, torn) := Enforce(s, revoked);
      if torn then (s1, Refused(Inactive))
      else if (t.Some? || !s.site.authenticated) && (t.None? || !TokenOk(s, t.value, HandoverToken, now)) then (s, Refused(Unauthorized))
      else if Transition(s.state, s.owner, AgentActive).None? then (s, Refused(BadTransition))
      else
        var tokens := if t.Some? then s.tokens[t.value := s.tokens[t.value].(consumed := true)] else ConsumeKind(s.tokens, HandoverToken);
        var s2 := Enter(s, AgentActive).(idle := Min(now + 15 * MINUTE, s.expires), tokens := ConsumeKind(tokens, ControlToken));
        (if s.site.authenticated then s2.(worker := s.worker.(guard := true)) else s2, Done)
  }

  function Extend(s: View, now: int, t: TokenId, minutes: nat): (View, Reply) {
    if !HumanOk(s, t, false, now) then (s, Refused(Unauthorized))
    else if ExpiredAt(s, now) then (s, Refused(Inactive))
    else (s.(idle := Max(s.idle, Min(now + minutes * MINUTE, s.expires))), Done)
  }

  function MarkSensitive(s: View, now: int, t: TokenId): (View, Reply) {
    if !HumanOk(s, t, false, now) then (s, Refused(Unauthorized))
    else if ExpiredAt(s, now) then (s, Refused(Inactive))
    else if Transition(s.state, s.owner, HumanSensitive).None? then (s, Refused(BadTransition))
    else (Enter(s, HumanSensitive).(idle := Min(now + 5 * MINUTE, s.expires)), Done)
  }

  /** One message from the human's remote screen: each is authorised under the session's lock. */
  function Input(s: View, now: int, t: TokenId, revoked: bool, moves: Option<Page>): (View, Reply) {
    if ExpiredAt(s, now) then (s, Refused(Inactive))
    else if !HumanOk(s, t, false, now) then (s, Refused(Unauthorized))
    else
      var (s1, torn) := Enforce(s, revoked);
      if torn then (s1, Refused(Inactive))
      else (s.(log := s.log + [FromHuman], worker := if moves.Some? then Drive(s.worker, moves.value) else s.worker), Done)
  }

  predicate Denied(s: View, cmd: Cmd) {
    || (cmd.Exec? && s.site.jarId.Some? && !s.site.allowExec)
    || (s.site.autofill && (cmd.Exec? || cmd.Extract? || cmd.TransferChord?))
  }

  predicate AgentHolds(s: View) { AgentState(s.state) && s.owner == ByAgent }

  function Command(s: View, now: int, cmd: Cmd, revoked: bool): (View, Reply) {
    if ExpiredAt(s, now) then (s, Refused(Inactive))
    else if Terminal(s.state) then (s, Refused(Inactive))
    else if !AgentHolds(s) || Denied(s, cmd) then (s, Refused(Unauthorized))
    else
      var (s1, torn) := Enforce(s, revoked);
      if torn then (s1, Refused(Inactive))
      else if s.worker.closed then (Fail(s), Refused(Conflict))
      else (s.(worker := Perform(s.worker, cmd), log := s.log + [FromAgent(cmd)], idle := Min(now + 15 * MINUTE, s.expires)), Done)
  }

  /** What one autofill call makes of the session: the check, the page moving by itself while the call
      waits, perhaps a revocation found later on, and the idle deadline where the call answers. */
  function AutofillTurn(s: View, now: int, revoked: bool, moves: seq<Page>, late: bool, doneAt: Option<int>): (View, Reply) {
    if ExpiredAt(s, now) || Terminal(s.state) then (s, Refused(Inactive))
    else if !AgentHolds(s) then (s, Refused(Unauthorized))
    else
      var (s1, torn) := Enforce(s, revoked);
      if torn then (s1, Refused(Inactive))
      else
        var s2 := s.(worker := DriveAll(s.worker, moves));
        if late then (Enforce(s2, true).0, Refused(Inactive))
        else if doneAt.None? then (s2, Refused(Conflict))
        else (s2.(idle := Min(doneAt.value + 15 * MINUTE, s2.expires)), Done)
  }

  function Close(s: View): View { Cleanup(if Terminal(s.state) then s else Enter(s, Cancelled)) }

  function Reap(s: View, now: int): View { if ExpiredAt(s, now) then Cleanup(Enter(s, Expired)) else s }

  /** A revocation by this process closes every live session that was loaded from the jar or saved it. */
  function CloseForJar(s: View, id: JarId): View {
    if Terminal(s.state) || (s.site.jarId != Some(id) && id !in s.produced) then s else Cleanup(Enter(s, Cancelled))
  }

  // ---------------------------------------------------------------- saving the session's jar

  /** The generation a save from this session must find unrevoked. */
  function Precondition(s: View, id: JarId): Option<int> {
    if s.site.jarId == Some(id) then s.jarGeneration else if id in s.produced then Some(s.produced[id]) else None
  }

  datatype Actor = ActingHuman(token: TokenId) | ActingAgent

  /** Whether the save may go ahead: lease or token, the cloning guard, ownership of the target. */
  predicate MaySave(s: View, now: int, actor: Actor, target: Option<JarId>, ownsTarget: bool) {
    && (match actor case ActingHuman(t) => HumanOk(s, t, false, now) case ActingAgent => AgentHolds(s))
    && (s.site.jarId.Some? ==> target == s.site.jarId)
    && (target.Some? ==> if actor.ActingAgent? then s.site.jarId == target else ownsTarget)
  }

  /** What a successful save of `m` changes: a jar-loaded session moves on to the generation and scope
      it has just published, its worker included. */
  function Adopt(s: View, m: Meta): View {
    var s1 := s.(produced := s.produced[m.jarId := m.generation]);
    if s.site.jarId != Some(m.jarId) then s1
    else
      var scope := m.origins + m.allowlist;
      var s2 := s1.(jarGeneration := Some(m.generation), confineOrigins := scope);
      if s.site.confine && !s.worker.closed then s2.(worker := Evict(s.worker.(confine := scope))) else s2
  }

  /** A save from the live session. The kill-switch is consulted before and after the export; `saved`
      is what the store then answers. */
  function SaveFrom(s: View, now: int, actor: Actor, target: Option<JarId>, ownsTarget: bool, revoked: bool, revokedAfterExport: bool,
                    saved: Result<Meta>): (View, Reply) {
    if actor.ActingHuman? && !HumanOk(s, actor.token, false, now) then (s, Refused(Unauthorized))
    else if ExpiredAt(s, now) then (s, Refused(Inactive))
    else if Enforce(s, revoked).1 then (Enforce(s, revoked).0, Refused(Inactive))
    else if !MaySave(s, now, actor, target, ownsTarget) then (s, Refused(Unauthorized))
    else if s.worker.closed then (s, Refused(Conflict))
    else if Enforce(s, revokedAfterExport).1 then (Enforce(s, revokedAfterExport).0, Refused(Inactive))
    else if saved.Err? then (s, Refused(Conflict))
    else (Adopt(s, saved.value), Done)
  }

  // ---------------------------------------------------------------- creating a session

  /** `confine` is the caller's explicit choice; `origins` the explicit confinement set. */
  datatype CreateReq = CreateReq(
    human: bool, jarId: Option<JarId>, confine: Option<bool>, authenticated: bool, autofill: bool, allowExec: bool,
    origins: Option<seq<Origin>>)

  function ScopeList(m: Meta): seq<Origin> { m.origins + m.allowlist }

  function CreateSite(r: CreateReq, loaded: Option<Meta>): Site {
    var confine := if r.authenticated then true else loaded.Some? && r.confine != Some(false);
    var autofill := r.autofill || r.authenticated;
    Site(if loaded.Some? then Some(loaded.value.jarId) else None, r.authenticated, confine,
         loaded.Some? && r.allowExec && !autofill, autofill)
  }

  function CreateConfinement(r: CreateReq, loaded: Option<Meta>): seq<Origin> {
    if loaded.Some? then (if CreateSite(r, loaded).confine then ScopeList(loaded.value) else [])
    else if r.authenticated && r.origins.Some? then r.origins.value
    else []
  }

  predicate ConfinementAgrees(r: CreateReq, loaded: Option<Meta>) {
    r.authenticated && loaded.Some? && r.origins.Some? ==>
      Within(r.origins.value, ScopeList(loaded.value)) && Within(ScopeList(loaded.value), r.origins.value)
  }

  /** The session as registered, while the worker starts. */
  function Registered(r: CreateReq, loaded: Option<Meta>, now: int): View {
    var confine := CreateConfinement(r, loaded);
    View(CreateSite(r, loaded), if r.human then HumanActive else AgentActive, if r.human then ByHuman else ByAgent, Finishes,
         if loaded.Some? then Some(loaded.value.generation) else None, map[], confine, now + 15 * MINUTE, now + 60 * MINUTE,
         WorkerView(false, NoPage, confine, true), map[], [])
  }

  /** Once the worker has started, the seeded generation is checked against the store as it is now. */
  function AfterStart(c: Config, d: Disk, r: CreateReq, loaded: Option<Meta>, s: View, now: int, started: bool, mint: TokenId): (View, Reply) {
    if !started then (Fail(s), Refused(Inactive))
    else if loaded.Some? && (!RecheckLoadable(c, d, loaded.value.jarId, now)
                             || IsRevokedGeneration(c, d, loaded.value.jarId, Some(loaded.value.generation)))
    then (Cleanup(s.(state := Cancelled, owner := Nobody)), Refused(Inactive))
    else
      var s1 := if loaded.Some? && s.owner == ByHuman && !s.site.authenticated then s.(worker := s.worker.(guard := false)) else s;
      (if s.owner == ByHuman then s1.(tokens := s1.tokens[mint := Token(ControlToken, s.expires, false)]) else s1, Done)
  }

  // ---------------------------------------------------------------- the session object

  class Session {
    const site: Site
    const worker: Worker
    var state: SessionState
    var owner: Owner
    var resume: Resume
    var jarGeneration: Option<int>
    var produced: map<JarId, int>
    var confineOrigins: seq<Origin>
    var idle: int
    var expires: int
    var tokens: map<TokenId, Token>
    ghost var log: seq<WorkerEvent>

    ghost function Now(): View
      reads this, worker
    {
      View(site, state, owner, resume, jarGeneration, produced, confineOrigins, idle, expires, worker.View(), tokens, log)
    }

    constructor (r: CreateReq, loaded: Option<Meta>, now: int)
      ensures Now() == Registered(r, loaded, now) && fresh(worker)
    {
      site := CreateSite(r, loaded);
      var w := new Worker(CreateConfinement(r, loaded));
      worker := w;
      state, owner := if r.human then HumanActive else AgentActive, if r.human then ByHuman else ByAgent;
      resume := Finishes;
      jarGeneration := if loaded.Some? then Some(loaded.value.generation) else None;
      produced := map[];
      confineOrigins := CreateConfinement(r, loaded);
      idle, expires := now + 15 * MINUTE, now + 60 * MINUTE;
      tokens := map[];
      log := [];
    }

    predicate IsExpired(now: int)
      reads this
    {
      !Terminal(state) && (idle <= now || expires <= now)
    }

    predicate Authorized(t: TokenId, kind: TokenKind, now: int)
      reads this
    {
      t in tokens && tokens[t].kind == kind && !tokens[t].consumed && now < tokens[t].expiresAt
    }

    predicate HumanAuthorized(t: TokenId, allowPending: bool, now: int)
      reads this
    {
      && (state in {HumanActive, HumanSensitive} || (allowPending && state in {HandoffRequested, HandoverRequested}))
      && Authorized(t, if state == HandoffRequested then HandoffToken else ControlToken, now)
    }

    method Move(to: SessionState) returns (ok: bool)
      modifies this
      ensures ok == Transition(old(state), old(owner), to).Some?
      ensures Now() == if ok then Enter(old(Now()), to) else old(Now())
    {
      var next := Transition(state, owner, to);
      TransitionsFollowTheLease(state, owner, to);
      if next.None? { return false; }
      owner := next.value;
      state := to;
      ok := true;
    }

    method RevokeTokens(kind: Option<TokenKind>)
      modifies this`tokens
      ensures tokens == if kind.None? then ConsumeAll(old(tokens)) else ConsumeKind(old(tokens), kind.value)
    {
      var todo := tokens.Keys;
      while todo != {}
        invariant todo <= tokens.Keys == old(tokens).Keys
        invariant forall t <- tokens :: tokens[t] ==
                    if t in todo then old(tokens)[t]
                    else if kind.None? || old(tokens)[t].kind == kind.value then old(tokens)[t].(consumed := true)
                    else old(tokens)[t]
      {
        var t :| t in todo;
        todo := todo - {t};
        if kind.None? || tokens[t].kind == kind.value { tokens := tokens[t := tokens[t].(consumed := true)]; }
      }
    }

    method CleanUp()
      modifies this, worker
      ensures Now() == Cleanup(old(Now()))
    {
      RevokeTokens(None);
      worker.Close();
    }

    method EnforceNotRevoked(revoked: bool) returns (torn: bool)
      modifies this, worker
      ensures (Now(), torn) == Enforce(old(Now()), revoked)
    {
      if Terminal(state) || !revoked { return false; }
      owner := Nobody;
      state := Cancelled;
      CleanUp();
      torn := true;
    }

    method RequestHandoff(now: int, wanted: Resume, atExpectedOrigin: bool, mint: TokenId) returns (r: Reply)
      modifies this, worker
      ensures (Now(), r) == Handoff(old(Now()), now, wanted, atExpectedOrigin, mint)
    {
      if IsExpired(now) { return Refused(Inactive); }
      if site.jarId.Some? && wanted != Finishes { return Refused(Conflict); }
      if !atExpectedOrigin { return Refused(Conflict); }
      var ok := Move(HandoffRequested);
      if !ok { return Refused(BadTransition); }
      resume := wanted;
      if site.jarId.Some? && !site.authenticated { worker.SetConfinementActive(false); }
      idle := Min(now + 10 * MINUTE, expires);
      tokens := tokens[mint := Token(HandoffToken, idle, false)];
      r := Done;
    }

    method ClaimHandoff(now: int, t: TokenId, mint: TokenId) returns (r: Reply)
      modifies this
      ensures (Now(), r) == Claim(old(Now()), now, t, mint)
    {
      if IsExpired(now) { return Refused(Inactive); }
      if !Authorized(t, HandoffToken, now) { return Refused(Unauthorized); }
      var ok := Move(HumanActive);
      if !ok { return Refused(BadTransition); }
      idle := Min(now + 10 * MINUTE, expires);
      tokens := tokens[t := tokens[t].(consumed := true)];
      tokens := tokens[mint := Token(ControlToken, expires, false)];
      r := Done;
    }

    method SanitizeForResume() returns (ok: bool)
      modifies this, worker
      ensures (Now(), ok) == Sanitize(old(Now()))
    {
      if worker.closed {
        owner, state := Nobody, SessionState.Failed;
        return false;
      }
      worker.Command(ClosePage);
      log := log + [Sanitized];
      ok := true;
    }

    method ReopenConfinedPage(landed: Page, fails: bool)
      modifies this, worker
      ensures Now() == Reopen(old(Now()), landed, fails)
    {
      if confineOrigins == [] || worker.closed { return; }
      worker.Command(Navigate(landed, fails));
      log := log + [Reopened];
    }

    method HumanComplete(now: int, t: TokenId) returns (r: Reply)
      modifies this, worker
      ensures (Now(), r) == Complete(old(Now()), now, t)
    {
      if !HumanAuthorized(t, false, now) { return Refused(Unauthorized); }
      if IsExpired(now) { return Refused(Inactive); }
      hide Sanitize, Cleanup;
      if resume == AfterSanitize && state == HumanActive {
        var ok := Move(SanitizePending);
        if !ok { return Refused(BadTransition); }
        ok := SanitizeForResume();
        if !ok { return Refused(Conflict); }
        ok := Move(AgentResumable);
        idle := Min(now + 5 * MINUTE, expires);
        return Done;
      }
      var ok := Move(Completed);
      if !ok { return Refused(BadTransition); }
      CleanUp();
      r := Done;
    }

    method HumanCancel(now: int, t: TokenId) returns (r: Reply)
      modifies this, worker
      ensures (Now(), r) == Cancel(old(Now()), now, t)
    {
      if !HumanAuthorized(t, true, now) { return Refused(Unauthorized); }
      if IsExpired(now) { return Refused(Inactive); }
      var ok := Move(Cancelled);
      if !ok { return Refused(BadTransition); }
      CleanUp();
      r := Done;
    }

    method ReadyForHandover(landed: Page, fails: bool) returns (ok: bool)
      modifies this, worker
      ensures (Now(), ok) == PrepareHandover(old(Now()), landed, fails)
    {
      resume := Finishes;
      if !site.authenticated { return true; }
      resume := AfterSanitize;
      ok := SanitizeForResume();
      if ok { ReopenConfinedPage(landed, fails); }
    }

    method RequestHandover(now: int, t: TokenId, mint: TokenId, landed: Page, fails: bool) returns (r: Reply)
      modifies this, worker
      ensures (Now(), r) == Handover(old(Now()), now, t, mint, landed, fails)
    {
      if IsExpired(now) { return Refused(Inactive); }
      if !Authorized(t, ControlToken, now) { return Refused(Unauthorized); }
      if state != HumanActive { return Refused(Conflict); }
      if site.jarId.Some? && !site.authenticated { return Refused(Conflict); }
      hide PrepareHandover;
      var ready := ReadyForHandover(landed, fails);
      if !ready { return Refused(Conflict); }
      var ok := Move(HandoverRequested);
      if !ok { return Refused(BadTransition); }
      idle := Min(now + 10 * MINUTE, expires);
      if !site.authenticated { tokens := tokens[mint := Token(HandoverToken, idle, false)]; }
      r := Done;
    }

    method ClaimHandover(now: int, t: Option<TokenId>, revoked: bool) returns (r: Reply)
      modifies this, worker
      ensures (Now(), r) == AgentClaim(old(Now()), now, t, revoked)
    {
      if IsExpired(now) { return Refused(Inactive); }
      if state != HandoverRequested { return Refused(Conflict); }
      var torn := EnforceNotRevoked(revoked);
      if torn { return Refused(Inactive); }
      if t.Some? || !site.authenticated {
        if t.None? || !Authorized(t.value, HandoverToken, now) { return Refused(Unauthorized); }
      }
      var ok := Move(AgentActive);
      if !ok { return Refused(BadTransition); }
      idle := Min(now + 15 * MINUTE, expires);
      if t.Some? { tokens := tokens[t.value := tokens[t.value].(consumed := true)]; }
      else { RevokeTokens(Some(HandoverToken)); }
      RevokeTokens(Some(ControlToken));
      if site.authenticated { worker.SetConfinementActive(true); }
      r := Done;
    }

    method ExtendIdle(now: int, t: TokenId, minutes: nat) returns (r: Reply)
      modifies this
      ensures (Now(), r) == Extend(old(Now()), now, t, minutes)
    {
      if !HumanAuthorized(t, false, now) { return Refused(Unauthorized); }
      if IsExpired(now) { return Refused(Inactive); }
      idle := Max(idle, Min(now + minutes * MINUTE, expires));
      r := Done;
    }

    method Sensitive(now: int, t: TokenId) returns (r: Reply)
      modifies this
      ensures (Now(), r) == MarkSensitive(old(Now()), now, t)
    {
      if !HumanAuthorized(t, false, now) { return Refused(Unauthorized); }
      if IsExpired(now) { return Refused(Inactive); }
      var ok := Move(HumanSensitive);
      if !ok { return Refused(BadTransition); }
      idle := Min(now + 5 * MINUTE, expires);
      r := Done;
    }

    method RemoteInput(now: int, t: TokenId, revoked: bool, moves: Option<Page>) returns (r: Reply)
      modifies this, worker
      ensures (Now(), r) == Input(old(Now()), now, t, revoked, moves)
    {
      if IsExpired(now) { return Refused(Inactive); }
      if !HumanAuthorized(t, false, now) { return Refused(Unauthorized); }
      var torn := EnforceNotRevoked(revoked);
      if torn { return Refused(Inactive); }
      log := log + [FromHuman];
      if moves.Some? { worker.Command(Navigate(moves.value, false)); }
      r := Done;
    }

    method AgentCommand(now: int, cmd: Cmd, revoked: bool) returns (r: Reply)
      modifies this, worker
      ensures (Now(), r) == Command(old(Now()), now, cmd, revoked)
    {
      if IsExpired(now) { return Refused(Inactive); }
      if Terminal(state) { return Refused(Inactive); }
      if !AgentState(state) || owner != ByAgent { return Refused(Unauthorized); }
      if cmd.Exec? && site.jarId.Some? && !site.allowExec { return Refused(Unauthorized); }
      if site.autofill && (cmd.Exec? || cmd.Extract? || cmd.TransferChord?) { return Refused(Unauthorized); }
      var torn := EnforceNotRevoked(revoked);
      if torn { return Refused(Inactive); }
      if worker.closed {
        owner, state := Nobody, SessionState.Failed;
        return Refused(Conflict);
      }
      worker.Command(cmd);
      log := log + [FromAgent(cmd)];
      idle := Min(now + 15 * MINUTE, expires);
      r := Done;
    }

    method CloseSession()
      modifies this, worker
      ensures Now() == Close(old(Now()))
    {
      if !Terminal(state) { owner, state := Nobody, Cancelled; }
      CleanUp();
    }

    method ReapIfExpired(now: int)
      modifies this, worker
      ensures Now() == Reap(old(Now()), now)
    {
      if IsExpired(now) {
        state, owner := Expired, Nobody;
        CleanUp();
      }
    }

    method CloseForRevokedJar(id: JarId)
      modifies this, worker
      ensures Now() == CloseForJar(old(Now()), id)
    {
      if Terminal(state) { return; }
      if site.jarId != Some(id) && id !in produced { return; }
      owner, state := Nobody, Cancelled;
      CleanUp();
    }

    /** What follows the start of the worker: the recheck of the seeded jar against the store at `d`. */
    method FinishStart(c: Config, d: Disk, req: CreateReq, loaded: Option<Meta>, now: int, started: bool, mint: TokenId)
      returns (r: Reply)
      modifies this, worker
      ensures (Now(), r) == AfterStart(c, d, req, loaded, old(Now()), now, started, mint)
    {
      if !started {
        owner, state := Nobody, SessionState.Failed;
        return Refused(Inactive);
      }
      if loaded.Some? {
        if !RecheckLoadable(c, d, loaded.value.jarId, now)
           || IsRevokedGeneration(c, d, loaded.value.jarId, Some(loaded.value.generation)) {
          owner, state := Nobody, Cancelled;
          CleanUp();
          return Refused(Inactive);
        }
        if owner == ByHuman && !site.authenticated { worker.SetConfinementActive(false); }
      }
      if owner == ByHuman { tokens := tokens[mint := Token(ControlToken, expires, false)]; }
      r := Done;
    }

    /** A save: `saved` is the store's answer to the request made under `Precondition`. */
    method SaveJar(now: int, actor: Actor, target: Option<JarId>, ownsTarget: bool, revoked: bool, revokedAfterExport: bool,
                   saved: Result<Meta>) returns (r: Reply)
      modifies this, worker
      ensures (Now(), r) == SaveFrom(old(Now()), now, actor, target, ownsTarget, revoked, revokedAfterExport, saved)
    {
      if actor.ActingHuman? && !HumanAuthorized(actor.token, false, now) { return Refused(Unauthorized); }
      if IsExpired(now) { return Refused(Inactive); }
      var torn := EnforceNotRevoked(revoked);
      if torn { return Refused(Inactive); }
      if !MaySaveNow(now, actor, target, ownsTarget) { return Refused(Unauthorized); }
      if worker.closed { return Refused(Conflict); }
      torn := EnforceNotRevoked(revokedAfterExport);
      if torn { return Refused(Inactive); }
      if saved.Err? { return Refused(Conflict); }
      AdoptSaved(saved.value);
      r := Done;
    }

    predicate MaySaveNow(now: int, actor: Actor, target: Option<JarId>, ownsTarget: bool)
      reads this
    {
      && (match actor
          case ActingHuman(t) => HumanAuthorized(t, false, now)
          case ActingAgent => AgentState(state) && owner == ByAgent)
      && (site.jarId.Some? ==> target == site.jarId)
      && (target.Some? ==> if actor.ActingAgent? then site.jarId == target else ownsTarget)
    }

    method AdoptSaved(m: Meta)
      modifies this, worker
      ensures Now() == Adopt(old(Now()), m)
    {
      produced := produced[m.jarId := m.generation];
      if site.jarId == Some(m.jarId) {
        jarGeneration := Some(m.generation);
        confineOrigins := m.origins + m.allowlist;
        if site.confine && !worker.closed {
          worker.SetConfineOrigins(m.origins + m.allowlist);
          worker.EvictOffScopePage();
        }
      }
    }
  }
}
