/** Filling a login form with a released credential: pin the document, ask the broker, wait, check the
    grant, verify the document again, read once, fill.

    The whole call runs under the session's lock, so the agent does nothing meanwhile; the page itself
    may navigate at every await. The credential broker is an environment that answers as it likes. */
module Autofill {
  import opened Tombstones
  import opened CookieScope
  import opened JarEnvelope
  import opened JarStore
  import opened Leases
  import opened Sessions

  const AUTOFILL_FILL_CAP: nat := 6

  type StepKey = string
  type Nonce = nat
  type Grant = string

  datatype Kind = Username | Password

  datatype Target = Target(slot: nat, ref: string, kind: Kind)

  /** What a step is pinned to, kept until its grant is read. */
  datatype Pending = Pending(alias: string, context: string, nonce: Nonce, origin: Origin, targets: seq<Target>)

  // ---------------------------------------------------------------- the broker

  datatype RequestState = Pended | Approved | DeniedByPolicy | Lapsed

  datatype Status = Status(request: string, state: RequestState, grant: Option<Grant>)

  /** The port of a granted origin defaults to 443. */
  datatype GrantOrigin = GrantOrigin(host: string, port: Option<nat>)

  datatype GrantInfo = GrantInfo(
    forAutofill: bool, revoked: bool, notAfter: int, useCount: nat, maxUses: Option<nat>, origins: seq<GrantOrigin>, serverTime: Option<int>)

  predicate Usable(g: GrantInfo, now: int) {
    && g.forAutofill && !g.revoked && g.notAfter > (if g.serverTime.Some? then g.serverTime.value else now)
    && (g.maxUses.Some? ==> g.useCount < g.maxUses.value)
  }

  predicate Covers(g: GrantInfo, o: Origin) {
    exists granted <- g.origins :: granted.host == Lower(o.host) && (if granted.port.Some? then granted.port.value else 443) == o.port
  }

  // ---------------------------------------------------------------- the session with its ledger

  /** What happened, in order: requests to the broker, grants inspected, secrets read, values placed in
      a document, and the report of a bad password. */
  datatype Call =
    | Asked(step: StepKey, alias: string, origin: Origin, context: string)
    | Inspected(grant: Grant, info: GrantInfo, at: int)
    | ReadOut(step: StepKey, grant: Grant, origin: Origin)
    | Placed(step: StepKey, nonce: Nonce, doc: nat, origin: Origin, kind: Kind)
    | Latched

  /** `doc` counts the documents the page has shown; `pins` says which one each nonce was put into. */
  datatype Vault = Vault(
    view: View, alias: Option<string>, fills: nat, bad: bool, pending: map<StepKey, Pending>, nonce: Option<Nonce>,
    doc: nat, pins: map<Nonce, nat>, calls: seq<Call>)

  datatype Reason =
    | AutofillDisabled | AliasMismatch | NoAlias | BadPasswordRecorded | FillCapReached | Unpinnable | WrongOrigin
    | BrokerUnavailable | PolicyDenied | RequestExpired | GrantInvalid | TargetInvalidated

  datatype Outcome = Raised(why: Refusal) | Declined(reason: Reason) | AwaitingApproval(request: string) | FilledIn(targets: seq<Target>)

  datatype Stage<T> = Go(value: T) | Stop(outcome: Outcome)

  datatype Request = Request(secretName: Option<string>, step: StepKey, wait: bool, context: string)

  /** What one target meets: navigations before it, and whether the page still takes the value. */
  datatype TargetLuck = TargetLuck(drift: seq<Page>, takes: bool)

  /** The answers of the surroundings during one call; `None` is a broker call that fails. Each drift is
      what the page navigates to by itself during that await. */
  datatype Env = Env(
    now: int, revoked: bool, configured: bool, nonce: Nonce, prepared: Option<seq<Target>>,
    askDrift: seq<Page>, created: Option<Status>, waited: Option<Status>,
    infoDrift: seq<Page>, info: Option<GrantInfo>, infoAt: int,
    verifies: bool, readAt: int, revokedBeforeRead: bool, readDrift: seq<Page>, secret: Option<map<Kind, string>>,
    fillAt: int, revokedBeforeFill: bool, lucks: seq<TargetLuck>, doneAt: int)

  // ---------------------------------------------------------------- the page underneath

  /** A navigation the guard lets through brings a new document, and the nonce goes with the old one. */
  function MoveTo(v: Vault, p: Page): Vault {
    if OffScope(v.view.worker, p) then v
    else v.(view := v.view.(worker := v.view.worker.(page := p)), nonce := None, doc := v.doc + 1)
  }

  function Drift(v: Vault, ps: seq<Page>): Vault
    decreases |ps|
  {
    if ps == [] then v else MoveTo(Drift(v, ps[..|ps| - 1]), ps[|ps| - 1])
  }

  /** The document carries the nonce and shows the origin of the pin. */
  predicate StillPinned(v: Vault, p: Pending) { v.nonce == Some(p.nonce) && v.view.worker.page == At(p.origin) }

  function Note(v: Vault, c: Call): Vault { v.(calls := v.calls + [c]) }

  // ---------------------------------------------------------------- one call, stage by stage

  function AliasFor(v: Vault, r: Request): Option<string> { if v.view.site.authenticated then v.alias else r.secretName }

  function Gate(v: Vault, r: Request): Stage<string> {
    if !v.view.site.autofill then Stop(Declined(AutofillDisabled))
    else if v.view.site.authenticated && r.secretName.Some? && r.secretName != v.alias then Stop(Declined(AliasMismatch))
    else if AliasFor(v, r).None? || AliasFor(v, r).value == "" then Stop(Declined(NoAlias))
    else if v.bad then Stop(Declined(BadPasswordRecorded))
    else if v.fills >= AUTOFILL_FILL_CAP then Stop(Declined(FillCapReached))
    else if v.view.worker.closed then Stop(Raised(Conflict))
    else Go(AliasFor(v, r).value)
  }

  /** Step 1: the pin of an earlier call for this step, or a new one on the current document. */
  function Pin(v: Vault, r: Request, alias: string, env: Env): (Vault, Stage<Pending>) {
    if r.step in v.pending then
      if v.pending[r.step].alias != alias then (v, Stop(Declined(AliasMismatch))) else Admit(v, r, v.pending[r.step], env)
    else if env.prepared.None? then (v, Stop(Declined(Unpinnable)))
    else
      var v1 := v.(nonce := Some(env.nonce), pins := v.pins[env.nonce := v.doc]);
      if !v.view.worker.page.At? then (v1, Stop(Declined(WrongOrigin)))
      else Admit(v1, r, Pending(alias, r.context, env.nonce, v.view.worker.page.origin, env.prepared.value), env)
  }

  function Admit(v: Vault, r: Request, p: Pending, env: Env): (Vault, Stage<Pending>) {
    if v.view.site.confine && p.origin !in v.view.confineOrigins then (v, Stop(Declined(WrongOrigin)))
    else if p.origin.scheme != Https then (v, Stop(Declined(WrongOrigin)))
    else if !env.configured then (v, Stop(Declined(BrokerUnavailable)))
    else (v.(pending := v.pending[r.step := p]), Go(p))
  }

  /** Asking for the release, and waiting for the decision. */
  function Ask(v: Vault, r: Request, p: Pending, env: Env): (Vault, Stage<Grant>) {
    var v1 := Drift(Note(v, Asked(r.step, p.alias, p.origin, p.context)), env.askDrift);
    var status := if env.created.Some? && env.created.value.state.Pended? && r.wait then env.waited else env.created;
    (v1,
     if status.None? then Stop(Declined(BrokerUnavailable))
     else match status.value.state
       case Pended => Stop(AwaitingApproval(status.value.request))
       case DeniedByPolicy => Stop(Declined(PolicyDenied))
       case Lapsed => Stop(Declined(RequestExpired))
       case Approved => if status.value.grant.None? then Stop(Declined(GrantInvalid)) else Go(status.value.grant.value))
  }

  /** Step 2: the destination against what was granted. */
  function Inspect(v: Vault, p: Pending, grant: Grant, env: Env): (Vault, Stage<()>) {
    var v1 := Drift(v, env.infoDrift);
    if env.info.None? then (v1, Stop(Declined(BrokerUnavailable)))
    else
      (Note(v1, Inspected(grant, env.info.value, env.infoAt)),
       if !Usable(env.info.value, env.infoAt) then Stop(Declined(GrantInvalid))
       else if !Covers(env.info.value, p.origin) then Stop(Declined(WrongOrigin))
       else Go(()))
  }

  /** Step 3: the document is verified, the session checked, the grant read. */
  function ReadGrant(v: Vault, r: Request, p: Pending, grant: Grant, env: Env): (Vault, Stage<map<Kind, string>>) {
    if !StillPinned(v, p) || !env.verifies then (v, Stop(Declined(TargetInvalidated)))
    else if ExpiredAt(v.view, env.readAt) then (v, Stop(Raised(Inactive)))
    else
      var (view, torn) := Enforce(v.view, env.revokedBeforeRead);
      if torn then (v.(view := view), Stop(Raised(Inactive)))
      else
        var v1 := Drift(v, env.readDrift);
        if env.secret.None? then (v1, Stop(Declined(BrokerUnavailable)))
        else (Note(v1.(fills := v1.fills + 1, pending := v1.pending - {r.step}), ReadOut(r.step, grant, p.origin)), Go(env.secret.value))
  }

  /** One target: verified and filled in one step. */
  function Place(v: Vault, r: Request, p: Pending, t: Target, values: map<Kind, string>, l: TargetLuck): (Vault, bool) {
    if t.kind !in values then (v, true)
    else
      var v1 := Drift(v, l.drift);
      if !StillPinned(v1, p) || !l.takes then (v1, false)
      else (Note(v1, Placed(r.step, p.nonce, v1.doc, p.origin, t.kind)), true)
  }

  function PlaceAll(v: Vault, r: Request, p: Pending, values: map<Kind, string>, lucks: seq<TargetLuck>, n: nat): (Vault, bool)
    requires n <= |p.targets| <= |lucks|
  {
    if n == 0 then (v, StillPinned(v, p))
    else
      var (v1, ok) := PlaceAll(v, r, p, values, lucks, n - 1);
      if !ok then (v1, false) else Place(v1, r, p, p.targets[n - 1], values, lucks[n - 1])
  }

  function Fill(v: Vault, r: Request, p: Pending, values: map<Kind, string>, env: Env): (Vault, Outcome)
    requires |p.targets| <= |env.lucks|
  {
    if exists t <- p.targets :: t.kind !in values then (v, Declined(GrantInvalid))
    else if ExpiredAt(v.view, env.fillAt) then (v, Raised(Inactive))
    else
      var (view, torn) := Enforce(v.view, env.revokedBeforeFill);
      if torn then (v.(view := view), Raised(Inactive))
      else
        var (v1, ok) := PlaceAll(v, r, p, values, env.lucks, |p.targets|);
        (v1, if ok then FilledIn(p.targets) else Declined(TargetInvalidated))
  }

  /** From the grant to the filled form. */
  function Spend(v: Vault, r: Request, p: Pending, grant: Grant, env: Env): (Vault, Outcome)
    requires |p.targets| <= |env.lucks|
  {
    var (v1, fit) := Inspect(v, p, grant, env);
    if fit.Stop? then (v1, fit.outcome)
    else
      var (v2, values) := ReadGrant(v1, r, p, grant, env);
      if values.Stop? then (v2, values.outcome) else Fill(v2, r, p, values.value, env)
  }

  /** The surroundings have an answer for every target. */
  predicate Answers(v: Vault, r: Request, env: Env) {
    && (r.step in v.pending ==> |v.pending[r.step].targets| <= |env.lucks|)
    && (env.prepared.Some? ==> |env.prepared.value| <= |env.lucks|)
    && env.nonce !in v.pins
  }

  function Locked(v: Vault, r: Request, env: Env): (Vault, Outcome)
    requires Answers(v, r, env)
  {
    var alias := Gate(v, r);
    if alias.Stop? then (v, alias.outcome)
    else
      var (v1, p) := Pin(v, r, alias.value, env);
      if p.Stop? then (v1, p.outcome)
      else
        var (v2, grant) := Ask(v1, r, p.value, env);
        if grant.Stop? then (v2, grant.outcome) else Spend(v2, r, p.value, grant.value, env)
  }

  function Submit(v: Vault, r: Request, env: Env): (Vault, Outcome)
    requires Answers(v, r, env)
  {
    if ExpiredAt(v.view, env.now) || Terminal(v.view.state) then (v, Raised(Inactive))
    else if !AgentHolds(v.view) then (v, Raised(Unauthorized))
    else
      var (view, torn) := Enforce(v.view, env.revoked);
      if torn then (v.(view := view), Raised(Inactive))
      else
        var (v1, outcome) := Locked(v, r, env);
        (if outcome.Raised? then v1 else v1.(view := v1.view.(idle := Min(env.doneAt + 15 * MINUTE, v1.view.expires))), outcome)
  }

  /** The agent reports how the login went. */
  function Report(v: Vault, now: int, badPassword: bool): (Vault, Reply) {
    if ExpiredAt(v.view, now) then (v, Sessions.Refused(Inactive))
    else if !AgentHolds(v.view) then (v, Sessions.Refused(Unauthorized))
    else (if badPassword then Note(v.(bad := true), Latched) else v, Done)
  }

  // ---------------------------------------------------------------- the session's autofill, step by step

  class Autofiller {
    const session: Session
    const alias: Option<string>
    var fills: nat
    var bad: bool
    var pending: map<StepKey, Pending>
    var nonce: Option<Nonce>
    ghost var doc: nat
    ghost var pins: map<Nonce, nat>
    ghost var calls: seq<Call>

    ghost function Now(): Vault
      reads this, session, session.worker
    {
      Vault(session.Now(), alias, fills, bad, pending, nonce, doc, pins, calls)
    }

    constructor (session: Session, alias: Option<string>)
      ensures Now() == Vault(session.Now(), alias, 0, false, map[], None, 0, map[], [])
      ensures this.session == session
    {
      this.session, this.alias := session, alias;
      fills, bad, pending, nonce, doc, pins, calls := 0, false, map[], None, 0, map[], [];
    }

    method PageMoves(p: Page)
      modifies this, session.worker
      ensures Now() == MoveTo(old(Now()), p)
    {
      if OffScope(session.worker.View(), p) { return; }
      session.worker.Command(Navigate(p, false));
      nonce, doc := None, doc + 1;
    }

    method PageDrifts(ps: seq<Page>)
      modifies this, session.worker
      ensures Now() == Drift(old(Now()), ps)
    {
      for i := 0 to |ps|
        invariant Now() == Drift(old(Now()), ps[..i])
      {
        assert ps[..i + 1][..i] == ps[..i];
        PageMoves(ps[i]);
      }
      assert ps[..|ps|] == ps;
    }

    /** The worker's test before a fill. */
    predicate Verifies(p: Pending)
      reads this, session, session.worker
    {
      nonce == Some(p.nonce) && session.worker.page == At(p.origin)
    }

    method CheckGate(r: Request) returns (o: Stage<string>)
      ensures o == Gate(Now(), r)
    {
      if !session.site.autofill { return Stop(Declined(AutofillDisabled)); }
      if session.site.authenticated && r.secretName.Some? && r.secretName != alias { return Stop(Declined(AliasMismatch)); }
      var wanted := if session.site.authenticated then alias else r.secretName;
      if wanted.None? || wanted.value == "" { return Stop(Declined(NoAlias)); }
      if bad { return Stop(Declined(BadPasswordRecorded)); }
      if fills >= AUTOFILL_FILL_CAP { return Stop(Declined(FillCapReached)); }
      if session.worker.closed { return Stop(Raised(Conflict)); }
      o := Go(wanted.value);
    }

    method PinDocument(r: Request, wanted: string, env: Env) returns (o: Stage<Pending>)
      modifies this
      ensures (Now(), o) == Pin(old(Now()), r, wanted, env)
    {
      var p: Pending;
      if r.step in pending {
        if pending[r.step].alias != wanted { return Stop(Declined(AliasMismatch)); }
        p := pending[r.step];
      } else {
        if env.prepared.None? { return Stop(Declined(Unpinnable)); }
        nonce, pins := Some(env.nonce), pins[env.nonce := doc];
        if !session.worker.page.At? { return Stop(Declined(WrongOrigin)); }
        p := Pending(wanted, r.context, env.nonce, session.worker.page.origin, env.prepared.value);
      }
      if session.site.confine && p.origin !in session.confineOrigins { return Stop(Declined(WrongOrigin)); }
      if p.origin.scheme != Https { return Stop(Declined(WrongOrigin)); }
      if !env.configured { return Stop(Declined(BrokerUnavailable)); }
      pending := pending[r.step := p];
      o := Go(p);
    }

    method AskBroker(r: Request, p: Pending, env: Env) returns (o: Stage<Grant>)
      modifies this, session.worker
      ensures (Now(), o) == Ask(old(Now()), r, p, env)
    {
      calls := calls + [Asked(r.step, p.alias, p.origin, p.context)];
      PageDrifts(env.askDrift);
      if env.created.None? { return Stop(Declined(BrokerUnavailable)); }
      var status := env.created.value;
      if status.state.Pended? && r.wait {
        if env.waited.None? { return Stop(Declined(BrokerUnavailable)); }
        status := env.waited.value;
      }
      if status.state.Pended? { return Stop(AwaitingApproval(status.request)); }
      if status.state.DeniedByPolicy? { return Stop(Declined(PolicyDenied)); }
      if status.state.Lapsed? { return Stop(Declined(RequestExpired)); }
      if status.grant.None? { return Stop(Declined(GrantInvalid)); }
      o := Go(status.grant.value);
    }

    method InspectGrant(p: Pending, grant: Grant, env: Env) returns (o: Stage<()>)
      modifies this, session.worker
      ensures (Now(), o) == Inspect(old(Now()), p, grant, env)
    {
      PageDrifts(env.infoDrift);
      if env.info.None? { return Stop(Declined(BrokerUnavailable)); }
      calls := calls + [Inspected(grant, env.info.value, env.infoAt)];
      if !Usable(env.info.value, env.infoAt) { return Stop(Declined(GrantInvalid)); }
      if !Covers(env.info.value, p.origin) { return Stop(Declined(WrongOrigin)); }
      o := Go(());
    }

    method ReadSecret(r: Request, p: Pending, grant: Grant, env: Env) returns (o: Stage<map<Kind, string>>)
      modifies this, session, session.worker
      ensures (Now(), o) == ReadGrant(old(Now()), r, p, grant, env)
    {
      if !Verifies(p) || !env.verifies { return Stop(Declined(TargetInvalidated)); }
      if session.IsExpired(env.readAt) { return Stop(Raised(Inactive)); }
      var torn := session.EnforceNotRevoked(env.revokedBeforeRead);
      if torn { return Stop(Raised(Inactive)); }
      PageDrifts(env.readDrift);
      if env.secret.None? { return Stop(Declined(BrokerUnavailable)); }
      fills, pending := fills + 1, pending - {r.step};
      calls := calls + [ReadOut(r.step, grant, p.origin)];
      o := Go(env.secret.value);
    }

    method PlaceValues(r: Request, p: Pending, values: map<Kind, string>, lucks: seq<TargetLuck>) returns (ok: bool)
      requires |p.targets| <= |lucks|
      modifies this, session.worker
      ensures (Now(), ok) == PlaceAll(old(Now()), r, p, values, lucks, |p.targets|)
    {
      ok := Verifies(p);
      for i := 0 to |p.targets|
        invariant (Now(), ok) == PlaceAll(old(Now()), r, p, values, lucks, i)
      {
        if ok && p.targets[i].kind in values {
          PageDrifts(lucks[i].drift);
          if Verifies(p) && lucks[i].takes {
            calls := calls + [Placed(r.step, p.nonce, doc, p.origin, p.targets[i].kind)];
          } else {
            ok := false;
          }
        }
      }
    }

    method FillForm(r: Request, p: Pending, values: map<Kind, string>, env: Env) returns (o: Outcome)
      requires |p.targets| <= |env.lucks|
      modifies this, session, session.worker
      ensures (Now(), o) == Fill(old(Now()), r, p, values, env)
    {
      if exists t <- p.targets :: t.kind !in values { return Declined(GrantInvalid); }
      if session.IsExpired(env.fillAt) { return Raised(Inactive); }
      var torn := session.EnforceNotRevoked(env.revokedBeforeFill);
      if torn { return Raised(Inactive); }
      var ok := PlaceValues(r, p, values, env.lucks);
      o := if ok then FilledIn(p.targets) else Declined(TargetInvalidated);
    }

    method SpendGrant(r: Request, p: Pending, grant: Grant, env: Env) returns (o: Outcome)
      requires |p.targets| <= |env.lucks|
      modifies this, session, session.worker
      ensures (Now(), o) == Spend(old(Now()), r, p, grant, env)
    {
      hide Inspect, ReadGrant, Fill;
      var fit := InspectGrant(p, grant, env);
      if fit.Stop? { return fit.outcome; }
      var values := ReadSecret(r, p, grant, env);
      if values.Stop? { return values.outcome; }
      o := FillForm(r, p, values.value, env);
    }

    method AutofillLocked(r: Request, env: Env) returns (o: Outcome)
      requires Answers(Now(), r, env)
      modifies this, session, session.worker
      ensures (Now(), o) == Locked(old(Now()), r, env)
    {
      hide Ask, Spend;
      var wanted := CheckGate(r);
      if wanted.Stop? { return wanted.outcome; }
      var p := PinDocument(r, wanted.value, env);
      if p.Stop? { return p.outcome; }
      var grant := AskBroker(r, p.value, env);
      if grant.Stop? { return grant.outcome; }
      o := SpendGrant(r, p.value, grant.value, env);
    }

    method Autofill(r: Request, env: Env) returns (o: Outcome)
      requires Answers(Now(), r, env)
      modifies this, session, session.worker
      ensures (Now(), o) == Submit(old(Now()), r, env)
    {
      hide Locked, Answers;
      if session.IsExpired(env.now) || Terminal(session.state) { return Raised(Inactive); }
      if !AgentState(session.state) || session.owner != ByAgent { return Raised(Unauthorized); }
      var torn := session.EnforceNotRevoked(env.revoked);
      if torn { return Raised(Inactive); }
      o := AutofillLocked(r, env);
      if !o.Raised? { session.idle := Min(env.doneAt + 15 * MINUTE, session.expires); }
    }

    method RecordOutcome(now: int, badPassword: bool) returns (r: Reply)
      modifies this
      ensures (Now(), r) == Report(old(Now()), now, badPassword)
    {
      if session.IsExpired(now) { return Sessions.Refused(Inactive); }
      if !AgentState(session.state) || session.owner != ByAgent { return Sessions.Refused(Unauthorized); }
      if badPassword {
        bad := true;
        calls := calls + [Latched];
      }
      r := Done;
    }
  }
}
