/** What one autofill call comes to: which check refuses it, and when the form is filled. */
module AutofillOutcomes {
  import opened Tombstones
  import opened CookieScope
  import opened JarEnvelope
  import opened JarStore
  import opened Leases
  import opened Sessions
  import opened Autofill
  import opened AutofillRuns

  // ---------------------------------------------------------------- the refusals

  /** The name of the credential the call is about: the session's own where it is an authenticated-site
      session, else the one it names. */
  function Wanted(v: Vault, r: Request): string {
    var name := if v.view.site.authenticated then v.alias else r.secretName;
    if name.Some? then name.value else ""
  }

  predicate Pinned(v: Vault, r: Request) { r.step in v.pending }

  /** The origin the step is pinned to, by an earlier call or by this one. */
  function PinOrigin(v: Vault, r: Request): Option<Origin> {
    if Pinned(v, r) then Some(v.pending[r.step].origin)
    else match v.view.worker.page
      case At(o) => Some(o)
      case _ => None
  }

  /** The broker's last word, after waiting where the call waits. */
  function Decision(r: Request, env: Env): Option<Status> {
    match env.created
    case Some(status) => if status.state == Pended && r.wait then env.waited else env.created
    case None => None
  }

  /** The first check to fail before the broker is asked, by the answer it gives. */
  function RefusedBeforeAsking(v: Vault, r: Request, env: Env): Option<Outcome> {
    var s, o := v.view, PinOrigin(v, r);
    if Terminal(s.state) || s.idle <= env.now || s.expires <= env.now then Some(Raised(Inactive))
    else if !AgentState(s.state) || s.owner != ByAgent then Some(Raised(Unauthorized))
    else if env.revoked then Some(Raised(Inactive))
    else if !s.site.autofill then Some(Declined(AutofillDisabled))
    else if s.site.authenticated && r.secretName.Some? && r.secretName != v.alias then Some(Declined(AliasMismatch))
    else if Wanted(v, r) == "" then Some(Declined(NoAlias))
    else if v.bad then Some(Declined(BadPasswordRecorded))
    else if v.fills >= 6 then Some(Declined(FillCapReached))
    else if s.worker.closed then Some(Raised(Conflict))
    else if Pinned(v, r) && v.pending[r.step].alias != Wanted(v, r) then Some(Declined(AliasMismatch))
    else if !Pinned(v, r) && env.prepared.None? then Some(Declined(Unpinnable))
    else if o.None? then Some(Declined(WrongOrigin))
    else if s.site.confine && o.value !in s.confineOrigins then Some(Declined(WrongOrigin))
    else if o.value.scheme == Http then Some(Declined(WrongOrigin))
    else if !env.configured then Some(Declined(BrokerUnavailable))
    else None
  }

  /** What the broker's answer comes to where it is no grant. */
  function RefusedByTheBroker(r: Request, env: Env): Option<Outcome> {
    match Decision(r, env)
    case None => Some(Declined(BrokerUnavailable))
    case Some(Status(request, Pended, _)) => Some(AwaitingApproval(request))
    case Some(Status(_, DeniedByPolicy, _)) => Some(Declined(PolicyDenied))
    case Some(Status(_, Lapsed, _)) => Some(Declined(RequestExpired))
    case Some(Status(_, Approved, grant)) => if grant.None? then Some(Declined(GrantInvalid)) else None
  }

  /** What the inspection comes to where the grant does not fit `o`. */
  ghost function RefusedByTheGrant(env: Env, o: Origin): Option<Outcome> {
    match env.info
    case None => Some(Declined(BrokerUnavailable))
    case Some(info) =>
      if !GoodGrant(info, env.infoAt) then Some(Declined(GrantInvalid))
      else if !NamesOrigin(info, o) then Some(Declined(WrongOrigin))
      else None
  }

  /** The pin the call goes by. */
  function PinFor(v: Vault, r: Request, env: Env): Pending
    requires Pinned(v, r) || (env.prepared.Some? && v.view.worker.page.At?)
  {
    if Pinned(v, r) then v.pending[r.step]
    else Pending(Wanted(v, r), r.context, env.nonce, v.view.worker.page.origin, env.prepared.value)
  }

  /** The session as the broker is asked. */
  function Asking(v: Vault, r: Request, env: Env): Vault
    requires Pinned(v, r) || (env.prepared.Some? && v.view.worker.page.At?)
  {
    var v1 := if Pinned(v, r) then v else v.(nonce := Some(env.nonce), pins := v.pins[env.nonce := v.doc]);
    v1.(pending := v.pending[r.step := PinFor(v, r, env)])
  }

  lemma MayPin(v: Vault, r: Request, env: Env)
    requires RefusedBeforeAsking(v, r, env).None?
    ensures Pinned(v, r) || (env.prepared.Some? && v.view.worker.page.At?)
    ensures PinOrigin(v, r) == Some(PinFor(v, r, env).origin)
  {}

  lemma GateAndPin(v: Vault, r: Request, env: Env)
    requires Answers(v, r, env)
    ensures RefusedBeforeAsking(v, r, env).Some? ==> Submit(v, r, env).1 == RefusedBeforeAsking(v, r, env).value
    ensures RefusedBeforeAsking(v, r, env).None? ==>
              && (Pinned(v, r) || (env.prepared.Some? && v.view.worker.page.At?))
              && Gate(v, r) == Go(Wanted(v, r)) && Pin(v, r, Wanted(v, r), env) == (Asking(v, r, env), Go(PinFor(v, r, env)))
  {
    hide Ask, Spend, Cleanup;
  }

  lemma AskTells(v: Vault, r: Request, p: Pending, env: Env)
    ensures match RefusedByTheBroker(r, env)
            case Some(outcome) => Ask(v, r, p, env).1 == Stop(outcome)
            case None => Decision(r, env).Some? && Decision(r, env).value.grant.Some? && Ask(v, r, p, env).1 == Go(Decision(r, env).value.grant.value)
  {
    hide Drift, Note;
  }

  lemma InspectTells(v: Vault, p: Pending, grant: Grant, env: Env)
    ensures match RefusedByTheGrant(env, p.origin)
            case Some(outcome) => Inspect(v, p, grant, env).1 == Stop(outcome)
            case None => env.info.Some? && Inspect(v, p, grant, env).1 == Go(())
  {
    if env.info.Some? { GrantTests(env.info.value, env.infoAt, p.origin); }
    hide Drift, Usable, Covers, GoodGrant, NamesOrigin;
  }

  /** A call passes its checks in this order and answers with the first that fails: the session's deadlines,
      the lease, the kill-switch; whether credentials are enabled, the name asked for, the latch, the cap, the
      worker; the pin and its origin; the broker; the grant. */
  lemma FirstRefusal(v: Vault, r: Request, env: Env)
    requires Answers(v, r, env)
    ensures match RefusedBeforeAsking(v, r, env)
            case Some(outcome) => Submit(v, r, env).1 == outcome && Submit(v, r, env).0.calls == v.calls
            case None =>
              match RefusedByTheBroker(r, env)
              case Some(outcome) => Submit(v, r, env).1 == outcome
              case None =>
                && PinOrigin(v, r).Some?
                && (RefusedByTheGrant(env, PinOrigin(v, r).value).Some? ==>
                      Submit(v, r, env).1 == RefusedByTheGrant(env, PinOrigin(v, r).value).value)
  {
    GateAndPin(v, r, env);
    if RefusedBeforeAsking(v, r, env).None? {
      MayPin(v, r, env);
      PassesToLocked(v, r, env);
      var p := PinFor(v, r, env);
      AskTells(Asking(v, r, env), r, p, env);
      hide Submit, RefusedBeforeAsking, Ask, Inspect, Gate, Pin, RefusedByTheBroker, RefusedByTheGrant;
      if RefusedByTheBroker(r, env).None? {
        InspectTells(Ask(Asking(v, r, env), r, p, env).0, p, Decision(r, env).value.grant.value, env);
      }
    } else {
      RefusedQuietly(v, r, env);
    }
  }

  lemma PassesToLocked(v: Vault, r: Request, env: Env)
    requires Answers(v, r, env) && RefusedBeforeAsking(v, r, env).None?
    ensures Submit(v, r, env).1 == Locked(v, r, env).1
    ensures Submit(v, r, env).0.calls == Locked(v, r, env).0.calls && Submit(v, r, env).0.fills == Locked(v, r, env).0.fills
    ensures Submit(v, r, env).0.pending == Locked(v, r, env).0.pending
    ensures !Submit(v, r, env).1.Raised? ==>
              Submit(v, r, env).0.view.idle == (if env.doneAt + 15 * 60 < Locked(v, r, env).0.view.expires then env.doneAt + 15 * 60 else Locked(v, r, env).0.view.expires)
  {
    hide Locked, Cleanup;
  }

  lemma RefusedQuietly(v: Vault, r: Request, env: Env)
    requires Answers(v, r, env) && RefusedBeforeAsking(v, r, env).Some?
    ensures Submit(v, r, env).0.calls == v.calls
  {
    hide Ask, Spend, Cleanup;
  }

  // ---------------------------------------------------------------- what a refused call leaves behind

  lemma InspectNotes(v: Vault, p: Pending, grant: Grant, env: Env)
    ensures var w := Inspect(v, p, grant, env).0;
      && w.calls == v.calls + (if env.info.Some? then [Inspected(grant, env.info.value, env.infoAt)] else [])
      && w.fills == v.fills && w.pending == v.pending && w.bad == v.bad && w.pins == v.pins
  {
    DriftOnlyMoves(v, env.infoDrift);
    hide Drift, Usable, Covers;
  }

  lemma AskNotes(v: Vault, r: Request, p: Pending, env: Env)
    ensures var w := Ask(v, r, p, env).0;
      && w.calls == v.calls + [Asked(r.step, p.alias, p.origin, p.context)]
      && w.fills == v.fills && w.pending == v.pending && w.bad == v.bad && w.pins == v.pins
  {
    DriftOnlyMoves(Note(v, Asked(r.step, p.alias, p.origin, p.context)), env.askDrift);
    hide Drift;
  }

  /** What a call has put into the ledger that the broker or the grant refuses: the request, and the grant
      as it was inspected; nothing is read or filled. In particular a grant that names another host ends
      the call as a wrong origin, with no read. */
  lemma RefusedReadsNothing(v: Vault, r: Request, env: Env)
    requires Answers(v, r, env) && RefusedBeforeAsking(v, r, env).None?
    ensures PinOrigin(v, r).Some? && (Pinned(v, r) || (env.prepared.Some? && v.view.worker.page.At?))
    ensures var w, p := Submit(v, r, env).0, PinFor(v, r, env);
      var asked := v.calls + [Asked(r.step, p.alias, p.origin, p.context)];
      && (RefusedByTheBroker(r, env).Some? ==> w.calls == asked && w.fills == v.fills)
      && (RefusedByTheBroker(r, env).None? && RefusedByTheGrant(env, p.origin).Some? ==>
            && w.fills == v.fills
            && w.calls == asked + (if env.info.Some? then [Inspected(Decision(r, env).value.grant.value, env.info.value, env.infoAt)] else []))
  {
    GateAndPin(v, r, env);
    MayPin(v, r, env);
    PassesToLocked(v, r, env);
    var p, a := PinFor(v, r, env), Asking(v, r, env);
    AskTells(a, r, p, env);
    AskNotes(a, r, p, env);
    assert a.calls == v.calls && a.fills == v.fills;
    hide Submit, RefusedBeforeAsking, Ask, Inspect, Gate, Pin, RefusedByTheBroker, RefusedByTheGrant, Asking;
    if RefusedByTheBroker(r, env).None? {
      var b, grant := Ask(a, r, p, env).0, Decision(r, env).value.grant.value;
      InspectTells(b, p, grant, env);
      InspectNotes(b, p, grant, env);
    }
  }

  // ---------------------------------------------------------------- a form is filled

  /** The page stays where it is throughout the call. */
  predicate Undisturbed(env: Env) { env.askDrift == [] && env.infoDrift == [] && env.readDrift == [] && forall l <- env.lucks :: l.drift == [] }

  /** Nothing stands between a fitting grant and the filled form. */
  predicate Fillable(v: Vault, p: Pending, env: Env)
    requires |p.targets| <= |env.lucks|
  {
    && v.nonce == Some(p.nonce) && v.view.worker.page == At(p.origin) && env.verifies
    && env.readAt < v.view.idle && env.readAt < v.view.expires && !env.revokedBeforeRead
    && env.secret.Some? && (forall t <- p.targets :: t.kind in env.secret.value)
    && env.fillAt < v.view.idle && env.fillAt < v.view.expires && !env.revokedBeforeFill
    && (forall k | 0 <= k < |p.targets| :: env.lucks[k].takes)
  }

  /** The entries of a filled form, one for each target in order. */
  function Fills(v: Vault, r: Request, p: Pending, n: nat): seq<Call>
    requires n <= |p.targets|
  {
    if n == 0 then [] else Fills(v, r, p, n - 1) + [Placed(r.step, p.nonce, v.doc, p.origin, p.targets[n - 1].kind)]
  }

  lemma {:induction false} PlacesAll(v: Vault, r: Request, p: Pending, values: map<Kind, string>, lucks: seq<TargetLuck>, n: nat)
    requires n <= |p.targets| <= |lucks| && (forall l <- lucks :: l.drift == []) && (forall t <- p.targets :: t.kind in values)
    ensures var (w, ok) := PlaceAll(v, r, p, values, lucks, n);
      && (ok <==> StillPinned(v, p) && forall k | 0 <= k < n :: lucks[k].takes)
      && (ok ==> w == v.(calls := v.calls + Fills(v, r, p, n)))
    decreases n
  {
    if n > 0 {
      PlacesAll(v, r, p, values, lucks, n - 1);
      assert lucks[n - 1] in lucks && p.targets[n - 1] in p.targets;
    }
  }

  lemma FillTells(v: Vault, r: Request, p: Pending, values: map<Kind, string>, env: Env)
    requires |p.targets| <= |env.lucks| && Undisturbed(env) && !Terminal(v.view.state)
    ensures var (w, o) := Fill(v, r, p, values, env);
      && (o.FilledIn? <==>
            && (forall t <- p.targets :: t.kind in values) && env.fillAt < v.view.idle && env.fillAt < v.view.expires && !env.revokedBeforeFill
            && StillPinned(v, p) && forall k | 0 <= k < |p.targets| :: env.lucks[k].takes)
      && (o.FilledIn? ==> o == FilledIn(p.targets) && w == v.(calls := v.calls + Fills(v, r, p, |p.targets|)))
  {
    if forall t <- p.targets :: t.kind in values { PlacesAll(v, r, p, values, env.lucks, |p.targets|); }
    hide PlaceAll, Fills, StillPinned, Cleanup;
  }

  lemma ReadTells(v: Vault, r: Request, p: Pending, grant: Grant, env: Env)
    requires Undisturbed(env) && !Terminal(v.view.state)
    ensures var (w, values) := ReadGrant(v, r, p, grant, env);
      && (values.Go? <==>
            && v.nonce == Some(p.nonce) && v.view.worker.page == At(p.origin) && env.verifies
            && env.readAt < v.view.idle && env.readAt < v.view.expires && !env.revokedBeforeRead && env.secret.Some?)
      && (values.Go? ==>
            && values.value == env.secret.value
            && w == v.(fills := v.fills + 1, pending := v.pending - {r.step}, calls := v.calls + [ReadOut(r.step, grant, p.origin)]))
  {
    hide Cleanup;
  }

  lemma SpendTells(v: Vault, r: Request, p: Pending, grant: Grant, env: Env)
    requires |p.targets| <= |env.lucks| && Undisturbed(env) && !Terminal(v.view.state) && RefusedByTheGrant(env, p.origin).None?
    ensures env.info.Some?
    ensures var (w, o) := Spend(v, r, p, grant, env);
      && (o.FilledIn? <==> Fillable(v, p, env))
      && (o.FilledIn? ==>
            && o == FilledIn(p.targets)
            && w == v.(fills := v.fills + 1, pending := v.pending - {r.step},
                       calls := v.calls + [Inspected(grant, env.info.value, env.infoAt), ReadOut(r.step, grant, p.origin)] + Fills(v, r, p, |p.targets|)))
  {
    InspectTells(v, p, grant, env);
    assert Inspect(v, p, grant, env).0 == Note(v, Inspected(grant, env.info.value, env.infoAt));
    var v1 := Inspect(v, p, grant, env).0;
    ReadTells(v1, r, p, grant, env);
    var (v2, values) := ReadGrant(v1, r, p, grant, env);
    if values.Go? {
      FillTells(v2, r, p, values.value, env);
      SameFills(v, v2, r, p, |p.targets|);
    }
    hide Inspect, ReadGrant, Fill, Fills, RefusedByTheGrant, Undisturbed;
  }

  lemma {:induction false} SameFills(v: Vault, w: Vault, r: Request, p: Pending, n: nat)
    requires n <= |p.targets| && v.doc == w.doc
    ensures Fills(v, r, p, n) == Fills(w, r, p, n)
    decreases n
  {
    if n > 0 { SameFills(v, w, r, p, n - 1); }
  }

  /** A call on a page that stays where it is fills the form exactly if none of the checks refuses it and
      the document still is the pinned one, the deadlines and the kill-switch allow the read and the fill,
      and the secret has a value for every target. It then leaves one request, one inspection, one read and
      one value for each target, uses the grant up for the step and moves the idle deadline. */
  lemma FilledExactly(v: Vault, r: Request, env: Env)
    requires Answers(v, r, env) && Undisturbed(env)
    ensures Submit(v, r, env).1.FilledIn? <==>
      && RefusedBeforeAsking(v, r, env).None? && RefusedByTheBroker(r, env).None?
      && PinOrigin(v, r).Some? && RefusedByTheGrant(env, PinOrigin(v, r).value).None?
      && (Pinned(v, r) || (env.prepared.Some? && v.view.worker.page.At?))
      && Fillable(Asking(v, r, env), PinFor(v, r, env), env)
    ensures Submit(v, r, env).1.FilledIn? ==>
      && (Pinned(v, r) || (env.prepared.Some? && v.view.worker.page.At?))
      && Decision(r, env).Some? && Decision(r, env).value.grant.Some? && env.info.Some?
      && var w, p, grant := Submit(v, r, env).0, PinFor(v, r, env), Decision(r, env).value.grant.value;
      && Submit(v, r, env).1 == FilledIn(p.targets)
      && w.calls == v.calls + [Asked(r.step, p.alias, p.origin, p.context), Inspected(grant, env.info.value, env.infoAt), ReadOut(r.step, grant, p.origin)]
                    + Fills(v, r, p, |p.targets|)
      && w.fills == v.fills + 1 && w.pending == v.pending - {r.step}
      && w.view.idle == (if env.doneAt + 15 * 60 < v.view.expires then env.doneAt + 15 * 60 else v.view.expires)
  {
    FirstRefusal(v, r, env);
    if RefusedBeforeAsking(v, r, env).None? {
      GateAndPin(v, r, env);
      MayPin(v, r, env);
      PassesToLocked(v, r, env);
      AskingKeeps(v, r, env);
      var p, a := PinFor(v, r, env), Asking(v, r, env);
      AskTells(a, r, p, env);
      if RefusedByTheBroker(r, env).None? && RefusedByTheGrant(env, p.origin).None? {
        UndisturbedAsk(a, r, p, env);
        var b, grant := Ask(a, r, p, env).0, Decision(r, env).value.grant.value;
        SpendTells(b, r, p, grant, env);
        SameFills(v, b, r, p, |p.targets|);
        hide Submit, RefusedBeforeAsking, Ask, Spend, Gate, Pin, RefusedByTheBroker, RefusedByTheGrant, Asking, Fills, Undisturbed, Answers;
      } else {
        hide *;
        RefusedOutcomes(v, r, env);
      }
    } else {
      hide *;
      RefusedOutcomes(v, r, env);
    }
  }

  lemma AskingKeeps(v: Vault, r: Request, env: Env)
    requires Answers(v, r, env) && RefusedBeforeAsking(v, r, env).None? && (Pinned(v, r) || (env.prepared.Some? && v.view.worker.page.At?))
    ensures var a := Asking(v, r, env);
      && a.view == v.view && a.doc == v.doc && a.calls == v.calls && a.fills == v.fills && a.pending - {r.step} == v.pending - {r.step}
      && !Terminal(v.view.state) && |PinFor(v, r, env).targets| <= |env.lucks|
  {}

  lemma UndisturbedAsk(a: Vault, r: Request, p: Pending, env: Env)
    requires Undisturbed(env)
    ensures Ask(a, r, p, env).0 == Note(a, Asked(r.step, p.alias, p.origin, p.context))
  {}

  lemma RefusedOutcomes(v: Vault, r: Request, env: Env)
    ensures RefusedBeforeAsking(v, r, env).Some? ==> !RefusedBeforeAsking(v, r, env).value.FilledIn?
    ensures RefusedByTheBroker(r, env).Some? ==> !RefusedByTheBroker(r, env).value.FilledIn?
    ensures forall o :: RefusedByTheGrant(env, o).Some? ==> !RefusedByTheGrant(env, o).value.FilledIn?
  {}

  /** A report is taken exactly from an agent that holds the lease in time; a bad password is latched, and
      from then on every call of the session that gets past the name asked for answers so. */
  lemma ReportTells(v: Vault, now: int, badPassword: bool)
    ensures var (w, reply) := Report(v, now, badPassword);
      && (reply == Done <==> AgentState(v.view.state) && v.view.owner == ByAgent && now < v.view.idle && now < v.view.expires)
      && (reply == Done && badPassword ==> w == v.(bad := true, calls := v.calls + [Latched]))
      && (reply != Done || !badPassword ==> w == v)
  {}
}
