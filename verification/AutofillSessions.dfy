/** Every run with autofill calls is a run of the session: each call is one operation of it. What holds
    over the session's runs therefore holds with autofill calls in between. */
module AutofillSessions {
  import opened Tombstones
  import opened CookieScope
  import opened JarEnvelope
  import opened JarStore
  import opened Leases
  import opened Sessions
  import opened Autofill
  import AutofillRuns
  import SessionRuns
  import KillSwitch
  import JarRuns
  import JarGuarantees

  // ---------------------------------------------------------------- one call as one operation

  function Driving(s: View, ps: seq<Page>): View { s.(worker := DriveAll(s.worker, ps)) }

  ghost predicate Driven(s: View, t: View) { exists ps: seq<Page> :: t == Driving(s, ps) }

  /** The page moved, and then perhaps a revocation tore the session down. */
  ghost predicate Turned(s: View, t: View) {
    Driven(s, t) || exists ps: seq<Page> :: t == Enforce(Driving(s, ps), true).0
  }

  lemma {:induction false} DrivesJoin(w: WorkerView, a: seq<Page>, b: seq<Page>)
    ensures DriveAll(DriveAll(w, a), b) == DriveAll(w, a + b)
    decreases |b|
  {
    if b == [] {
      assert a + b == a;
    } else {
      assert (a + b)[..|a + b| - 1] == a + b[..|b| - 1];
      DrivesJoin(w, a, b[..|b| - 1]);
    }
  }

  lemma StandingStill(s: View)
    ensures Driven(s, s)
  {
    assert s == Driving(s, []);
  }

  lemma DrivenOn(s: View, t: View, u: View)
    requires Driven(s, t)
    ensures Driven(t, u) ==> Driven(s, u)
    ensures Turned(t, u) ==> Turned(s, u)
  {
    var a: seq<Page> :| t == Driving(s, a);
    if Driven(t, u) {
      var b: seq<Page> :| u == Driving(t, b);
      DrivesJoin(s.worker, a, b);
      assert u == Driving(s, a + b);
    } else if Turned(t, u) {
      var b: seq<Page> :| u == Enforce(Driving(t, b), true).0;
      DrivesJoin(s.worker, a, b);
      assert Driving(t, b) == Driving(s, a + b);
    }
  }

  lemma {:induction false} DriftDrives(v: Vault, ps: seq<Page>)
    ensures Driven(v.view, Drift(v, ps).view)
    decreases |ps|
  {
    DriftIsDriving(v, ps);
  }

  lemma {:induction false} DriftIsDriving(v: Vault, ps: seq<Page>)
    ensures Drift(v, ps).view == Driving(v.view, ps)
    decreases |ps|
  {
    if ps != [] { DriftIsDriving(v, ps[..|ps| - 1]); }
  }

  lemma AskDrives(v: Vault, r: Request, p: Pending, env: Env)
    ensures Driven(v.view, Ask(v, r, p, env).0.view)
  {
    hide Drift, Driven;
    DriftDrives(Note(v, Asked(r.step, p.alias, p.origin, p.context)), env.askDrift);
  }

  lemma InspectDrives(v: Vault, p: Pending, grant: Grant, env: Env)
    ensures Driven(v.view, Inspect(v, p, grant, env).0.view)
  {
    hide Drift, Driven, Usable;
    DriftDrives(v, env.infoDrift);
  }

  lemma ReadDrives(v: Vault, r: Request, p: Pending, grant: Grant, env: Env)
    requires !Terminal(v.view.state)
    ensures var (w, values) := ReadGrant(v, r, p, grant, env);
      if values.Stop? && values.outcome.Raised? then Turned(v.view, w.view) else Driven(v.view, w.view)
  {
    hide Drift, Driven, ExpiredAt, Cleanup;
    DriftDrives(v, env.readDrift);
    StandingStill(v.view);
    assert v.view == Driving(v.view, []);
  }

  lemma {:induction false} PlacingDrives(v: Vault, r: Request, p: Pending, values: map<Kind, string>, lucks: seq<TargetLuck>, n: nat)
    requires n <= |p.targets| <= |lucks|
    ensures Driven(v.view, PlaceAll(v, r, p, values, lucks, n).0.view)
    decreases n
  {
    hide Drift, Driven;
    StandingStill(v.view);
    if n > 0 {
      PlacingDrives(v, r, p, values, lucks, n - 1);
      var v1 := PlaceAll(v, r, p, values, lucks, n - 1).0;
      DriftDrives(v1, lucks[n - 1].drift);
      DrivenOn(v.view, v1.view, Drift(v1, lucks[n - 1].drift).view);
    }
  }

  lemma FillDrives(v: Vault, r: Request, p: Pending, values: map<Kind, string>, env: Env)
    requires |p.targets| <= |env.lucks| && !Terminal(v.view.state)
    ensures var (w, o) := Fill(v, r, p, values, env);
      if o.Raised? then Turned(v.view, w.view) else Driven(v.view, w.view)
  {
    hide PlaceAll, Driven, ExpiredAt, Cleanup;
    PlacingDrives(v, r, p, values, env.lucks, |p.targets|);
    StandingStill(v.view);
    assert v.view == Driving(v.view, []);
  }

  ghost predicate TurnsAs(s: View, t: View, raised: bool) { if raised then Turned(s, t) else Driven(s, t) }

  lemma TurnsOn(s: View, t: View, u: View, raised: bool)
    requires Driven(s, t) && TurnsAs(t, u, raised)
    ensures TurnsAs(s, u, raised)
  {
    DrivenOn(s, t, u);
  }

  lemma DrivenTurns(s: View, t: View)
    requires Driven(s, t)
    ensures TurnsAs(s, t, true) && TurnsAs(s, t, false) && t == s.(worker := t.worker)
  {}

  lemma SpendTurns(v: Vault, r: Request, p: Pending, grant: Grant, env: Env)
    requires |p.targets| <= |env.lucks| && !Terminal(v.view.state)
    ensures var (w, o) := Spend(v, r, p, grant, env); TurnsAs(v.view, w.view, o.Raised?)
  {
    InspectDrives(v, p, grant, env);
    var (v1, fit) := Inspect(v, p, grant, env);
    DrivenTurns(v.view, v1.view);
    if fit.Go? {
      ReadDrives(v1, r, p, grant, env);
      var (v2, values) := ReadGrant(v1, r, p, grant, env);
      hide Inspect, ReadGrant, Fill, Driven, Turned;
      if values.Go? {
        DrivenTurns(v1.view, v2.view);
        FillDrives(v2, r, p, values.value, env);
        var (v3, o) := Fill(v2, r, p, values.value, env);
        DrivenOn(v.view, v1.view, v2.view);
        TurnsOn(v.view, v2.view, v3.view, o.Raised?);
      } else {
        TurnsOn(v.view, v1.view, v2.view, values.outcome.Raised?);
      }
    }
  }

  lemma PinKeepsView(v: Vault, r: Request, alias: string, env: Env)
    requires Answers(v, r, env)
    ensures var (w, p) := Pin(v, r, alias, env); w.view == v.view && (p.Go? ==> |p.value.targets| <= |env.lucks|)
  {}

  lemma LockedTurns(v: Vault, r: Request, env: Env)
    requires Answers(v, r, env) && !Terminal(v.view.state)
    ensures var (w, o) := Locked(v, r, env); TurnsAs(v.view, w.view, o.Raised?)
  {
    hide Pin, Ask, Spend, Answers, Driven, Turned, TurnsAs;
    StandingStill(v.view);
    DrivenTurns(v.view, v.view);
    var alias := Gate(v, r);
    if alias.Go? {
      PinKeepsView(v, r, alias.value, env);
      var (v1, p) := Pin(v, r, alias.value, env);
      if p.Go? {
        AskDrives(v1, r, p.value, env);
        var (v2, grant) := Ask(v1, r, p.value, env);
        DrivenTurns(v1.view, v2.view);
        if grant.Go? {
          SpendTurns(v2, r, p.value, grant.value, env);
          var (v3, o) := Spend(v2, r, p.value, grant.value, env);
          TurnsOn(v.view, v2.view, v3.view, o.Raised?);
        }
      }
    }
  }

  /** An autofill call does to the session what one operation of it does. */
  ghost predicate IsTurn(v: Vault, r: Request, env: Env, drift: seq<Page>, late: bool, doneAt: Option<int>)
    requires Answers(v, r, env)
  {
    Submit(v, r, env).0.view == AutofillTurn(v.view, env.now, env.revoked, drift, late, doneAt).0
  }

  lemma SubmitIsOneTurn(v: Vault, r: Request, env: Env)
    requires Answers(v, r, env)
    ensures exists drift, late, doneAt :: IsTurn(v, r, env, drift, late, doneAt)
  {
    if ExpiredAt(v.view, env.now) || Terminal(v.view.state) || !AgentHolds(v.view) || Enforce(v.view, env.revoked).1 {
      RefusedTurn(v, r, env);
    } else {
      LockedTurns(v, r, env);
      var (w, o) := Locked(v, r, env);
      if !o.Raised? {
        var ps: seq<Page> :| w.view == Driving(v.view, ps);
        AnsweredTurn(v, r, env, ps);
      } else if Driven(v.view, w.view) {
        var ps: seq<Page> :| w.view == Driving(v.view, ps);
        RaisedTurn(v, r, env, ps, false);
      } else {
        var ps: seq<Page> :| w.view == Enforce(Driving(v.view, ps), true).0;
        RaisedTurn(v, r, env, ps, true);
      }
    }
  }

  predicate GetsIn(v: Vault, env: Env) {
    !ExpiredAt(v.view, env.now) && !Terminal(v.view.state) && AgentHolds(v.view) && !Enforce(v.view, env.revoked).1
  }

  lemma RefusedTurn(v: Vault, r: Request, env: Env)
    requires Answers(v, r, env) && !GetsIn(v, env)
    ensures IsTurn(v, r, env, [], false, None)
  {
    hide Locked, ExpiredAt, Cleanup;
  }

  lemma AnsweredTurn(v: Vault, r: Request, env: Env, ps: seq<Page>)
    requires Answers(v, r, env) && GetsIn(v, env) && !Locked(v, r, env).1.Raised? && Locked(v, r, env).0.view == Driving(v.view, ps)
    ensures IsTurn(v, r, env, ps, false, Some(env.doneAt))
  {
    hide Locked, ExpiredAt, Cleanup, DriveAll;
  }

  lemma RaisedTurn(v: Vault, r: Request, env: Env, ps: seq<Page>, late: bool)
    requires Answers(v, r, env) && GetsIn(v, env) && Locked(v, r, env).1.Raised?
    requires Locked(v, r, env).0.view == if late then Enforce(Driving(v.view, ps), true).0 else Driving(v.view, ps)
    ensures IsTurn(v, r, env, ps, late, None)
  {
    hide Locked, ExpiredAt, Cleanup, DriveAll;
  }

  // ---------------------------------------------------------------- a run as a run of the session

  /** The session operation that stands for `op`. */
  ghost predicate Fits(v: Vault, op: AutofillRuns.VaultOp, e: SessionRuns.Event) {
    && AutofillRuns.Enabled(v, op) && SessionRuns.Enabled(v.view, e)
    && AutofillRuns.VaultStep(v, op).view == SessionRuns.Step(v.view, e).0
    && match op
       case DoSubmit(r, env) => e.now == env.now && e.op.AutofillIt? && e.op.revoked == env.revoked
       case DoReport(_, _) => e.op.ExtendIt?
       case Other(other) => e == other
  }

  lemma {:induction false} BoundedTokens(ts: set<TokenId>) returns (bound: nat)
    ensures forall t <- ts :: t < bound
    decreases |ts|
  {
    if ts == {} {
      bound := 0;
    } else {
      var t :| t in ts;
      var b := BoundedTokens(ts - {t});
      bound := if b > t then b else t + 1;
      forall u <- ts ensures u < bound { if u != t { assert u in ts - {t}; } }
    }
  }

  lemma EveryStepFits(v: Vault, op: AutofillRuns.VaultOp)
    requires AutofillRuns.Enabled(v, op)
    ensures exists e :: Fits(v, op, e)
  {
    var mint := BoundedTokens(v.view.tokens.Keys);
    assert mint !in v.view.tokens;
    match op {
      case DoSubmit(r, env) =>
        SubmitIsOneTurn(v, r, env);
        var drift, late, doneAt :| IsTurn(v, r, env, drift, late, doneAt);
        hide Submit, AutofillTurn, Answers;
        assert Fits(v, op, SessionRuns.Event(env.now, mint, SessionRuns.AutofillIt(env.revoked, drift, late, doneAt)));
      case DoReport(now, bad) =>
        hide ExpiredAt;
        assert Fits(v, op, SessionRuns.Event(now, mint, SessionRuns.ExtendIt(mint, 0)));
      case Other(e) =>
        hide SessionRuns.Step, AutofillRuns.Navigates;
        assert Fits(v, op, e);
    }
  }

  function Views(vs: seq<Vault>): (ss: seq<View>)
    ensures |ss| == |vs| && forall i | 0 <= i < |vs| :: ss[i] == vs[i].view
  {
    if vs == [] then [] else Views(vs[..|vs| - 1]) + [vs[|vs| - 1].view]
  }

  ghost predicate AllFit(vs: seq<Vault>, ops: seq<AutofillRuns.VaultOp>, es: seq<SessionRuns.Event>) {
    |es| <= |ops| < |vs| && forall i | 0 <= i < |es| :: Fits(vs[i], ops[i], es[i])
  }

  lemma {:induction false} EveryPrefixFits(vs: seq<Vault>, ops: seq<AutofillRuns.VaultOp>, n: nat) returns (es: seq<SessionRuns.Event>)
    requires AutofillRuns.Run(vs, ops) && n <= |ops|
    ensures |es| == n && AllFit(vs, ops, es)
    decreases n
  {
    if n == 0 {
      es := [];
    } else {
      var front := EveryPrefixFits(vs, ops, n - 1);
      assert AutofillRuns.Follows(vs, ops, n - 1);
      EveryStepFits(vs[n - 1], ops[n - 1]);
      hide Fits, AutofillRuns.Run, AutofillRuns.Follows;
      var e :| Fits(vs[n - 1], ops[n - 1], e);
      es := front + [e];
    }
  }

  ghost predicate Projects(vs: seq<Vault>, ops: seq<AutofillRuns.VaultOp>, es: seq<SessionRuns.Event>) {
    |es| == |ops| && AllFit(vs, ops, es) && SessionRuns.Run(Views(vs), es)
  }

  lemma VaultRunIsSessionRun(vs: seq<Vault>, ops: seq<AutofillRuns.VaultOp>)
    requires AutofillRuns.Run(vs, ops)
    ensures exists es :: Projects(vs, ops, es)
  {
    var es := EveryPrefixFits(vs, ops, |ops|);
    hide SessionRuns.Step, SessionRuns.Enabled, AutofillRuns.VaultStep, AutofillRuns.Enabled, SessionRuns.Born;
    forall i | 0 <= i < |es| ensures SessionRuns.Follows(Views(vs), es, i) {
      assert AutofillRuns.Follows(vs, ops, i);
      assert Fits(vs[i], ops[i], es[i]);
    }
    assert Projects(vs, ops, es);
  }

  // ---------------------------------------------------------------- what carries over

  /** The invariant of the session's runs holds with autofill calls in between. */
  lemma VaultKeepsInv(vs: seq<Vault>, ops: seq<AutofillRuns.VaultOp>, i: nat)
    requires AutofillRuns.Run(vs, ops) && i < |vs|
    ensures SessionRuns.Inv(vs[i].view, false)
  {
    VaultRunIsSessionRun(vs, ops);
    hide AutofillRuns.Run, SessionRuns.Run, SessionRuns.Inv, AllFit;
    var es :| Projects(vs, ops, es);
    SessionRuns.RunKeepsInv(Views(vs), es, i, false);
  }

  /** Through any autofill calls, whatever the page does meanwhile, an agent that holds the lease of a
      confined session is confined. */
  lemma AgentIsConfinedThroughout(vs: seq<Vault>, ops: seq<AutofillRuns.VaultOp>, i: nat)
    requires AutofillRuns.Run(vs, ops) && i < |vs| && AgentHolds(vs[i].view) && vs[i].view.site.confine
    ensures var s := vs[i].view;
      && s.worker.guard && s.worker.confine == s.confineOrigins
      && (s.confineOrigins != [] ==> SessionRuns.Inside(s.worker.page, s.confineOrigins))
      && (s.site.authenticated && s.site.jarId.None? ==> s.confineOrigins != [])
  {
    VaultRunIsSessionRun(vs, ops);
    hide AutofillRuns.Run, SessionRuns.Run, AllFit;
    var es :| Projects(vs, ops, es);
    SessionRuns.AgentIsConfined(Views(vs), es, i);
  }

  lemma SilentWithoutLease(v: Vault, op: AutofillRuns.VaultOp)
    requires AutofillRuns.Enabled(v, op) && !AgentHolds(v.view)
    ensures AutofillRuns.VaultStep(v, op).calls == v.calls
  {
    hide SessionRuns.Step, AutofillRuns.Navigates, Locked, Answers;
  }

  lemma RunStep(vs: seq<Vault>, ops: seq<AutofillRuns.VaultOp>, i: nat)
    requires AutofillRuns.Run(vs, ops) && i < |ops|
    ensures |vs| == |ops| + 1 && AutofillRuns.Enabled(vs[i], ops[i]) && vs[i + 1] == AutofillRuns.VaultStep(vs[i], ops[i])
  {
    assert AutofillRuns.Follows(vs, ops, i);
  }

  lemma ShutDoorsOfTheView(vs: seq<Vault>, ops: seq<AutofillRuns.VaultOp>, i: nat, j: nat)
    requires AutofillRuns.Run(vs, ops) && i <= j < |vs| && SessionRuns.DoorShut(vs[i].view)
    ensures SessionRuns.DoorShut(vs[j].view) && !AgentHolds(vs[j].view)
    ensures vs[i].view.log <= vs[j].view.log && SessionRuns.NoAgentFrom(vs[j].view.log, |vs[i].view.log|)
  {
    VaultRunIsSessionRun(vs, ops);
    hide AutofillRuns.Run, SessionRuns.Run, AllFit, SessionRuns.DoorShut, SessionRuns.NoAgentFrom, AgentHolds;
    var es :| Projects(vs, ops, es);
    SessionRuns.ShutDoorsStayShut(Views(vs), es, i, j);
  }

  /** Behind a door that has shut, for good, no agent command reaches the worker, and the broker is asked
      nothing and no credential read or placed. */
  lemma {:induction false} ShutDoorsStayShutThroughout(vs: seq<Vault>, ops: seq<AutofillRuns.VaultOp>, i: nat, j: nat)
    requires |vs| == |ops| + 1 && AutofillRuns.Run(vs, ops) && i <= j < |vs| && SessionRuns.DoorShut(vs[i].view)
    ensures SessionRuns.DoorShut(vs[j].view) && !AgentHolds(vs[j].view)
    ensures vs[i].view.log <= vs[j].view.log && SessionRuns.NoAgentFrom(vs[j].view.log, |vs[i].view.log|)
    ensures vs[j].calls == vs[i].calls
    decreases j - i
  {
    hide *;
    ShutDoorsOfTheView(vs, ops, i, j);
    if i < j {
      ShutDoorsStayShutThroughout(vs, ops, i, j - 1);
      RunStep(vs, ops, j - 1);
      SilentWithoutLease(vs[j - 1], ops[j - 1]);
    }
  }

  // ---------------------------------------------------------------- the kill-switch

  /** What each operation read off the directory `d` at its start. */
  ghost predicate HonestOp(c: Config, d: Disk, v: Vault, op: AutofillRuns.VaultOp) {
    match op
    case DoSubmit(_, env) => env.revoked == RevokedFor(c, d, v.view)
    case DoReport(_, _) => true
    case Other(e) => KillSwitch.Honest(c, d, v.view, e.op)
  }

  ghost predicate Beside(c: Config, ws: seq<JarRuns.World>, steps: seq<JarRuns.Step>, vs: seq<Vault>, ops: seq<AutofillRuns.VaultOp>, at: seq<nat>) {
    && JarRuns.Run(c, ws, steps) && AutofillRuns.Run(vs, ops) && |at| == |ops| < |vs|
    && (forall k | 0 <= k < |at| :: at[k] < |ws| && HonestOp(c, ws[at[k]].disk, vs[k], ops[k]))
    && (forall k, l | 0 <= k < l < |at| :: at[k] <= at[l])
  }

  lemma SessionBeside(c: Config, ws: seq<JarRuns.World>, steps: seq<JarRuns.Step>, vs: seq<Vault>, ops: seq<AutofillRuns.VaultOp>, at: seq<nat>,
                      es: seq<SessionRuns.Event>)
    requires Beside(c, ws, steps, vs, ops, at) && Projects(vs, ops, es)
    ensures KillSwitch.Beside(c, ws, steps, Views(vs), es, at)
  {
    hide JarRuns.Run, AutofillRuns.Run, SessionRuns.Run, RevokedFor, AutofillRuns.VaultStep, AutofillRuns.Enabled, SessionRuns.Step, SessionRuns.Enabled;
    forall k | 0 <= k < |at| ensures KillSwitch.Honest(c, ws[at[k]].disk, Views(vs)[k], es[k].op) {
      assert Fits(vs[k], ops[k], es[k]);
      assert HonestOp(c, ws[at[k]].disk, vs[k], ops[k]);
    }
  }

  /** Nothing but a report of a bad password was added. */
  ghost predicate OnlyReports(calls: seq<Call>, n: nat) { forall k | n <= k < |calls| :: calls[k].Latched? }

  lemma RevokedStepIsSilent(v: Vault, op: AutofillRuns.VaultOp)
    requires AutofillRuns.Enabled(v, op) && (op.DoSubmit? ==> op.env.revoked)
    ensures v.calls <= AutofillRuns.VaultStep(v, op).calls && OnlyReports(AutofillRuns.VaultStep(v, op).calls, |v.calls|)
  {
    hide SessionRuns.Step, AutofillRuns.Navigates, Locked, Answers, ExpiredAt;
  }

  lemma HonestAt(c: Config, ws: seq<JarRuns.World>, steps: seq<JarRuns.Step>, vs: seq<Vault>, ops: seq<AutofillRuns.VaultOp>, at: seq<nat>, k: nat, n: nat)
    requires Beside(c, ws, steps, vs, ops, at) && k <= n < |ops|
    ensures |at| == |ops| < |vs| && at[n] < |ws| && at[k] <= at[n]
    ensures JarRuns.Run(c, ws, steps) && AutofillRuns.Run(vs, ops)
    ensures ops[n].DoSubmit? ==> ops[n].env.revoked == RevokedFor(c, ws[at[n]].disk, vs[n].view)
  {
    hide JarRuns.Run, AutofillRuns.Run, RevokedFor;
    assert HonestOp(c, ws[at[n]].disk, vs[n], ops[n]);
  }

  lemma SubmitReaches(v: Vault, op: AutofillRuns.VaultOp, e: SessionRuns.Event)
    requires Fits(v, op, e) && op.DoSubmit? && AgentHolds(v.view) && !ExpiredAt(v.view, op.env.now)
    ensures KillSwitch.Reaches(v.view, e) && !Terminal(v.view.state)
  {
    hide AutofillRuns.VaultStep, AutofillRuns.Enabled, SessionRuns.Step, SessionRuns.Enabled, ExpiredAt;
  }

  lemma FitOf(vs: seq<Vault>, ops: seq<AutofillRuns.VaultOp>, es: seq<SessionRuns.Event>, n: nat)
    requires Projects(vs, ops, es) && n < |ops|
    ensures |es| == |ops| < |vs| && Fits(vs[n], ops[n], es[n])
  {
    hide SessionRuns.Run, Fits;
  }

  lemma RevocationReachesTheView(
    c: Config, ws: seq<JarRuns.World>, steps: seq<JarRuns.Step>, vs: seq<Vault>, ops: seq<AutofillRuns.VaultOp>, at: seq<nat>,
    i: nat, id: JarId, g: int, k: nat, n: nat)
    requires |at| == |ops| && |vs| == |ops| + 1 && Beside(c, ws, steps, vs, ops, at) && c.keys != []
    requires i < |ws| && JarGuarantees.Secured(ws[i], id, g)
    requires k <= n < |ops| && i <= at[k] && KillSwitch.Holds(vs[k].view, id, g)
    ensures KillSwitch.Silenced(vs[k].view, vs[n + 1].view) && KillSwitch.Holds(vs[n + 1].view, id, g)
    ensures ops[n].DoSubmit? && AgentHolds(vs[n].view) && !ExpiredAt(vs[n].view, ops[n].env.now) ==> KillSwitch.TornDown(vs[n + 1].view)
  {
    hide *;
    HonestAt(c, ws, steps, vs, ops, at, k, n);
    VaultRunIsSessionRun(vs, ops);
    var es :| Projects(vs, ops, es);
    SessionBeside(c, ws, steps, vs, ops, at, es);
    FitOf(vs, ops, es, n);
    KillSwitch.RevocationReachesTheSession(c, ws, steps, Views(vs), es, at, i, id, g, k, n);
    if ops[n].DoSubmit? && AgentHolds(vs[n].view) && !ExpiredAt(vs[n].view, ops[n].env.now) { SubmitReaches(vs[n], ops[n], es[n]); }
  }

  lemma ReportsJoin(a: seq<Call>, b: seq<Call>, calls: seq<Call>)
    requires a <= b <= calls && OnlyReports(b, |a|) && OnlyReports(calls, |b|)
    ensures a <= calls && OnlyReports(calls, |a|)
  {}

  /** From a durable tombstone on, in every session that holds the jar at that generation or below, no
      autofill call asks the broker for anything or reads or places a credential, neither agent nor human
      reaches the worker, and the first call that gets to the check leaves the session torn down. */
  lemma {:induction false} RevocationReachesTheVault(
    c: Config, ws: seq<JarRuns.World>, steps: seq<JarRuns.Step>, vs: seq<Vault>, ops: seq<AutofillRuns.VaultOp>, at: seq<nat>,
    i: nat, id: JarId, g: int, k: nat, n: nat)
    requires |at| == |ops| && |vs| == |ops| + 1 && Beside(c, ws, steps, vs, ops, at) && c.keys != []
    requires i < |ws| && JarGuarantees.Secured(ws[i], id, g)
    requires k <= n < |ops| && i <= at[k] && KillSwitch.Holds(vs[k].view, id, g)
    ensures vs[k].calls <= vs[n + 1].calls && OnlyReports(vs[n + 1].calls, |vs[k].calls|)
    ensures KillSwitch.Silenced(vs[k].view, vs[n + 1].view) && KillSwitch.Holds(vs[n + 1].view, id, g)
    ensures ops[n].DoSubmit? && AgentHolds(vs[n].view) && !ExpiredAt(vs[n].view, ops[n].env.now) ==> KillSwitch.TornDown(vs[n + 1].view)
    decreases n
  {
    hide *;
    RevocationReachesTheView(c, ws, steps, vs, ops, at, i, id, g, k, n);
    HonestAt(c, ws, steps, vs, ops, at, k, n);
    RunStep(vs, ops, n);
    if k < n { RevocationReachesTheVault(c, ws, steps, vs, ops, at, i, id, g, k, n - 1); }
    KillSwitch.HeldIsRevoked(c, ws, steps, i, at[n], id, g, vs[n].view);
    RevokedStepIsSilent(vs[n], ops[n]);
    if k < n { ReportsJoin(vs[k].calls, vs[n].calls, vs[n + 1].calls); }
  }
}
