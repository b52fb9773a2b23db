/** The ledger of credential releases over whole runs: autofill calls and bad-password reports between
    any other operations of the session, any answers of the broker, any navigations of the page. */
module AutofillRuns {
  import opened Tombstones
  import opened CookieScope
  import opened JarEnvelope
  import opened JarStore
  import opened Leases
  import opened Sessions
  import opened Autofill
  import SessionRuns
  import KillSwitch
  import JarRuns
  import JarGuarantees

  datatype VaultOp = DoSubmit(r: Request, env: Env) | DoReport(now: int, badPassword: bool) | Other(e: SessionRuns.Event)

  /** Whether another session operation brings the page a new document. */
  predicate Navigates(s: View, e: SessionRuns.Event) {
    match e.op
    case AgentInput(Navigate(p, fails), _) => SessionRuns.Step(s, e).1 == Done && !fails && !OffScope(s.worker, p)
    case HumanInput(_, _, Some(p)) => SessionRuns.Step(s, e).1 == Done && !OffScope(s.worker, p)
    case PageMoves(p) => !OffScope(s.worker, p)
    case HandOver(_, landed, fails) =>
      SessionRuns.Step(s, e).0.log != s.log && SessionRuns.Step(s, e).0.log[|SessionRuns.Step(s, e).0.log| - 1] == Reopened
      && !fails && !OffScope(s.worker, landed)
    case _ => false
  }

  /** Another session operation: a navigation takes the nonce with the old document, closing or blanking
      the page leaves the worker's nonce behind. */
  function Carry(v: Vault, e: SessionRuns.Event): Vault {
    var view := SessionRuns.Step(v.view, e).0;
    if Navigates(v.view, e) then v.(view := view, nonce := None, doc := v.doc + 1)
    else if view.worker.page != v.view.worker.page then v.(view := view, doc := v.doc + 1)
    else v.(view := view)
  }

  predicate Enabled(v: Vault, op: VaultOp) {
    match op
    case DoSubmit(r, env) => Answers(v, r, env)
    case DoReport(_, _) => true
    case Other(e) => SessionRuns.Enabled(v.view, e) && !e.op.AutofillIt?
  }

  function VaultStep(v: Vault, op: VaultOp): Vault
    requires Enabled(v, op)
  {
    match op
    case DoSubmit(r, env) => Submit(v, r, env).0
    case DoReport(now, bad) => Report(v, now, bad).0
    case Other(e) => Carry(v, e)
  }

  ghost predicate Run(vs: seq<Vault>, ops: seq<VaultOp>) {
    && |vs| == |ops| + 1
    && SessionRuns.Born(vs[0].view) && vs[0] == Vault(vs[0].view, vs[0].alias, 0, false, map[], None, 0, map[], [])
    && forall i | 0 <= i < |ops| :: Follows(vs, ops, i)
  }

  ghost predicate Follows(vs: seq<Vault>, ops: seq<VaultOp>, i: nat)
    requires i < |ops| < |vs|
  {
    Enabled(vs[i], ops[i]) && vs[i + 1] == VaultStep(vs[i], ops[i])
  }

  // ---------------------------------------------------------------- the ledger

  function Reads(calls: seq<Call>): nat {
    if calls == [] then 0 else Reads(calls[..|calls| - 1]) + (if calls[|calls| - 1].ReadOut? then 1 else 0)
  }

  /** The requests made for `step` since its last read. */
  function OpenAsks(calls: seq<Call>, step: StepKey): set<Call> {
    if calls == [] then {}
    else
      NextOpen(OpenAsks(calls[..|calls| - 1], step), calls[|calls| - 1], step)
  }

  function NextOpen(open: set<Call>, c: Call, step: StepKey): set<Call> {
    if c.ReadOut? && c.step == step then {} else if c.Asked? && c.step == step then open + {c} else open
  }

  function TheAsk(step: StepKey, p: Pending): Call { Asked(step, p.alias, p.origin, p.context) }

  ghost predicate OneAskPerStep(v: Vault) {
    forall step :: OpenAsks(v.calls, step) <= if step in v.pending then {TheAsk(step, v.pending[step])} else {}
  }

  /** A read comes right after the request for its step and the inspection of a usable grant that covers
      its origin. */
  predicate ReadOk(calls: seq<Call>, k: nat)
    requires k < |calls|
  {
    calls[k].ReadOut? ==>
      && k >= 2 && calls[k].origin.scheme == Https
      && calls[k - 1].Inspected? && calls[k - 1].grant == calls[k].grant
      && Usable(calls[k - 1].info, calls[k - 1].at) && Covers(calls[k - 1].info, calls[k].origin)
      && calls[k - 2].Asked? && calls[k - 2].step == calls[k].step && calls[k - 2].origin == calls[k].origin
  }

  /** A value is placed in the document its step is pinned to, straight after its read or its siblings. */
  predicate PlacedOk(calls: seq<Call>, pins: map<Nonce, nat>, k: nat)
    requires k < |calls|
  {
    calls[k].Placed? ==>
      && k >= 1 && calls[k].nonce in pins && pins[calls[k].nonce] == calls[k].doc
      && (|| (calls[k - 1].ReadOut? && calls[k - 1].step == calls[k].step && calls[k - 1].origin == calls[k].origin)
          || (calls[k - 1].Placed? && calls[k - 1].step == calls[k].step && calls[k - 1].origin == calls[k].origin
              && calls[k - 1].nonce == calls[k].nonce && calls[k - 1].doc == calls[k].doc))
  }

  predicate LatchOk(calls: seq<Call>, k: nat)
    requires k < |calls|
  {
    k > 0 && calls[k - 1].Latched? ==> calls[k].Latched?
  }

  /** A request repeats the ones made for its step since the last read. */
  predicate AskOk(calls: seq<Call>, k: nat)
    requires k < |calls|
  {
    calls[k].Asked? ==> OpenAsks(calls[..k], calls[k].step) <= {calls[k]}
  }

  predicate PinsOk(v: Vault) {
    && (v.nonce.Some? ==> v.nonce.value in v.pins && (v.view.worker.page.At? ==> v.pins[v.nonce.value] == v.doc))
    && (forall step <- v.pending :: v.pending[step].nonce in v.pins && v.pending[step].origin.scheme == Https)
  }

  ghost predicate LedgerOk(calls: seq<Call>, pins: map<Nonce, nat>) {
    forall k | 0 <= k < |calls| :: ReadOk(calls, k) && PlacedOk(calls, pins, k) && LatchOk(calls, k) && AskOk(calls, k)
  }

  ghost predicate Inv(v: Vault) {
    && v.fills == Reads(v.calls) && v.fills <= AUTOFILL_FILL_CAP
    && (v.bad <==> v.calls != [] && v.calls[|v.calls| - 1].Latched?)
    && LedgerOk(v.calls, v.pins)
    && OneAskPerStep(v)
    && PinsOk(v)
  }

  // ---------------------------------------------------------------- page moves

  lemma {:induction false} DriftOnlyMoves(v: Vault, ps: seq<Page>)
    ensures var d := Drift(v, ps);
      && d == v.(view := d.view, nonce := d.nonce, doc := d.doc) && (PinsOk(v) ==> PinsOk(d))
      && d.view == v.view.(worker := v.view.worker.(page := d.view.worker.page))
    decreases |ps|
  {
    if ps != [] { DriftOnlyMoves(v, ps[..|ps| - 1]); }
  }

  lemma NoteCounts(calls: seq<Call>, c: Call)
    ensures Reads(calls + [c]) == Reads(calls) + (if c.ReadOut? then 1 else 0)
    ensures forall step :: OpenAsks(calls + [c], step) == NextOpen(OpenAsks(calls, step), c, step)
  {
    var l := calls + [c];
    assert l[..|l| - 1] == calls;
  }

  lemma NoteKeeps(calls: seq<Call>, pins: map<Nonce, nat>, c: Call)
    requires LedgerOk(calls, pins)
    requires ReadOk(calls + [c], |calls|) && PlacedOk(calls + [c], pins, |calls|) && LatchOk(calls + [c], |calls|) && AskOk(calls + [c], |calls|)
    ensures LedgerOk(calls + [c], pins)
    ensures Reads(calls + [c]) == Reads(calls) + (if c.ReadOut? then 1 else 0)
    ensures forall step :: OpenAsks(calls + [c], step) == NextOpen(OpenAsks(calls, step), c, step)
  {
    hide OpenAsks, Reads, NextOpen, ReadOk, PlacedOk, LatchOk, AskOk;
    NoteCounts(calls, c);
    forall k | 0 <= k < |calls + [c]| ensures ReadOk(calls + [c], k) && PlacedOk(calls + [c], pins, k) && LatchOk(calls + [c], k) && AskOk(calls + [c], k) {
      if k < |calls| { OldEntryOk(calls, pins, c, k); }
    }
  }

  lemma OldEntryOk(calls: seq<Call>, pins: map<Nonce, nat>, c: Call, k: nat)
    requires k < |calls| && ReadOk(calls, k) && PlacedOk(calls, pins, k) && LatchOk(calls, k) && AskOk(calls, k)
    ensures ReadOk(calls + [c], k) && PlacedOk(calls + [c], pins, k) && LatchOk(calls + [c], k) && AskOk(calls + [c], k)
  {
    hide Usable, Covers, OpenAsks;
    var l := calls + [c];
    assert l[..k] == calls[..k];
    assert l[k] == calls[k] && (k >= 1 ==> l[k - 1] == calls[k - 1]) && (k >= 2 ==> l[k - 2] == calls[k - 2]);
  }

  // ---------------------------------------------------------------- each stage keeps the ledger

  /** What later stages rely on about the step's pin. */
  predicate Holds(v: Vault, r: Request, p: Pending) {
    !v.bad && v.fills < AUTOFILL_FILL_CAP && r.step in v.pending && v.pending[r.step] == p
  }

  lemma FreshPinKeeps(calls: seq<Call>, pins: map<Nonce, nat>, nonce: Nonce, doc: nat)
    requires LedgerOk(calls, pins) && nonce !in pins
    ensures LedgerOk(calls, pins[nonce := doc])
  {
    forall k | 0 <= k < |calls| ensures ReadOk(calls, k) && PlacedOk(calls, pins[nonce := doc], k) && LatchOk(calls, k) && AskOk(calls, k) {
      assert ReadOk(calls, k) && PlacedOk(calls, pins, k) && LatchOk(calls, k) && AskOk(calls, k);
    }
  }

  lemma AdmitKeeps(v: Vault, r: Request, p: Pending, env: Env)
    requires Inv(v) && !v.bad && v.fills < AUTOFILL_FILL_CAP && p.nonce in v.pins && (r.step in v.pending ==> v.pending[r.step] == p)
    ensures var (v1, q) := Admit(v, r, p, env); Inv(v1) && (q.Go? ==> q.value == p && Holds(v1, r, p))
  {
    hide LedgerOk, OpenAsks, Reads;
  }

  lemma PinKeeps(v: Vault, r: Request, alias: string, env: Env)
    requires Inv(v) && Answers(v, r, env) && Gate(v, r) == Go(alias)
    ensures var (v1, p) := Pin(v, r, alias, env);
      && Inv(v1)
      && (p.Go? ==> Holds(v1, r, p.value) && |p.value.targets| <= |env.lucks|)
  {
    hide LedgerOk, OpenAsks, Reads, Admit;
    if r.step in v.pending {
      AdmitKeeps(v, r, v.pending[r.step], env);
    } else if env.prepared.Some? && v.view.worker.page.At? {
      FreshPinKeeps(v.calls, v.pins, env.nonce, v.doc);
      AdmitKeeps(v.(nonce := Some(env.nonce), pins := v.pins[env.nonce := v.doc]), r,
                 Pending(alias, r.context, env.nonce, v.view.worker.page.origin, env.prepared.value), env);
    } else {
      FreshPinKeeps(v.calls, v.pins, env.nonce, v.doc);
    }
  }

  lemma AskKeeps(v: Vault, r: Request, p: Pending, env: Env)
    requires Inv(v) && Holds(v, r, p)
    ensures var v2 := Ask(v, r, p, env).0;
      && Inv(v2) && Holds(v2, r, p)
      && v2.calls == v.calls + [TheAsk(r.step, p)]
  {
    hide LedgerOk, OpenAsks, Reads, Drift;
    var v1 := Note(v, TheAsk(r.step, p));
    assert v1.calls[..|v.calls|] == v.calls;
    NoteKeeps(v.calls, v.pins, TheAsk(r.step, p));
    DriftOnlyMoves(v1, env.askDrift);
  }

  lemma InspectKeeps(v: Vault, r: Request, p: Pending, grant: Grant, env: Env)
    requires Inv(v) && Holds(v, r, p)
    ensures var (v3, fit) := Inspect(v, p, grant, env);
      && Inv(v3) && Holds(v3, r, p)
      && (fit.Go? ==> env.info.Some? && v3.calls == v.calls + [Inspected(grant, env.info.value, env.infoAt)]
                      && Usable(env.info.value, env.infoAt) && Covers(env.info.value, p.origin))
  {
    hide LedgerOk, OpenAsks, Reads, Drift, Usable, Covers;
    DriftOnlyMoves(v, env.infoDrift);
    if env.info.Some? { NoteKeeps(v.calls, v.pins, Inspected(grant, env.info.value, env.infoAt)); }
  }

  lemma CleanupKeepsPage(s: View)
    ensures Cleanup(s).worker == s.worker.(closed := true)
  {}

  lemma ReadKeeps(v: Vault, r: Request, p: Pending, grant: Grant, env: Env)
    requires Inv(v) && Holds(v, r, p)
    requires |v.calls| >= 2 && env.info.Some? && v.calls[|v.calls| - 1] == Inspected(grant, env.info.value, env.infoAt)
    requires Usable(env.info.value, env.infoAt) && Covers(env.info.value, p.origin) && v.calls[|v.calls| - 2] == TheAsk(r.step, p)
    ensures var (v4, values) := ReadGrant(v, r, p, grant, env);
      && Inv(v4)
      && (values.Go? ==> v4.calls == v.calls + [ReadOut(r.step, grant, p.origin)] && !v4.bad && p.nonce in v4.pins)
  {
    hide LedgerOk, OpenAsks, Reads, Drift, Usable, Covers, ExpiredAt, Cleanup;
    DriftOnlyMoves(v, env.readDrift);
    assert Cleanup(v.view.(state := Cancelled, owner := Nobody)).worker.page == v.view.worker.page by { CleanupKeepsPage(v.view.(state := Cancelled, owner := Nobody)); }
    var c := ReadOut(r.step, grant, p.origin);
    var l := v.calls + [c];
    assert l[|l| - 1] == c && l[|l| - 2] == v.calls[|v.calls| - 1] && l[|l| - 3] == v.calls[|v.calls| - 2];
    NoteKeeps(v.calls, v.pins, c);
  }

  /** Between a read and the end of its fills. */
  predicate Filling(v: Vault, r: Request, p: Pending) {
    && !v.bad && p.nonce in v.pins && v.calls != []
    && var last := v.calls[|v.calls| - 1];
       || (last.ReadOut? && last.step == r.step && last.origin == p.origin)
       || (last.Placed? && last.step == r.step && last.origin == p.origin && last.nonce == p.nonce && last.doc == v.pins[p.nonce])
  }

  lemma {:induction false} PlaceAllKeeps(v: Vault, r: Request, p: Pending, values: map<Kind, string>, lucks: seq<TargetLuck>, n: nat)
    requires Inv(v) && Filling(v, r, p) && n <= |p.targets| <= |lucks|
    ensures var v1 := PlaceAll(v, r, p, values, lucks, n).0; Inv(v1) && Filling(v1, r, p)
    decreases n
  {
    hide LedgerOk, OpenAsks, Reads, Drift;
    if n > 0 {
      PlaceAllKeeps(v, r, p, values, lucks, n - 1);
      var (v1, ok) := PlaceAll(v, r, p, values, lucks, n - 1);
      if ok {
        DriftOnlyMoves(v1, lucks[n - 1].drift);
        var v2 := Drift(v1, lucks[n - 1].drift);
        var c := Placed(r.step, p.nonce, v2.doc, p.origin, p.targets[n - 1].kind);
        var l := v2.calls + [c];
        assert l[|l| - 1] == c && l[|l| - 2] == v1.calls[|v1.calls| - 1];
        if StillPinned(v2, p) { NoteKeeps(v2.calls, v2.pins, c); }
      }
    }
  }

  lemma FillKeeps(v: Vault, r: Request, p: Pending, values: map<Kind, string>, env: Env)
    requires Inv(v) && Filling(v, r, p) && |p.targets| <= |env.lucks|
    ensures Inv(Fill(v, r, p, values, env).0)
  {
    hide LedgerOk, OpenAsks, Reads, PlaceAll, ExpiredAt;
    PlaceAllKeeps(v, r, p, values, env.lucks, |p.targets|);
  }

  /** The end of a call, once a grant is there. */
  lemma SpendKeeps(v: Vault, r: Request, p: Pending, grant: Grant, env: Env)
    requires Inv(v) && Holds(v, r, p) && |p.targets| <= |env.lucks|
    requires v.calls != [] && v.calls[|v.calls| - 1] == TheAsk(r.step, p)
    ensures Inv(Spend(v, r, p, grant, env).0)
  {
    hide LedgerOk, OpenAsks, Reads, Inspect, ReadGrant, Fill, Usable, Covers;
    InspectKeeps(v, r, p, grant, env);
    var (v3, fit) := Inspect(v, p, grant, env);
    if fit.Go? {
      assert v3.calls[|v3.calls| - 2] == v.calls[|v.calls| - 1];
      ReadKeeps(v3, r, p, grant, env);
      var (v4, values) := ReadGrant(v3, r, p, grant, env);
      if values.Go? { FillKeeps(v4, r, p, values.value, env); }
    }
  }

  lemma LockedKeeps(v: Vault, r: Request, env: Env)
    requires Inv(v) && Answers(v, r, env)
    ensures Inv(Locked(v, r, env).0)
  {
    hide LedgerOk, OpenAsks, Reads, Pin, Ask, Spend;
    var alias := Gate(v, r);
    if alias.Go? {
      PinKeeps(v, r, alias.value, env);
      var (v1, p) := Pin(v, r, alias.value, env);
      if p.Go? {
        AskKeeps(v1, r, p.value, env);
        var (v2, grant) := Ask(v1, r, p.value, env);
        if grant.Go? { SpendKeeps(v2, r, p.value, grant.value, env); }
      }
    }
  }

  lemma SubmitKeeps(v: Vault, r: Request, env: Env)
    requires Inv(v) && Answers(v, r, env)
    ensures Inv(Submit(v, r, env).0)
  {
    hide LedgerOk, OpenAsks, Reads, Locked, ExpiredAt;
    LockedKeeps(v, r, env);
  }

  lemma ReportKeeps(v: Vault, now: int, bad: bool)
    requires Inv(v)
    ensures Inv(Report(v, now, bad).0)
  {
    hide LedgerOk, OpenAsks, Reads, ExpiredAt;
    NoteKeeps(v.calls, v.pins, Latched);
  }

  predicate PageIsOld(s: View, t: View) { t.worker.page == s.worker.page || !t.worker.page.At? }

  lemma PreparedPage(s: View, landed: Page, fails: bool)
    ensures var t := PrepareHandover(s, landed, fails).0;
      PageIsOld(s, t) || (t.log != s.log && t.log != [] && t.log[|t.log| - 1] == Reopened && !fails && !OffScope(s.worker, landed))
  {}

  lemma HandoverPage(s: View, e: SessionRuns.Event)
    requires e.op.HandOver? && !Navigates(s, e)
    ensures PageIsOld(s, SessionRuns.Step(s, e).0)
  {
    hide Transition, ExpiredAt, TokenOk, PrepareHandover, OffScope;
    PreparedPage(s, e.op.landed, e.op.fails);
  }

  lemma SavePage(s: View, e: SessionRuns.Event)
    requires e.op.SaveIt?
    ensures PageIsOld(s, SessionRuns.Step(s, e).0)
  {
    hide Transition, ExpiredAt, TokenOk, HumanOk, MaySave;
  }

  lemma CompletePage(s: View, e: SessionRuns.Event)
    requires e.op.CompleteIt?
    ensures PageIsOld(s, SessionRuns.Step(s, e).0)
  {
    hide Transition, ExpiredAt, TokenOk, HumanOk;
  }

  lemma DrivenPage(s: View, e: SessionRuns.Event)
    requires (e.op.AgentInput? || e.op.HumanInput? || e.op.PageMoves? || e.op.TakeBack? || e.op.Boot?) && !Navigates(s, e)
    ensures PageIsOld(s, SessionRuns.Step(s, e).0)
  {
    hide Transition, ExpiredAt, TokenOk, HumanOk, RecheckLoadable, IsRevokedGeneration;
  }

  /** An operation that is no navigation leaves the page as it is or without an origin. */
  lemma PageStays(s: View, e: SessionRuns.Event)
    requires !Navigates(s, e) && !e.op.AutofillIt?
    ensures PageIsOld(s, SessionRuns.Step(s, e).0)
  {
    hide RecheckLoadable, IsRevokedGeneration, Transition, ExpiredAt, TokenOk, HumanOk, Navigates, PageIsOld, Complete, Handover, SaveFrom, Command, Input, AgentClaim, AfterStart, Drive;
    match e.op
    case HandOver(_, _, _) => HandoverPage(s, e);
    case SaveIt(_, _, _, _, _, _) => SavePage(s, e);
    case CompleteIt(_) => CompletePage(s, e);
    case AgentInput(_, _) => DrivenPage(s, e);
    case HumanInput(_, _, _) => DrivenPage(s, e);
    case PageMoves(_) => DrivenPage(s, e);
    case TakeBack(_, _) => DrivenPage(s, e);
    case Boot(_, _, _, _, _) => DrivenPage(s, e);
    case _ => RestPage(s, e);
  }

  lemma RestPage(s: View, e: SessionRuns.Event)
    requires e.op.HandOff? || e.op.ClaimIt? || e.op.CancelIt? || e.op.ExtendIt? || e.op.GoSensitive? || e.op.CloseIt? || e.op.ReapIt? || e.op.JarGone?
    ensures PageIsOld(s, SessionRuns.Step(s, e).0)
  {
    hide Transition, ExpiredAt, TokenOk, HumanOk;
  }

  lemma StepKeepsInv(v: Vault, op: VaultOp)
    requires Inv(v) && Enabled(v, op)
    ensures Inv(VaultStep(v, op))
  {
    hide LedgerOk, OpenAsks, Reads, Submit, Report, SessionRuns.Step, Navigates, Answers;
    match op
    case DoSubmit(r, env) => SubmitKeeps(v, r, env);
    case DoReport(now, bad) => ReportKeeps(v, now, bad);
    case Other(e) => if !Navigates(v.view, e) { PageStays(v.view, e); }
  }

  lemma {:induction false} RunKeepsInv(vs: seq<Vault>, ops: seq<VaultOp>, i: nat)
    requires Run(vs, ops) && i < |vs|
    ensures Inv(vs[i])
    decreases i
  {
    if i > 0 {
      hide Inv, VaultStep, Enabled, SessionRuns.Born;
      RunKeepsInv(vs, ops, i - 1);
      assert Follows(vs, ops, i - 1);
      StepKeepsInv(vs[i - 1], ops[i - 1]);
    }
  }

  // ---------------------------------------------------------------- what the ledger says

  /** The grant is for autofill, not revoked, unexpired by the broker's clock, and has uses left. */
  predicate GoodGrant(g: GrantInfo, at: int) {
    && g.forAutofill && !g.revoked
    && (match g.serverTime case Some(clock) => clock < g.notAfter case None => at < g.notAfter)
    && (match g.maxUses case Some(most) => g.useCount < most case None => true)
  }

  /** Some granted origin has the lower-cased host of `o`, and its port, 443 where it names none. */
  ghost predicate NamesOrigin(g: GrantInfo, o: Origin) {
    exists k :: 0 <= k < |g.origins| && g.origins[k].host == Lower(o.host)
      && (match g.origins[k].port case Some(port) => port == o.port case None => o.port == 443)
  }

  lemma GrantTests(g: GrantInfo, at: int, o: Origin)
    ensures Usable(g, at) <==> GoodGrant(g, at)
    ensures Covers(g, o) <==> NamesOrigin(g, o)
  {
    if Covers(g, o) {
      var granted :| granted in g.origins && granted.host == Lower(o.host) && (if granted.port.Some? then granted.port.value else 443) == o.port;
      var k :| 0 <= k < |g.origins| && g.origins[k] == granted;
      assert NamesOrigin(g, o);
    }
  }

  /** Reads are counted and capped, and every one of them follows a request for its step and origin and
      an inspection of a good grant that names that origin, which is an https one. */
  lemma EveryReadIsChecked(vs: seq<Vault>, ops: seq<VaultOp>, i: nat, k: nat)
    requires Run(vs, ops) && i < |vs|
    ensures vs[i].fills == Reads(vs[i].calls) <= 6
    ensures var calls := vs[i].calls; k < |calls| && calls[k].ReadOut? ==>
      && k >= 2 && calls[k].origin.scheme == Https
      && calls[k - 1].Inspected? && calls[k - 1].grant == calls[k].grant
      && GoodGrant(calls[k - 1].info, calls[k - 1].at) && NamesOrigin(calls[k - 1].info, calls[k].origin)
      && calls[k - 2].Asked? && calls[k - 2].step == calls[k].step && calls[k - 2].origin == calls[k].origin
  {
    hide Usable, Covers, Reads, OpenAsks, GoodGrant, NamesOrigin;
    RunKeepsInv(vs, ops, i);
    var calls := vs[i].calls;
    if k < |calls| && calls[k].ReadOut? {
      assert ReadOk(calls, k);
      GrantTests(calls[k - 1].info, calls[k - 1].at, calls[k].origin);
    }
  }

  /** After a reported bad password the broker is not asked again and nothing is read or filled. */
  lemma {:induction false} NothingAfterTheLatch(vs: seq<Vault>, ops: seq<VaultOp>, i: nat, k: nat, l: nat)
    requires Run(vs, ops) && i < |vs| && k <= l < |vs[i].calls| && vs[i].calls[k].Latched?
    ensures vs[i].calls[l].Latched?
    decreases l
  {
    RunKeepsInv(vs, ops, i);
    if k < l {
      NothingAfterTheLatch(vs, ops, i, k, l - 1);
      assert LatchOk(vs[i].calls, l);
    }
  }

  lemma {:induction false} StillOpen(calls: seq<Call>, k: nat, n: nat)
    requires k < n <= |calls| && calls[k].Asked?
    requires forall m | k < m < n :: !(calls[m].ReadOut? && calls[m].step == calls[k].step)
    ensures calls[k] in OpenAsks(calls[..n], calls[k].step)
    decreases n
  {
    assert calls[..n][..n - 1] == calls[..n - 1] && calls[..n][n - 1] == calls[n - 1];
    if k < n - 1 { StillOpen(calls, k, n - 1); }
  }

  /** Two requests for a step with no read of it in between are the same request: alias, origin and
      context. */
  lemma RequestsRepeatUntilTheRead(vs: seq<Vault>, ops: seq<VaultOp>, i: nat, k: nat, l: nat)
    requires Run(vs, ops) && i < |vs| && k < l < |vs[i].calls|
    requires vs[i].calls[k].Asked? && vs[i].calls[l].Asked? && vs[i].calls[k].step == vs[i].calls[l].step
    requires forall m | k < m < l :: !(vs[i].calls[m].ReadOut? && vs[i].calls[m].step == vs[i].calls[k].step)
    ensures vs[i].calls[k] == vs[i].calls[l]
  {
    RunKeepsInv(vs, ops, i);
    StillOpen(vs[i].calls, k, l);
    assert AskOk(vs[i].calls, l);
  }

  /** A value is placed only in the document its nonce was put into, and belongs to the read of its own
      step for its own origin: nothing but fills of the same step and document lies in between. */
  lemma {:induction false} ValuesStayInTheirDocument(vs: seq<Vault>, ops: seq<VaultOp>, i: nat, k: nat)
    requires Run(vs, ops) && i < |vs| && k < |vs[i].calls| && vs[i].calls[k].Placed?
    ensures var v, c := vs[i], vs[i].calls[k];
      && c.nonce in v.pins && v.pins[c.nonce] == c.doc
      && exists read :: 0 <= read < k && FilledFrom(v.calls, read, k)
    decreases k
  {
    RunKeepsInv(vs, ops, i);
    assert PlacedOk(vs[i].calls, vs[i].pins, k);
    if vs[i].calls[k - 1].ReadOut? {
      assert FilledFrom(vs[i].calls, k - 1, k);
    } else {
      ValuesStayInTheirDocument(vs, ops, i, k - 1);
      var read :| 0 <= read < k - 1 && FilledFrom(vs[i].calls, read, k - 1);
      assert FilledFrom(vs[i].calls, read, k);
    }
  }

  ghost predicate FilledFrom(calls: seq<Call>, read: int, k: nat)
    requires 0 <= read < k < |calls| && calls[k].Placed?
  {
    && calls[read].ReadOut? && calls[read].step == calls[k].step && calls[read].origin == calls[k].origin
    && forall m | read < m <= k :: calls[m].Placed? && calls[m].step == calls[k].step && calls[m].nonce == calls[k].nonce && calls[m].doc == calls[k].doc
  }

  // ---------------------------------------------------------------- what is never taken back

  ghost predicate Adds(v: Vault, w: Vault) {
    v.calls <= w.calls && v.fills <= w.fills && (v.bad ==> w.bad) && forall n <- v.pins :: n in w.pins && w.pins[n] == v.pins[n]
  }

  ghost predicate NoneRead(calls: seq<Call>, n: nat) { forall k | n <= k < |calls| :: !calls[k].ReadOut? && !calls[k].Placed? }

  ghost predicate NonePlaced(calls: seq<Call>, n: nat) { forall k | n <= k < |calls| :: !calls[k].Placed? }

  predicate SameLease(v: Vault, w: Vault) { w.view == v.view.(worker := w.view.worker) }

  lemma AskAdds(v: Vault, r: Request, p: Pending, env: Env)
    ensures var w := Ask(v, r, p, env).0; Adds(v, w) && NoneRead(w.calls, |v.calls|) && w.fills == v.fills && SameLease(v, w)
  {
    DriftOnlyMoves(Note(v, TheAsk(r.step, p)), env.askDrift);
  }

  lemma InspectAdds(v: Vault, p: Pending, grant: Grant, env: Env)
    ensures var w := Inspect(v, p, grant, env).0; Adds(v, w) && NoneRead(w.calls, |v.calls|) && w.fills == v.fills && SameLease(v, w)
  {
    DriftOnlyMoves(v, env.infoDrift);
    hide Drift, Usable, Covers;
  }

  lemma ReadAdds(v: Vault, r: Request, p: Pending, grant: Grant, env: Env)
    requires !Terminal(v.view.state)
    ensures var (w, values) := ReadGrant(v, r, p, grant, env);
      && Adds(v, w) && NonePlaced(w.calls, |v.calls|) && (values.Go? ==> SameLease(v, w))
      && (env.revokedBeforeRead || ExpiredAt(v.view, env.readAt) ==> values.Stop? && w.calls == v.calls && w.fills == v.fills)
  {
    DriftOnlyMoves(v, env.readDrift);
    hide Drift, ExpiredAt, Cleanup;
  }

  lemma {:induction false} PlaceAllAdds(v: Vault, r: Request, p: Pending, values: map<Kind, string>, lucks: seq<TargetLuck>, n: nat)
    requires n <= |p.targets| <= |lucks|
    ensures Adds(v, PlaceAll(v, r, p, values, lucks, n).0)
    decreases n
  {
    hide Drift;
    if n > 0 {
      PlaceAllAdds(v, r, p, values, lucks, n - 1);
      DriftOnlyMoves(PlaceAll(v, r, p, values, lucks, n - 1).0, lucks[n - 1].drift);
    }
  }

  lemma FillAdds(v: Vault, r: Request, p: Pending, values: map<Kind, string>, env: Env)
    requires !Terminal(v.view.state) && |p.targets| <= |env.lucks|
    ensures var w := Fill(v, r, p, values, env).0;
      Adds(v, w) && (env.revokedBeforeFill || ExpiredAt(v.view, env.fillAt) ==> w.calls == v.calls)
  {
    hide ExpiredAt, PlaceAll, Cleanup;
    PlaceAllAdds(v, r, p, values, env.lucks, |p.targets|);
  }

  lemma SpendAdds(v: Vault, r: Request, p: Pending, grant: Grant, env: Env)
    requires !Terminal(v.view.state) && |p.targets| <= |env.lucks|
    ensures var w := Spend(v, r, p, grant, env).0;
      && Adds(v, w)
      && (env.revokedBeforeRead || ExpiredAt(v.view, env.readAt) ==> NoneRead(w.calls, |v.calls|) && w.fills == v.fills)
      && (env.revokedBeforeFill || ExpiredAt(v.view, env.fillAt) ==> NonePlaced(w.calls, |v.calls|))
  {
    hide Inspect, ReadGrant, Fill;
    InspectAdds(v, p, grant, env);
    var (v1, fit) := Inspect(v, p, grant, env);
    if fit.Go? {
      ReadAdds(v1, r, p, grant, env);
      var (v2, values) := ReadGrant(v1, r, p, grant, env);
      if values.Go? { FillAdds(v2, r, p, values.value, env); }
    }
  }

  lemma PinAdds(v: Vault, r: Request, alias: string, env: Env)
    requires Answers(v, r, env)
    ensures var (w, p) := Pin(v, r, alias, env);
      Adds(v, w) && w.calls == v.calls && w.fills == v.fills && w.view == v.view && (p.Go? ==> |p.value.targets| <= |env.lucks|)
  {}

  lemma LockedAdds(v: Vault, r: Request, env: Env)
    requires !Terminal(v.view.state) && Answers(v, r, env)
    ensures var w := Locked(v, r, env).0;
      && Adds(v, w)
      && (env.revokedBeforeRead || ExpiredAt(v.view, env.readAt) ==> NoneRead(w.calls, |v.calls|) && w.fills == v.fills)
      && (env.revokedBeforeFill || ExpiredAt(v.view, env.fillAt) ==> NonePlaced(w.calls, |v.calls|))
  {
    hide Pin, Ask, Spend, Answers;
    var alias := Gate(v, r);
    if alias.Go? {
      PinAdds(v, r, alias.value, env);
      var (v1, p) := Pin(v, r, alias.value, env);
      if p.Go? {
        AskAdds(v1, r, p.value, env);
        var (v2, grant) := Ask(v1, r, p.value, env);
        if grant.Go? { SpendAdds(v2, r, p.value, grant.value, env); }
      }
    }
  }

  /** The three checks of one call. A call the agent may not make changes nothing; one that finds the
      jar revoked at the start tears the session down and asks nobody; a revocation or expiry seen before
      the read stops the read, one seen after it stops every fill. */
  lemma RevocationStopsTheRelease(v: Vault, r: Request, env: Env)
    requires Answers(v, r, env)
    ensures var (w, outcome) := Submit(v, r, env);
      && Adds(v, w)
      && (!AgentHolds(v.view) || ExpiredAt(v.view, env.now) ==> w == v && outcome.Raised?)
      && (env.revoked && AgentHolds(v.view) && !ExpiredAt(v.view, env.now) ==>
            KillSwitch.TornDown(w.view) && w.calls == v.calls && outcome == Raised(Inactive))
      && (env.revokedBeforeRead || ExpiredAt(v.view, env.readAt) ==> NoneRead(w.calls, |v.calls|) && w.fills == v.fills)
      && (env.revokedBeforeFill || ExpiredAt(v.view, env.fillAt) ==> NonePlaced(w.calls, |v.calls|))
  {
    hide Locked, Answers;
    if !Terminal(v.view.state) { LockedAdds(v, r, env); }
  }

  /** Along a run the ledger only grows, and a nonce stays with the document it was put into. */
  lemma {:induction false} RunAdds(vs: seq<Vault>, ops: seq<VaultOp>, i: nat, j: nat)
    requires Run(vs, ops) && i <= j < |vs|
    ensures Adds(vs[i], vs[j])
    decreases j - i
  {
    hide VaultStep, Enabled, SessionRuns.Born;
    if i < j {
      RunAdds(vs, ops, i, j - 1);
      assert Follows(vs, ops, j - 1);
      StepAdds(vs[j - 1], ops[j - 1]);
    }
  }

  lemma StepAdds(v: Vault, op: VaultOp)
    requires Enabled(v, op)
    ensures Adds(v, VaultStep(v, op))
  {
    hide Submit, Answers, SessionRuns.Step, Navigates;
    if op.DoSubmit? { RevocationStopsTheRelease(v, op.r, op.env); }
  }

  /** A generation tombstoned durably by any process before one of the three checks reads the directory ends the
      release at that check, in every session that holds the jar at that generation or below. */
  lemma RevocationReachesTheRelease(
    c: Config, ws: seq<JarRuns.World>, steps: seq<JarRuns.Step>, i: nat, j: nat, id: JarId, g: int, v: Vault, r: Request, env: Env)
    requires JarRuns.Run(c, ws, steps) && i <= j < |ws| && c.keys != [] && Answers(v, r, env)
    requires JarGuarantees.Secured(ws[i], id, g) && KillSwitch.Holds(v.view, id, g)
    ensures var (w, outcome) := Submit(v, r, env);
      && (env.revoked == RevokedFor(c, ws[j].disk, v.view) && AgentHolds(v.view) && !ExpiredAt(v.view, env.now) ==>
            KillSwitch.TornDown(w.view) && w.calls == v.calls && outcome == Raised(Inactive))
      && (env.revokedBeforeRead == RevokedFor(c, ws[j].disk, v.view) ==> NoneRead(w.calls, |v.calls|) && w.fills == v.fills)
      && (env.revokedBeforeFill == RevokedFor(c, ws[j].disk, v.view) ==> NonePlaced(w.calls, |v.calls|))
  {
    hide Submit, Answers, JarRuns.Run, JarGuarantees.Secured, RevokedFor;
    KillSwitch.HeldIsRevoked(c, ws, steps, i, j, id, g, v.view);
    RevocationStopsTheRelease(v, r, env);
  }

  // ---------------------------------------------------------------- what the broker is asked for

  /** The new requests name the session's credential and an https origin inside its confinement set. */
  ghost predicate AsksInside(v: Vault, r: Request, calls: seq<Call>) {
    v.calls <= calls && forall k | |v.calls| <= k < |calls| && calls[k].Asked? ::
      && calls[k].step == r.step && calls[k].origin.scheme == Https && AliasFor(v, r) == Some(calls[k].alias)
      && (v.view.site.confine ==> calls[k].origin in v.view.confineOrigins)
  }

  ghost predicate NoneAsked(v: Vault, w: Vault) { v.calls <= w.calls && forall k | |v.calls| <= k < |w.calls| :: !w.calls[k].Asked? }

  lemma {:induction false} PlacingAsksNothing(v: Vault, r: Request, p: Pending, values: map<Kind, string>, lucks: seq<TargetLuck>, n: nat)
    requires n <= |p.targets| <= |lucks|
    ensures NoneAsked(v, PlaceAll(v, r, p, values, lucks, n).0)
    decreases n
  {
    hide Drift;
    if n > 0 {
      PlacingAsksNothing(v, r, p, values, lucks, n - 1);
      DriftOnlyMoves(PlaceAll(v, r, p, values, lucks, n - 1).0, lucks[n - 1].drift);
    }
  }

  lemma SpendingAsksNothing(v: Vault, r: Request, p: Pending, grant: Grant, env: Env)
    requires |p.targets| <= |env.lucks|
    ensures NoneAsked(v, Spend(v, r, p, grant, env).0)
  {
    hide Drift, Usable, Covers, ExpiredAt, PlaceAll, Cleanup;
    DriftOnlyMoves(v, env.infoDrift);
    var (v1, fit) := Inspect(v, p, grant, env);
    if fit.Go? {
      DriftOnlyMoves(v1, env.readDrift);
      var (v2, values) := ReadGrant(v1, r, p, grant, env);
      if values.Go? { PlacingAsksNothing(v2, r, p, values.value, env.lucks, |p.targets|); }
    }
  }

  /** Whatever pins a step may have kept, the broker is asked only on behalf of the session's own
      credential, for an https origin that is inside the confinement set as it is at the call. */
  lemma RequestsStayInScope(v: Vault, r: Request, env: Env)
    requires Answers(v, r, env)
    ensures AsksInside(v, r, Submit(v, r, env).0.calls)
  {
    hide Ask, Spend, ExpiredAt, Cleanup;
    var alias := Gate(v, r);
    if alias.Go? {
      var (v1, p) := Pin(v, r, alias.value, env);
      if p.Go? {
        AskedOnce(v1, r, p.value, env);
        var (v2, grant) := Ask(v1, r, p.value, env);
        if grant.Go? {
          PinAdds(v, r, alias.value, env);
          SpendingAsksNothing(v2, r, p.value, grant.value, env);
        }
      }
    }
  }

  lemma AskedOnce(v: Vault, r: Request, p: Pending, env: Env)
    ensures Ask(v, r, p, env).0.calls == v.calls + [TheAsk(r.step, p)]
  {
    DriftOnlyMoves(Note(v, TheAsk(r.step, p)), env.askDrift);
  }
}
