/** The session states, who owns the lease in each, and the table of allowed transitions. */
module Leases {
  import opened Tombstones

  datatype SessionState =
    | AgentActive | HandoffRequested | HandoverRequested | HumanActive | HumanSensitive | SanitizePending
    | AgentResumable | Completed | Cancelled | Expired | Failed

  datatype Owner = ByAgent | ByHuman | ByService | Nobody

  predicate Terminal(s: SessionState) { s in {Completed, Cancelled, Expired, Failed} }

  predicate AgentState(s: SessionState) { s in {AgentActive, AgentResumable} }

  const ALLOWED_TRANSITIONS: map<(SessionState, SessionState), Owner> :=
    map[
      (AgentActive, HandoffRequested) := ByService,
      (AgentResumable, HandoffRequested) := ByService,
      (HandoffRequested, HumanActive) := ByHuman,
      (HumanActive, HumanSensitive) := ByHuman,
      (HumanActive, HandoverRequested) := ByService,
      (HandoverRequested, AgentActive) := ByAgent,
      (HandoverRequested, Cancelled) := Nobody,
      (HumanActive, Completed) := Nobody,
      (HumanSensitive, Completed) := Nobody,
      (HandoffRequested, Cancelled) := Nobody,
      (HumanActive, Cancelled) := Nobody,
      (HumanSensitive, Cancelled) := Nobody,
      (HumanActive, SanitizePending) := ByService,
      (SanitizePending, AgentResumable) := ByAgent
    ]

  /** The owner after the transition, or nothing where it is refused. */
  function Transition(state: SessionState, owner: Owner, to: SessionState): Option<Owner> {
    if Terminal(state) then None
    else if to in {Expired, Failed} then Some(Nobody)
    else if (state, to) !in ALLOWED_TRANSITIONS then None
    else if AgentState(state) && owner != ByAgent then None
    else if state in {HumanActive, HumanSensitive} && owner != ByHuman then None
    else if state in {HandoffRequested, HandoverRequested} && owner != ByService then None
    else Some(ALLOWED_TRANSITIONS[(state, to)])
  }

  /** Whose turn it is, as a function of the state alone. */
  function OwnerOf(s: SessionState): Owner {
    match s
    case AgentActive => ByAgent
    case AgentResumable => ByAgent
    case HumanActive => ByHuman
    case HumanSensitive => ByHuman
    case HandoffRequested => ByService
    case HandoverRequested => ByService
    case SanitizePending => ByService
    case _ => Nobody
  }

  /** From the owner that belongs to the state, a transition leads to the owner that belongs to the
      next one; with any other owner it is refused, but for failing and expiring and for the pending
      sanitisation, whose owner is not checked. Terminal states lead nowhere. */
  lemma TransitionsFollowTheLease(s: SessionState, owner: Owner, t: SessionState)
    ensures var r := Transition(s, owner, t);
      && (r.Some? ==> !Terminal(s) && r.value == OwnerOf(t))
      && (r.Some? && owner != OwnerOf(s) ==> t in {Expired, Failed} || s == SanitizePending)
      && (Terminal(s) ==> r.None?)
  {}

  /** Where a state leads by itself: what may be asked of it, while it has not ended. */
  function Onward(s: SessionState): set<SessionState> {
    match s
    case AgentActive => {HandoffRequested}
    case AgentResumable => {HandoffRequested}
    case HandoffRequested => {HumanActive, Cancelled}
    case HumanActive => {HumanSensitive, HandoverRequested, SanitizePending, Completed, Cancelled}
    case HumanSensitive => {Completed, Cancelled}
    case HandoverRequested => {AgentActive, Cancelled}
    case SanitizePending => {AgentResumable}
    case _ => {}
  }

  /** The table is exactly this graph, walked by the owner that belongs to the state; any session that has
      not ended may fail or expire, whoever owns it. */
  lemma AllowedExactly(s: SessionState, owner: Owner, t: SessionState)
    ensures Transition(s, owner, t).Some? <==>
      !Terminal(s) && (t in {Expired, Failed} || (t in Onward(s) && (owner == OwnerOf(s) || s == SanitizePending)))
  {}

  /** How a state can be left towards the agent: only by a handover that was requested, or by a
      sanitisation that a human completing asked for. */
  lemma ReturnToAgent(s: SessionState, owner: Owner, t: SessionState)
    requires Transition(s, owner, t).Some? && AgentState(t)
    ensures (s == HandoverRequested && t == AgentActive) || (s == SanitizePending && t == AgentResumable)
  {}

  /** Nothing reachable from the sensitive state is the agent's. */
  lemma {:induction false} SensitiveIsOneWay(path: seq<SessionState>, owners: seq<Owner>, k: nat)
    requires |owners| == |path| > 0 && k < |path| && path[0] == HumanSensitive
    requires forall i | 0 <= i < |path| - 1 :: path[i + 1] == path[i] || Transition(path[i], owners[i], path[i + 1]).Some?
    ensures path[k] == HumanSensitive || Terminal(path[k])
  {
    if k > 0 {
      SensitiveIsOneWay(path, owners, k - 1);
      assert path[k - 1 + 1] == path[k - 1] || Transition(path[k - 1], owners[k - 1], path[k - 1 + 1]).Some?;
    }
  }
}
