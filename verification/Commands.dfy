/** Every interleaving of execute with the other manager operations.

    One event is the code between two suspension points.  An execute call suspends in three places:
    queueing for its connection's send lock, inside the transport's send, and on its future. */
module Commands {
  import opened Domain
  import opened Tables

  datatype Fault = OfflineFault | SendFault | TimeoutFault | CancelFault

  datatype Outcome = Returned(reply: Reply) | Raised(fault: Fault)

  datatype Phase = Queued | Sending | Awaiting | Finished(outcome: Outcome)

  /** `phases` runs parallel to `m.waiters`; `holder` maps a session to the ticket holding its send lock. */
  datatype Hub = Hub(m: Tables, phases: seq<Phase>, holder: map<Id, nat>)

  const INITIAL := Hub(EMPTY, [], map[])

  datatype Event =
    | Join(device: Id, session: Id, transport: Id, now: int)
    | Activation(device: Id, session: Id, advertised: set<Capability>, effective: set<Capability>, now: int)
    | Leave(device: Id, session: Id)
    | Evict(device: Id)
    | Seen(device: Id, session: Id, now: int)
    | Submit(command: Command, timeout: int, now: int)
    | Answer(device: Id, session: Id, reply: Reply)
    | Shutdown
    | Gate(ticket: nat)
    | SendDone(ticket: nat)
    | SendFailed(ticket: nat)
    | Wake(ticket: nat)
    | TimeOut(ticket: nat)
    | Cancel(ticket: nat)

  predicate Live(s: Hub, t: nat) {
    t < |s.phases| && !s.phases[t].Finished?
  }

  predicate Shaped(s: Hub) {
    |s.phases| == |s.m.waiters| && WellFiled(s.m)
  }

  function SessionOf(s: Hub, t: nat): Id
    requires t < |s.m.waiters|
  {
    s.m.waiters[t].session
  }

  function DeviceOf(s: Hub, t: nat): Id
    requires t < |s.m.waiters|
  {
    s.m.waiters[t].command.device
  }

  predicate Enabled(s: Hub, e: Event)
    requires Shaped(s)
  {
    match e
    case Join(_, session, _, _) => session !in s.m.sessions
    case Gate(t) => t < |s.phases| && s.phases[t].Queued? && SessionOf(s, t) !in s.holder
    case SendDone(t) => t < |s.phases| && s.phases[t].Sending?
    case SendFailed(t) => t < |s.phases| && s.phases[t].Sending?
    case Wake(t) => t < |s.phases| && s.phases[t].Awaiting? && !s.m.waiters[t].future.Open?
    case TimeOut(t) => t < |s.phases| && s.phases[t].Awaiting?
    case Cancel(t) => Live(s, t)
    case _ => true
  }

  /** The object-identity test made under the send lock: the connection is still the device's own. */
  predicate GatePasses(s: Hub, t: nat)
    requires t < |s.m.waiters|
  {
    Current(s.m, DeviceOf(s, t), SessionOf(s, t))
  }

  /** Leave execute: run the finally block and let go of the send lock if it is held. */
  function Finish(s: Hub, t: nat, outcome: Outcome): Hub
    requires t < |s.phases| == |s.m.waiters|
  {
    Hub(Cleanup(s.m, t), s.phases[t := Finished(outcome)],
           if s.phases[t].Sending? then s.holder - {SessionOf(s, t)} else s.holder)
  }

  function Delivered(f: Future): Outcome
    requires !f.Open?
  {
    match f
    case Resolved(r) => Returned(r)
    case Failed(_) => Raised(OfflineFault)
    case Cancelled => Raised(CancelFault)
  }

  function Apply(s: Hub, e: Event): Hub
    requires Shaped(s) && Enabled(s, e)
  {
    match e
    case Join(d, session, transport, now) => s.(m := Connect(s.m, d, session, transport, now))
    case Activation(d, session, adv, eff, now) => s.(m := Activate(s.m, d, session, adv, eff, now))
    case Leave(d, session) => s.(m := Disconnect(s.m, d, session))
    case Evict(d) => s.(m := DisconnectDevice(s.m, d))
    case Seen(d, session, now) => s.(m := Touch(s.m, d, session, now))
    case Submit(c, timeout, now) =>
      s.(m := Register(s.m, c, timeout, now),
         phases := if Admit(s.m, c, timeout, now) == Admitted then s.phases + [Queued] else s.phases)
    case Answer(d, session, r) => s.(m := Resolve(s.m, d, session, r))
    case Shutdown => s.(m := CloseAll(s.m))
    case Gate(t) =>
      if GatePasses(s, t) then s.(phases := s.phases[t := Sending], holder := s.holder[SessionOf(s, t) := t])
      else Finish(s, t, Raised(OfflineFault))
    case SendDone(t) => s.(phases := s.phases[t := Awaiting], holder := s.holder - {SessionOf(s, t)})
    case SendFailed(t) =>
      Finish(s.(m := Disconnect(s.m, DeviceOf(s, t), SessionOf(s, t))), t, Raised(SendFault))
    case Wake(t) => Finish(s, t, Delivered(s.m.waiters[t].future))
    case TimeOut(t) => Finish(s, t, Raised(TimeoutFault))
    case Cancel(t) => Finish(s, t, Raised(CancelFault))
  }

  // ---------- The invariant ----------

  /** The send locks are held by exactly the executions inside a send. */
  ghost predicate LocksHeld(s: Hub)
    requires |s.phases| == |s.m.waiters|
  {
    && (forall x <- s.holder ::
          s.holder[x] < |s.phases| && s.phases[s.holder[x]].Sending? && SessionOf(s, s.holder[x]) == x)
    && (forall t: nat :: t < |s.phases| && s.phases[t].Sending? ==>
          SessionOf(s, t) in s.holder && s.holder[SessionOf(s, t)] == t)
  }

  /** Only executions that have not left wait in the table, only those that left have cancelled futures,
      and an execution that returned a reply returned the one in its future. */
  ghost predicate CallConserved(s: Hub, t: nat)
    requires |s.phases| == |s.m.waiters|
    requires t < |s.phases|
  {
    && (Listed(s.m, t) ==> Live(s, t))
    && (s.m.waiters[t].future.Cancelled? ==> !Live(s, t))
    && (forall r :: s.phases[t] == Finished(Returned(r)) ==> s.m.waiters[t].future == Resolved(r))
  }

  ghost predicate Inv(s: Hub) {
    && Shaped(s)
    && Coherent(s.m)
    && LocksHeld(s)
    && (forall t: nat :: t < |s.phases| ==> CallConserved(s, t))
  }

  lemma FinishKeeps(s: Hub, t: nat, outcome: Outcome)
    requires Inv(s) && t < |s.phases|
    requires outcome.Returned? ==> s.m.waiters[t].future == Resolved(outcome.reply)
    ensures var s' := Finish(s, t, outcome);
      Inv(s') && Evolves(s.m, s'.m) && !Live(s', t) && !Listed(s'.m, t) && !s'.m.waiters[t].future.Open?
  {
    CleanupCoherent(s.m, t);
    var s' := Finish(s, t, outcome);
    assert WaiterOk(s'.m, t);
    forall u: nat | u < |s'.phases|
      ensures CallConserved(s', u)
    {
      assert CallConserved(s, u);
    }
  }

  /** An operation on the tables alone keeps the whole invariant, whatever it does to the futures, as
      long as it neither cancels one nor lists an execution that has left. */
  lemma TableStepKeeps(s: Hub, m': Tables)
    requires Inv(s) && Coherent(m') && Evolves(s.m, m') && |m'.waiters| == |s.m.waiters|
    requires forall t: nat :: t < |m'.waiters| && m'.waiters[t].future.Cancelled? ==> s.m.waiters[t].future.Cancelled?
    ensures Inv(s.(m := m'))
  {
    forall t: nat | t < |s.phases|
      ensures CallConserved(s.(m := m'), t)
    {
      assert CallConserved(s, t) && WaiterOk(m', t) && WaiterOk(s.m, t);
    }
  }

  lemma SendStepKeeps(s: Hub, e: Event, t: nat)
    requires Inv(s) && Enabled(s, e) && (e == Gate(t) || e == SendDone(t))
    ensures Inv(Apply(s, e)) && Evolves(s.m, Apply(s, e).m)
  {
    if e == Gate(t) && !GatePasses(s, t) {
      FinishKeeps(s, t, Raised(OfflineFault));
    } else {
      var s' := Apply(s, e);
      forall u: nat | u < |s'.phases|
        ensures CallConserved(s', u)
      {
        assert CallConserved(s, u);
      }
    }
  }

  lemma SendFailedKeeps(s: Hub, t: nat)
    requires Inv(s) && Enabled(s, SendFailed(t))
    ensures Inv(Apply(s, SendFailed(t))) && Evolves(s.m, Apply(s, SendFailed(t)).m)
  {
    DisconnectCoherent(s.m, DeviceOf(s, t), SessionOf(s, t));
    var m1 := Disconnect(s.m, DeviceOf(s, t), SessionOf(s, t));
    TableStepKeeps(s, m1);
    FinishKeeps(s.(m := m1), t, Raised(SendFault));
    EvolvesTransitive(s.m, m1, Apply(s, SendFailed(t)).m);
  }

  lemma InvPreserved(s: Hub, e: Event)
    requires Inv(s) && Enabled(s, e)
    ensures Inv(Apply(s, e)) && Evolves(s.m, Apply(s, e).m)
  {
    match e
    case Join(d, x, transport, now) =>
      ConnectCoherent(s.m, d, x, transport, now);
      TableStepKeeps(s, Connect(s.m, d, x, transport, now));
    case Activation(d, x, adv, eff, now) =>
      ActivateCoherent(s.m, d, x, adv, eff, now);
      TableStepKeeps(s, Activate(s.m, d, x, adv, eff, now));
    case Leave(d, x) =>
      DisconnectCoherent(s.m, d, x);
      TableStepKeeps(s, Disconnect(s.m, d, x));
    case Evict(d) =>
      DisconnectDeviceCoherent(s.m, d);
      TableStepKeeps(s, DisconnectDevice(s.m, d));
    case Seen(d, x, now) =>
      TouchCoherent(s.m, d, x, now);
      TableStepKeeps(s, Touch(s.m, d, x, now));
    case Submit(c, timeout, now) =>
      SubmitKeeps(s, c, timeout, now);
    case Answer(d, x, r) =>
      ResolveCoherent(s.m, d, x, r);
      TableStepKeeps(s, Resolve(s.m, d, x, r));
    case Shutdown =>
      CloseAllCoherent(s.m);
      TableStepKeeps(s, CloseAll(s.m));
    case Gate(t) => SendStepKeeps(s, e, t);
    case SendDone(t) => SendStepKeeps(s, e, t);
    case SendFailed(t) => SendFailedKeeps(s, t);
    case Wake(t) => FinishKeeps(s, t, Delivered(s.m.waiters[t].future));
    case TimeOut(t) => FinishKeeps(s, t, Raised(TimeoutFault));
    case Cancel(t) => FinishKeeps(s, t, Raised(CancelFault));
  }

  lemma SubmitKeeps(s: Hub, c: Command, timeout: int, now: int)
    requires Inv(s)
    ensures var s' := Apply(s, Submit(c, timeout, now)); Inv(s') && Evolves(s.m, s'.m)
  {
    RegisterCoherent(s.m, c, timeout, now);
    var s' := Apply(s, Submit(c, timeout, now));
    forall u: nat | u < |s'.phases|
      ensures CallConserved(s', u)
    {
      assert u < |s.phases| ==> CallConserved(s, u) && WaiterOk(s.m, u);
      assert WaiterOk(s'.m, u);
    }
  }

  /** The machine gets from s to s' by these events, one after the other. */
  predicate Reaches(s: Hub, es: seq<Event>, s': Hub)
    decreases es
  {
    if es == [] then s' == s
    else Shaped(s) && Enabled(s, es[0]) && Reaches(Apply(s, es[0]), es[1..], s')
  }
}
