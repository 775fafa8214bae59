/** What each operation of the manager leaves behind and how each execution ends, said field by field, and one
    command's whole way from connecting its device to returning the reply. */
module CommandEffects {
  import opened Domain
  import opened Tables
  import opened Commands
  import opened CommandRuns

  // ---------- The tables ----------

  lemma ConnectEffect(m: Tables, d: Id, s: Id, transport: Id, now: int)
    ensures var m' := Connect(m, d, s, transport, now);
      && m'.connections == m.connections[d := Connection(s, transport, Connecting, {}, {}, now, now)]
      && m'.sessions == m.sessions + {s}
      && (forall c :: c in m'.pending <==> c in m.pending && m.pending[c].device != d)
      && (forall c <- m'.pending :: m'.pending[c] == m.pending[c])
  {}

  lemma DisconnectDeviceEffect(m: Tables, d: Id)
    ensures var m' := DisconnectDevice(m, d);
      && m'.connections == m.connections - {d} && m'.sessions == m.sessions
      && (forall c :: c in m'.pending <==> c in m.pending && m.pending[c].device != d)
      && (forall c <- m'.pending :: m'.pending[c] == m.pending[c])
  {}

  lemma DisconnectEffect(m: Tables, d: Id, s: Id)
    ensures Disconnect(m, d, s) ==
      if d in m.connections && m.connections[d].session == s then DisconnectDevice(m, d) else m
  {}

  /** An accepted activation sets ONLINE, both capability sets and the time, and nothing else; a refused one changes
      nothing. */
  lemma ActivateEffect(m: Tables, d: Id, s: Id, adv: set<Capability>, eff: set<Capability>, now: int)
    ensures var m', outcome := Activate(m, d, s, adv, eff, now), ActivateOutcome(m, d, s, adv, eff);
      if !(eff <= adv) then outcome == NotAdvertised && m' == m
      else if d !in m.connections || m.connections[d].session != s then outcome == NotCurrent && m' == m
      else
        var c := m.connections[d];
        && outcome == Activated
        && m' == m.(connections :=
             m.connections[d := Connection(s, c.transport, Online, adv, eff, c.connectedAt, now)])
  {}

  lemma TouchEffect(m: Tables, d: Id, s: Id, now: int)
    ensures var m' := Touch(m, d, s, now);
      if d !in m.connections || m.connections[d].session != s then m' == m
      else
        var c := m.connections[d];
        m' == m.(connections := m.connections[d :=
          Connection(s, c.transport, c.status, c.advertised, c.effective, c.connectedAt, now)])
  {}

  /** A command is admitted exactly if none of five things is wrong, and the first that is names the error. */
  lemma AdmissionIs(m: Tables, c: Command, timeout: int, now: int)
    ensures var a := Admit(m, c, timeout, now);
      var online := c.device in m.connections && m.connections[c.device].status == Online;
      var early, able := timeout > 0 && now < c.deadlineAt, online && c.capability in m.connections[c.device].effective;
      && (a == Admitted <==> early && able && c.id !in m.pending)
      && (a == BadTimeout <==> timeout <= 0)
      && (a == DeadlinePassed <==> timeout > 0 && c.deadlineAt <= now)
      && (a == DeviceOffline <==> early && !online)
      && (a == NotEffective <==> early && online && !able)
      && (a == AlreadyPending <==> early && able && c.id in m.pending)
  {}

  /** An admitted command is filed under its id with a new ticket and an open future; another changes nothing. */
  lemma RegisterEffect(m: Tables, c: Command, timeout: int, now: int)
    ensures var m' := Register(m, c, timeout, now);
      if Admit(m, c, timeout, now) != Admitted then m' == m
      else
        var s, t := m.connections[c.device].session, |m.waiters|;
        m' == Tables(m.connections, m.pending[c.id := Entry(c.device, s, t)], m.waiters + [Waiter(c, s, Open)],
                     m.sessions)
  {}

  /** A reply that names no waiting command is refused and changes nothing. */
  lemma UnknownReplyRefused(m: Tables, d: Id, s: Id, r: Reply)
    requires WellFiled(m) && r.command !in m.pending
    ensures !Accepts(m, d, s, r) && Resolve(m, d, s, r) == m
  {}

  /** What cleanup does to its own waiter: an open future is cancelled, a done one is kept. */
  lemma CleanupEffect(m: Tables, t: nat)
    requires Coherent(m) && t < |m.waiters|
    ensures var w, w' := m.waiters[t], Cleanup(m, t).waiters[t];
      && !Listed(Cleanup(m, t), t)
      && w' == (if w.future.Open? then Waiter(w.command, w.session, Cancelled) else w)
      && Cleanup(m, t).sessions == m.sessions
  {
    assert WaiterOk(m, t);
  }

  /** The events of other operations are those operations on the tables, and leave executions and send locks alone. */
  lemma OperationEvents(s: Hub, e: Event)
    requires Shaped(s) && Enabled(s, e)
    ensures !e.Submit? && !e.Gate? && !e.SendDone? && !e.SendFailed? && !e.Wake? && !e.TimeOut? && !e.Cancel? ==>
      Apply(s, e).phases == s.phases && Apply(s, e).holder == s.holder
    ensures e.Join? ==> Apply(s, e).m == Connect(s.m, e.device, e.session, e.transport, e.now)
    ensures e.Activation? ==> Apply(s, e).m == Activate(s.m, e.device, e.session, e.advertised, e.effective, e.now)
    ensures e.Leave? ==> Apply(s, e).m == Disconnect(s.m, e.device, e.session)
    ensures e.Evict? ==> Apply(s, e).m == DisconnectDevice(s.m, e.device)
    ensures e.Seen? ==> Apply(s, e).m == Touch(s.m, e.device, e.session, e.now)
    ensures e.Answer? ==> Apply(s, e).m == Resolve(s.m, e.device, e.session, e.reply)
    ensures e.Shutdown? ==> Apply(s, e).m == CloseAll(s.m)
  {}

  // ---------- How an execution ends ----------

  /** Why execution t ends in this step, and with what. */
  predicate EndsWith(s: Hub, e: Event, t: nat, o: Outcome)
    requires |s.phases| == |s.m.waiters| && t < |s.phases|
  {
    var f := s.m.waiters[t].future;
    match o
    case Returned(r) => e == Wake(t) && f == Resolved(r)
    case Raised(OfflineFault) => (e == Gate(t) && !StillCurrent(s.m, t)) || (e == Wake(t) && f.Failed?)
    case Raised(SendFault) => e == SendFailed(t)
    case Raised(TimeoutFault) => e == TimeOut(t)
    case Raised(CancelFault) => e == Cancel(t)
  }

  /** A live execution ends in a step with an outcome exactly if that step is a reason for it. */
  lemma EndsExactly(s: Hub, e: Event, t: nat, o: Outcome)
    requires Inv(s) && Enabled(s, e) && Live(s, t)
    ensures Apply(s, e).phases[t] == Finished(o) <==> EndsWith(s, e, t, o)
  {
    assert CallConserved(s, t);
  }

  /** One that does not end goes from queueing to sending to waiting by its own two steps, and stays otherwise. */
  lemma GoesOnExactly(s: Hub, e: Event, t: nat)
    requires Inv(s) && Enabled(s, e) && t < |s.phases| && !Apply(s, e).phases[t].Finished?
    ensures Apply(s, e).phases[t] ==
      if e == Gate(t) then Sending else if e == SendDone(t) then Awaiting else s.phases[t]
  {}

  lemma FinishedStays(s: Hub, e: Event, t: nat)
    requires Inv(s) && Enabled(s, e) && t < |s.phases| && s.phases[t].Finished?
    ensures Apply(s, e).phases[t] == s.phases[t]
  {}

  /** New executions begin by queueing, and only a command that is admitted begins one. */
  lemma BeginsExactly(s: Hub, e: Event)
    requires Inv(s) && Enabled(s, e)
    ensures var s' := Apply(s, e);
      if e.Submit? && Admit(s.m, e.command, e.timeout, e.now) == Admitted
      then |s'.phases| == |s.phases| + 1 && s'.phases[|s.phases|] == Queued
      else |s'.phases| == |s.phases|
  {}

  /** What sending does to the tables: nothing, unless it fails, and then what disconnecting the session does. */
  lemma SendingEffect(s: Hub, t: nat)
    requires Inv(s) && t < |s.phases|
    ensures Enabled(s, SendDone(t)) ==> Apply(s, SendDone(t)).m == s.m
    ensures Enabled(s, Gate(t)) && StillCurrent(s.m, t) ==> Apply(s, Gate(t)).m == s.m
    ensures Enabled(s, SendFailed(t)) ==>
      var m' := Apply(s, SendFailed(t)).m;
      && !Current(m', DeviceOf(s, t), SessionOf(s, t))
      && (!StillCurrent(s.m, t) ==> m'.connections == s.m.connections)
      && (StillCurrent(s.m, t) ==> m'.connections == s.m.connections - {DeviceOf(s, t)})
  {}

  /** The send lock of a session is taken by the gate that passes and given back when that send ends, in any way. */
  lemma LockEffect(s: Hub, e: Event)
    requires Inv(s) && Enabled(s, e)
    ensures Apply(s, e).holder ==
      if e.Gate? && StillCurrent(s.m, e.ticket) then s.holder[SessionOf(s, e.ticket) := e.ticket]
      else if e.SendDone? || e.SendFailed? || (e.Cancel? && s.phases[e.ticket].Sending?)
      then s.holder - {SessionOf(s, e.ticket)}
      else s.holder
  {}

  // ---------- Replies come back ----------

  /** An execution that wakes after a reply was accepted for it returns exactly that reply. */
  lemma AcceptedReplyIsReturned(ss: seq<Hub>, es: seq<Event>, i: nat, j: nat, t: nat)
    requires IsRun(ss, es) && AcceptedAt(ss, es, j, t) && j < i < |es| && es[i] == Wake(t)
    ensures t < |ss[i + 1].phases| && ss[i + 1].phases[t] == Finished(Returned(es[j].reply))
  {
    RunInv(ss, es, j);
    RunInv(ss, es, i);
    RunEvolves(ss, es, j + 1, i);
    EndsExactly(ss[i], es[i], t, Returned(es[j].reply));
  }

  /** And it can wake as soon as it waits: nothing else has to happen. */
  lemma AcceptedReplyCanBeReturned(ss: seq<Hub>, es: seq<Event>, i: nat, j: nat, t: nat)
    requires IsRun(ss, es) && AcceptedAt(ss, es, j, t) && j < i < |ss|
    ensures t < |ss[i].phases|
    ensures ss[i].phases[t] == Awaiting ==>
      Shaped(ss[i]) && Enabled(ss[i], Wake(t)) && Apply(ss[i], Wake(t)).phases[t] == Finished(Returned(es[j].reply))
  {
    RunInv(ss, es, j);
    RunInv(ss, es, i);
    RunEvolves(ss, es, j + 1, i);
    if ss[i].phases[t] == Awaiting {
      EndsExactly(ss[i], Wake(t), t, Returned(es[j].reply));
    }
  }

  /** A device comes online. */
  function Opening(d: Id, x: Id, transport: Id, adv: set<Capability>, eff: set<Capability>, now: int): seq<Event> {
    [Join(d, x, transport, now), Activation(d, x, adv, eff, now)]
  }

  /** A queueing execution sends, is answered and wakes. */
  function Returning(t: nat, d: Id, x: Id, r: Reply): seq<Event> {
    [Gate(t), SendDone(t), Answer(d, x, r), Wake(t)]
  }

  lemma NewSessionUnlocked(s: Hub, x: Id)
    requires Inv(s) && x !in s.m.sessions
    ensures x !in s.holder
  {}

  lemma Connected(s: Hub, d: Id, x: Id, transport: Id, adv: set<Capability>, eff: set<Capability>, now: int)
    returns (s': Hub)
    requires Inv(s) && x !in s.m.sessions && eff <= adv
    ensures Reaches(s, Opening(d, x, transport, adv, eff, now), s') && Inv(s')
    ensures s'.m.connections == s.m.connections[d := Connection(x, transport, Online, adv, eff, now, now)]
    ensures s'.phases == s.phases && s'.holder == s.holder && s'.m.pending.Keys <= s.m.pending.Keys
  {
    var e, e' := Join(d, x, transport, now), Activation(d, x, adv, eff, now);
    InvPreserved(s, e);
    var s1 := Apply(s, e);
    ConnectEffect(s.m, d, x, transport, now);
    InvPreserved(s1, e');
    ActivateEffect(s1.m, d, x, adv, eff, now);
    s' := Apply(s1, e');
    assert [e, e'][1..] == [e'];
  }

  lemma Filed(s: Hub, c: Command, timeout: int, now: int) returns (s': Hub)
    requires Inv(s) && Admit(s.m, c, timeout, now) == Admitted
    ensures var t := |s.phases|;
      && Reaches(s, [Submit(c, timeout, now)], s') && Inv(s')
      && s'.phases == s.phases + [Queued] && s'.holder == s.holder && s'.m.connections == s.m.connections
      && Listed(s'.m, t) && s'.m.waiters[t] == Waiter(c, s.m.connections[c.device].session, Open)
  {
    InvPreserved(s, Submit(c, timeout, now));
    s' := Apply(s, Submit(c, timeout, now));
    RegisterEffect(s.m, c, timeout, now);
  }

  lemma Sent(s: Hub, t: nat) returns (s': Hub)
    requires Inv(s) && t < |s.phases| && s.phases[t] == Queued && StillCurrent(s.m, t) && SessionOf(s, t) !in s.holder
    ensures Reaches(s, [Gate(t), SendDone(t)], s') && Inv(s')
    ensures s'.phases == s.phases[t := Awaiting] && s'.holder == s.holder && s'.m == s.m
  {
    InvPreserved(s, Gate(t));
    var s1 := Apply(s, Gate(t));
    InvPreserved(s1, SendDone(t));
    s' := Apply(s1, SendDone(t));
    assert s'.phases == s.phases[t := Awaiting];
    assert [Gate(t), SendDone(t)][1..] == [SendDone(t)];
  }

  lemma Answered(s: Hub, t: nat, r: Reply) returns (s': Hub)
    requires Inv(s) && t < |s.phases| && s.phases[t] == Awaiting && Listed(s.m, t)
    requires r.command == s.m.waiters[t].command.id && r.device == DeviceOf(s, t)
    ensures Reaches(s, [Answer(DeviceOf(s, t), SessionOf(s, t), r), Wake(t)], s') && Inv(s')
    ensures s'.phases == s.phases[t := Finished(Returned(r))]
    ensures s'.holder == s.holder && s'.m.connections == s.m.connections
  {
    var e := Answer(DeviceOf(s, t), SessionOf(s, t), r);
    AnswerCompletesItsOwn(s, DeviceOf(s, t), SessionOf(s, t), r, t);
    InvPreserved(s, e);
    var s1 := Apply(s, e);
    InvPreserved(s1, Wake(t));
    s' := Apply(s1, Wake(t));
    assert [e, Wake(t)][1..] == [Wake(t)];
  }

  lemma Replied(s: Hub, t: nat, r: Reply) returns (s': Hub)
    requires Inv(s) && t < |s.phases| && s.phases[t] == Queued && Listed(s.m, t) && SessionOf(s, t) !in s.holder
    requires r.command == s.m.waiters[t].command.id && r.device == DeviceOf(s, t)
    ensures Reaches(s, Returning(t, DeviceOf(s, t), SessionOf(s, t), r), s')
    ensures s'.phases == s.phases[t := Finished(Returned(r))]
    ensures s'.holder == s.holder && s'.m.connections == s.m.connections
  {
    assert WaiterOk(s.m, t);
    var s1 := Sent(s, t);
    s' := Answered(s1, t, r);
    var first, second := [Gate(t), SendDone(t)], [Answer(DeviceOf(s, t), SessionOf(s, t), r), Wake(t)];
    ReachesOn(s, first, s1, second, s');
    assert first + second == Returning(t, DeviceOf(s, t), SessionOf(s, t), r);
  }

  lemma {:induction false} ReachesOn(s: Hub, es: seq<Event>, s1: Hub, es1: seq<Event>, s2: Hub)
    requires Reaches(s, es, s1) && Reaches(s1, es1, s2)
    ensures Reaches(s, es + es1, s2)
    decreases |es|
  {
    if es == [] {
      assert es + es1 == es1;
    } else {
      ReachesOn(Apply(s, es[0]), es[1..], s1, es1, s2);
      assert (es + es1)[1..] == es[1..] + es1;
    }
  }

  /** From any state of the manager, a device that connects with a new session and is activated for a capability can
      be sent a command that needs it, and the reply it gives is what the command's caller gets. */
  lemma CommandRoundTrip(s: Hub, x: Id, transport: Id, adv: set<Capability>, eff: set<Capability>,
                         c: Command, timeout: int, now: int, r: Reply) returns (s': Hub)
    requires Inv(s) && x !in s.m.sessions && eff <= adv && c.capability in eff
    requires timeout > 0 && now < c.deadlineAt && c.id !in s.m.pending
    requires r.command == c.id && r.device == c.device
    ensures Reaches(s, Opening(c.device, x, transport, adv, eff, now) + [Submit(c, timeout, now)]
                       + Returning(|s.phases|, c.device, x, r), s')
    ensures s'.phases == s.phases + [Finished(Returned(r))] && s'.holder == s.holder
    ensures s'.m.connections == s.m.connections[c.device := Connection(x, transport, Online, adv, eff, now, now)]
  {
    var t := |s.phases|;
    NewSessionUnlocked(s, x);
    var s1 := Connected(s, c.device, x, transport, adv, eff, now);
    AdmissionIs(s1.m, c, timeout, now);
    var s2 := Filed(s1, c, timeout, now);
    s' := Replied(s2, t, r);
    var first := Opening(c.device, x, transport, adv, eff, now);
    ReachesOn(s, first, s1, [Submit(c, timeout, now)], s2);
    ReachesOn(s, first + [Submit(c, timeout, now)], s2, Returning(t, c.device, x, r), s');
  }
}
