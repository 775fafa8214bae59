/** What each step of a gateway does to the session, its socket and the manager, and a session's whole way from
    connecting to returning a command's reply. */
module GatewayEffects {
  import opened Domain
  import opened Transport
  import Tables
  import Commands
  import Chains
  import CommandRuns
  import CommandEffects
  import GatewayRuns
  import opened Gateway

  // ---------- Commands on the wire ----------

  /** The execution has ended with this fault, its session is not current, and no other execution has moved. */
  predicate SendFailedOnly(h: Commands.Hub, h': Commands.Hub, t: nat)
    requires |h.phases| == |h.m.waiters| && t < |h.phases|
  {
    && h'.phases == h.phases[t := Commands.Finished(Commands.Raised(Commands.SendFault))]
    && !Tables.Current(h'.m, Commands.DeviceOf(h, t), Commands.SessionOf(h, t))
  }

  /** A command frame that is written lets its execution wait for the answer and changes no table; a frame that fails
      ends its execution and disconnects its session. */
  lemma SendEndEffect(n: Net, s: Id, t: nat, ok: bool)
    requires Inv(n) && Enabled(n, Finish(s, Sender(t), ok))
    ensures var n' := Next(n, Finish(s, Sender(t), ok));
      && n'.sessions == n.sessions[s := n.sessions[s].(wire := Done(n.sessions[s].wire))]
      && (ok ==> n'.hub.m == n.hub.m && n'.hub.phases == n.hub.phases[t := Commands.Awaiting])
      && (!ok ==> SendFailedOnly(n.hub, n'.hub, t))
  {
    SendReturned(n.hub, t);
  }

  lemma SendReturned(h: Commands.Hub, t: nat)
    requires Commands.Inv(h) && t < |h.phases| && h.phases[t].Sending?
    ensures SendFailedOnly(h, Commands.Apply(h, Commands.SendFailed(t)), t)
    ensures var h' := Commands.Apply(h, Commands.SendDone(t));
      h'.m == h.m && h'.phases == h.phases[t := Commands.Awaiting]
  {}

  /** A queued command's turn: on an open transport its frame starts; a closed one refuses, which is a failed send. */
  lemma SendTurnEffect(n: Net, s: Id, t: nat)
    requires Inv(n) && Enabled(n, Grant(s, Sender(t)))
    ensures var n' := Next(n, Grant(s, Sender(t)));
      var w, w' := n.sessions[s].wire, n'.sessions[s].wire;
      && w'.queue == w.queue - {Sender(t)}
      && (!w.closed ==> n'.hub == n.hub && w'.sent == w.sent + [Execute(t)] && w'.busy == Some(Sender(t)))
      && (w.closed ==> SendFailedOnly(n.hub, n'.hub, t) && w'.sent == w.sent && w'.busy == w.busy)
  {
    assert SessionOk(n.sessions[s], IsCurrent(n, s), n.hub);
    SendReturned(n.hub, t);
  }

  /** The gate: without the connection the execution ends offline and nothing is sent; with it the frame starts on that
      connection's own transport, waits for its lock, or is refused by a closed one. */
  lemma GateEffect(n: Net, t: nat)
    requires Inv(n) && Enabled(n, Gate(t))
    ensures var n', s := Next(n, Gate(t)), Commands.SessionOf(n.hub, t);
      var w := n.sessions[s].wire;
      if !Tables.Current(n.hub.m, Commands.DeviceOf(n.hub, t), s) then
        && n'.hub.phases == n.hub.phases[t := Commands.Finished(Commands.Raised(Commands.OfflineFault))]
        && n'.sessions == n.sessions && n'.hub.m.connections == n.hub.m.connections
      else if w.busy.None? && w.queue == map[] && w.closed then
        SendFailedOnly(n.hub, n'.hub, t) && n'.sessions == n.sessions
      else
        && n'.hub.m == n.hub.m && n'.hub.phases == n.hub.phases[t := Commands.Sending]
        && n'.sessions == n.sessions[s := n.sessions[s].(wire := n'.sessions[s].wire)]
        && (if w.busy.None? && w.queue == map[]
            then n'.sessions[s].wire == Wire(Some(Sender(t)), map[], false, w.sent + [Execute(t)], w.closes)
            else n'.sessions[s].wire == w.(queue := w.queue[Sender(t) := Send(Execute(t))]))
  {
    GateTables(n.hub, t);
  }

  lemma GateTables(h: Commands.Hub, t: nat)
    requires Commands.Inv(h) && Commands.Enabled(h, Commands.Gate(t))
    ensures var h' := Commands.Apply(h, Commands.Gate(t));
      if Tables.StillCurrent(h.m, t) then
        && h'.m == h.m && h'.phases == h.phases[t := Commands.Sending]
        && var h'' := Commands.Apply(h', Commands.SendFailed(t));
           SendFailedOnly(h, h'', t)
      else
        && h'.m.connections == h.m.connections
        && h'.phases == h.phases[t := Commands.Finished(Commands.Raised(Commands.OfflineFault))]
  {}

  /** A cancelled send leaves the wire, whether it waited or was being written. */
  lemma CancelSendEffect(n: Net, t: nat)
    requires Inv(n) && Enabled(n, CancelSend(t))
    ensures var n', s := Next(n, CancelSend(t)), Commands.SessionOf(n.hub, t);
      && n'.hub.phases == n.hub.phases[t := Commands.Finished(Commands.Raised(Commands.CancelFault))]
      && n'.hub.m.connections == n.hub.m.connections
      && !Uses(n'.sessions[s].wire, Sender(t)) && n'.sessions[s].wire.sent == n.sessions[s].wire.sent
      && n'.sessions - {s} == n.sessions - {s}
  {}

  // ---------- The handler ----------

  /** The handler wants to send f and go on to a stage: it does so at once, queues for it, or is refused, which
      leaves it nothing but to close. */
  predicate HandlerSent(x: Session, x': Session, f: Frame, then_: Stage) {
    var w := x.wire;
    if w.busy.None? && w.queue == map[] then
      if w.closed then x' == x.(stage := Closing)
      else x' == x.(stage := then_, wire := Wire(Some(Handler), map[], false, w.sent + [f], w.closes))
    else x' == x.(stage := then_, wire := w.(queue := w.queue[Handler := Send(f)]))
  }

  predicate OnlySession(n: Net, n': Net, s: Id) {
    s in n'.sessions && n'.hub == n.hub && n'.sessions == n.sessions[s := n'.sessions[s]]
  }

  /** Hello greets, a rejected result is reported, an error is reported before closing, the heartbeat pings. */
  lemma FramesOfSteps(n: Net, s: Id)
    requires Commands.Shaped(n.hub) && s in n.sessions
    ensures Enabled(n, SendHello(s)) ==> var n' := Next(n, SendHello(s));
      OnlySession(n, n', s) && HandlerSent(n.sessions[s], n'.sessions[s], Hello, HelloPending)
    ensures Enabled(n, Reject(s)) ==> var n' := Next(n, Reject(s));
      OnlySession(n, n', s) && HandlerSent(n.sessions[s], n'.sessions[s], Rejected, Serving)
    ensures Enabled(n, ReportError(s)) ==> var n' := Next(n, ReportError(s));
      OnlySession(n, n', s) && HandlerSent(n.sessions[s], n'.sessions[s], ProtocolError, Closing)
    ensures Enabled(n, Beat(s)) ==> var n' := Next(n, Beat(s));
      OnlySession(n, n', s) && n'.sessions[s] == n.sessions[s].(wire := Ask(n.sessions[s].wire, Heartbeat, Send(Ping)))
  {}

  /** A greeting is read, an error is met, a handler leaves with its heartbeat. */
  lemma StagesOfSteps(n: Net, s: Id)
    requires Commands.Shaped(n.hub) && s in n.sessions
    ensures Enabled(n, HelloArrives(s)) ==>
      Next(n, HelloArrives(s)) == Put(n, s, n.sessions[s].(stage := Activating))
    ensures Enabled(n, Fail(s)) ==> Next(n, Fail(s)) == Put(n, s, n.sessions[s].(stage := Failing))
    ensures Enabled(n, Exit(s)) ==> var n' := Next(n, Exit(s));
      && OnlySession(n, n', s) && n'.sessions[s].stage == Gone && !n'.sessions[s].beating
      && !Uses(n'.sessions[s].wire, Handler) && !Uses(n'.sessions[s].wire, Heartbeat)
      && n'.sessions[s].wire.sent == n.sessions[s].wire.sent
  {}

  /** The end of the handler's own send moves it on, or leaves it nothing but to close; ready starts the heartbeat. */
  lemma HandlerSendEnds(n: Net, s: Id, ok: bool)
    requires Commands.Shaped(n.hub) && Enabled(n, Finish(s, Handler, ok))
    ensures var n', x := Next(n, Finish(s, Handler, ok)), n.sessions[s];
      && OnlySession(n, n', s)
      && n'.sessions[s].wire == Done(x.wire)
      && (x.stage == HelloPending ==> n'.sessions[s].stage == if ok then AwaitHello else Closing)
      && (x.stage == ReadyPending ==> n'.sessions[s].stage == (if ok then Serving else Closing)
                                      && n'.sessions[s].beating == (x.beating || ok))
      && (x.stage == Serving ==> n'.sessions[s].stage == if ok then Serving else Closing)
      && (x.stage == Closing ==> n'.sessions[s].stage == Closing)
      && (x.stage != ReadyPending ==> n'.sessions[s].beating == x.beating)
  {}

  /** The handler's turn at the wire, after it had to queue. */
  lemma HandlerTurnEffect(n: Net, s: Id)
    requires Inv(n) && Enabled(n, Grant(s, Handler))
    ensures var n', x := Next(n, Grant(s, Handler)), n.sessions[s];
      var r := x.wire.queue[Handler];
      && OnlySession(n, n', s)
      && n'.sessions[s].wire == Start(x.wire.(queue := x.wire.queue - {Handler}), Handler, r)
      && (n'.sessions[s].stage == if x.wire.closed && r.Send? && x.stage != Closing then Closing else x.stage)
  {
    assert SessionOk(n.sessions[s], IsCurrent(n, s), n.hub);
  }

  /** The reader's activations: an accepted one is acknowledged, with ready the first time; a refused one is an
      error to be reported. */
  lemma ActivationEffect(n: Net, e: Event)
    requires Inv(n) && Enabled(n, e) && (e.ActivateHello? || e.Update?)
    ensures var n', s, x := Next(n, e), e.session, n.sessions[e.session];
      && s in n'.sessions
      && n'.hub == Commands.Apply(n.hub, Commands.Activation(x.device, s, e.advertised, e.effective, e.now))
      && n'.sessions == n.sessions[s := n'.sessions[s]]
      && if e.effective <= e.advertised && Tables.Current(n.hub.m, x.device, s)
         then
           if e.Update? then HandlerSent(x, n'.sessions[s], Ack, Serving)
           else HandlerSent(x, n'.sessions[s], Ready, ReadyPending)
         else n'.hub == n.hub && n'.sessions[s] == x.(stage := Failing)
  {
    CommandEffects.ActivateEffect(n.hub.m, n.sessions[e.session].device, e.session, e.advertised, e.effective, e.now);
  }

  // ---------- Closing ----------

  /** Every closer asks for the transport's lock with a close: the handler itself, the heartbeat after a timeout, and
      the task that shutdown has started. */
  lemma CloseEffect(n: Net, s: Id)
    requires Commands.Shaped(n.hub) && s in n.sessions
    ensures Enabled(n, HandlerClose(s)) ==>
      Next(n, HandlerClose(s)) ==
        Put(n, s, n.sessions[s].(stage := Closing, wire := Ask(n.sessions[s].wire, Handler, Close)))
    ensures Enabled(n, BeatClose(s)) ==>
      Next(n, BeatClose(s)) == Put(n, s, n.sessions[s].(wire := Ask(n.sessions[s].wire, Heartbeat, Close)))
    ensures Enabled(n, StartClose(s)) ==>
      Next(n, StartClose(s)) ==
        Put(n, s, n.sessions[s].(due := false, wire := Ask(n.sessions[s].wire, Evictor, Close)))
    ensures Enabled(n, CutEvictor(s)) ==>
      Next(n, CutEvictor(s)) == Put(n, s, n.sessions[s].(wire := Withdraw(n.sessions[s].wire, Evictor)))
  {}

  /** Taking a device's connection away asks that connection's own transport to close, and no other. */
  lemma EvictionEffect(n: Net, e: Event, d: Id)
    requires Inv(n) && Enabled(n, e) && (e == Evict(d) || (e.Join? && e.device == d))
    ensures var n' := Next(n, e);
      && (forall s <- n.sessions :: s in n'.sessions && n'.sessions[s] ==
            if Tables.Current(n.hub.m, d, s)
            then n.sessions[s].(wire := Ask(n.sessions[s].wire, Evictor, Close)) else n.sessions[s])
      && (e.Evict? ==> n'.sessions.Keys == n.sessions.Keys && n'.hub == Commands.Apply(n.hub, Commands.Evict(d)))
      && (e.Join? ==>
            && n'.sessions.Keys == n.sessions.Keys + {e.session}
            && n'.sessions[e.session] == Session(e.session, d, Joined, false, false, Wire(None, map[], false, [], []))
            && n'.hub == Commands.Apply(n.hub, Commands.Join(d, e.session, e.transport, e.now)))
  {
    forall s <- n.sessions
      ensures n.sessions[s].id == s && (Tables.Current(n.hub.m, d, s) ==> n.sessions[s].device == d)
    {}
  }

  /** Shutdown makes a close due on exactly the current sessions. */
  lemma ShutdownEffect(n: Net)
    requires Inv(n)
    ensures var n' := Next(n, Shutdown);
      && n'.hub == Commands.Apply(n.hub, Commands.Shutdown) && n'.sessions.Keys == n.sessions.Keys
      && forall s <- n.sessions :: n'.sessions[s] == n.sessions[s].(due := n.sessions[s].due || IsCurrent(n, s))
  {
    forall s <- n.sessions
      ensures IsCurrent(n, s) ==> !n.sessions[s].due
    {
      assert SessionOk(n.sessions[s], IsCurrent(n, s), n.hub);
    }
  }

  /** The heartbeat's and a closer's turn, and the end of what they did, concern the wire alone. */
  lemma OthersTurnEffect(n: Net, s: Id, a: Actor)
    requires Commands.Shaped(n.hub) && (a == Heartbeat || a == Evictor)
    ensures Enabled(n, Grant(s, a)) ==>
      var w := n.sessions[s].wire;
      Next(n, Grant(s, a)) ==
        Put(n, s, n.sessions[s].(wire := Start(w.(queue := w.queue - {a}), a, w.queue[a])))
    ensures forall ok :: Enabled(n, Finish(s, a, ok)) ==>
      Next(n, Finish(s, a, ok)) == Put(n, s, n.sessions[s].(wire := Done(n.sessions[s].wire)))
  {}

  // ---------- A session's way ----------

  ghost predicate Moves(n: Net, e: Event, n': Net) {
    Commands.Shaped(n.hub) && Enabled(n, e) && n' == Next(n, e)
  }

  ghost predicate Goes(n: Net, es: seq<Event>, n': Net) {
    Chains.Chain(Moves, n, es, n')
  }

  lemma Step(n: Net, e: Event) returns (n': Net)
    requires Inv(n) && Enabled(n, e)
    ensures n' == Next(n, e) && Inv(n') && Goes(n, [e], n')
  {
    InvPreserved(n, e);
    n' := Next(n, e);
    Chains.One(Moves, n, e, n');
  }

  lemma GoesOn(n: Net, es: seq<Event>, n1: Net, es1: seq<Event>, n2: Net)
    requires Goes(n, es, n1) && Goes(n1, es1, n2)
    ensures Goes(n, es + es1, n2)
  {
    Chains.Append(Moves, n, es, n1, es1, n2);
  }

  /** Greeted: hello is on the socket and the handler waits for the device's own. */
  lemma Greeted(n: Net, d: Id, s: Id, transport: Id, now: int) returns (n': Net)
    requires Inv(n) && s !in n.sessions && s !in n.hub.m.sessions
    ensures Inv(n') && Goes(n, [Join(d, s, transport, now)] + [SendHello(s)] + [Finish(s, Handler, true)], n')
    ensures n'.hub == Commands.Apply(n.hub, Commands.Join(d, s, transport, now))
    ensures s in n'.sessions
    ensures n'.sessions[s] == Session(s, d, AwaitHello, false, false, Wire(None, map[], false, [Hello], []))
  {
    var n1 := Step(n, Join(d, s, transport, now));
    EvictionEffect(n, Join(d, s, transport, now), d);
    var n2 := Step(n1, SendHello(s));
    FramesOfSteps(n1, s);
    n' := Step(n2, Finish(s, Handler, true));
    HandlerSendEnds(n2, s, true);
    GoesOn(n, [Join(d, s, transport, now)], n1, [SendHello(s)], n2);
    GoesOn(n, [Join(d, s, transport, now)] + [SendHello(s)], n2, [Finish(s, Handler, true)], n');
  }

  /** Activated: the device's greeting activates the session, and ready starts at once. */
  lemma Readied(n: Net, s: Id, adv: set<Capability>, eff: set<Capability>, now: int) returns (n': Net)
    requires Inv(n) && s in n.sessions && eff <= adv
    requires var d := n.sessions[s].device;
      && Tables.Current(n.hub.m, d, s)
      && n.sessions[s] == Session(s, d, AwaitHello, false, false, Wire(None, map[], false, [Hello], []))
    ensures Inv(n') && Goes(n, [HelloArrives(s)] + [ActivateHello(s, adv, eff, now)], n')
    ensures var d := n.sessions[s].device;
      && n'.hub == Commands.Apply(n.hub, Commands.Activation(d, s, adv, eff, now))
      && s in n'.sessions
      && n'.sessions[s] ==
           Session(s, d, ReadyPending, false, false, Wire(Some(Handler), map[], false, [Hello, Ready], []))
  {
    var n1 := Step(n, HelloArrives(s));
    StagesOfSteps(n, s);
    n' := Step(n1, ActivateHello(s, adv, eff, now));
    ActivationEffect(n1, ActivateHello(s, adv, eff, now));
    assert [Hello] + [Ready] == [Hello, Ready];
    GoesOn(n, [HelloArrives(s)], n1, [ActivateHello(s, adv, eff, now)], n');
  }

  /** Opened: ready is on the socket, and reader and heartbeat begin. */
  lemma Opened(n: Net, s: Id, adv: set<Capability>, eff: set<Capability>, now: int) returns (n': Net)
    requires Inv(n) && s in n.sessions && eff <= adv
    requires var d := n.sessions[s].device;
      && Tables.Current(n.hub.m, d, s)
      && n.sessions[s] == Session(s, d, AwaitHello, false, false, Wire(None, map[], false, [Hello], []))
    ensures Inv(n')
    ensures Goes(n, [HelloArrives(s)] + [ActivateHello(s, adv, eff, now)] + [Finish(s, Handler, true)], n')
    ensures var d := n.sessions[s].device;
      && n'.hub == Commands.Apply(n.hub, Commands.Activation(d, s, adv, eff, now))
      && s in n'.sessions
      && n'.sessions[s] == Session(s, d, Serving, true, false, Wire(None, map[], false, [Hello, Ready], []))
  {
    var n1 := Readied(n, s, adv, eff, now);
    n' := Step(n1, Finish(s, Handler, true));
    HandlerSendEnds(n1, s, true);
    GoesOn(n, [HelloArrives(s)] + [ActivateHello(s, adv, eff, now)], n1, [Finish(s, Handler, true)], n');
  }

  /** From any state, a device that connects, greets and is activated is served: hello and ready are on its socket, in
      this order and alone, and the manager shows it ONLINE with its capabilities. */
  lemma SessionOpens(n: Net, d: Id, s: Id, transport: Id, adv: set<Capability>, eff: set<Capability>, now: int)
    returns (n': Net)
    requires Inv(n) && s !in n.sessions && s !in n.hub.m.sessions && eff <= adv
    ensures Inv(n')
    ensures Goes(n, [Join(d, s, transport, now)] + [SendHello(s)] + [Finish(s, Handler, true)]
                    + ([HelloArrives(s)] + [ActivateHello(s, adv, eff, now)] + [Finish(s, Handler, true)]), n')
    ensures s in n'.sessions
    ensures n'.sessions[s] == Session(s, d, Serving, true, false, Wire(None, map[], false, [Hello, Ready], []))
    ensures d in n'.hub.m.connections
    ensures n'.hub.m.connections[d] == Tables.Connection(s, transport, Online, adv, eff, now, now)
  {
    var n1 := Greeted(n, d, s, transport, now);
    CommandEffects.ConnectEffect(n.hub.m, d, s, transport, now);
    n' := Opened(n1, s, adv, eff, now);
    CommandEffects.ActivateEffect(n1.hub.m, d, s, adv, eff, now);
    GoesOn(n, [Join(d, s, transport, now)] + [SendHello(s)] + [Finish(s, Handler, true)], n1,
           [HelloArrives(s)] + [ActivateHello(s, adv, eff, now)] + [Finish(s, Handler, true)], n');
  }

  /** At the gate of a session with an idle transport an execution starts its command on that socket. */
  lemma Starts(n: Net, t: nat, s: Id) returns (n': Net)
    requires Inv(n) && Commands.Enabled(n.hub, Commands.Gate(t)) && Tables.StillCurrent(n.hub.m, t)
    requires s == Commands.SessionOf(n.hub, t) && s in n.sessions
    requires Idle(n.sessions[s].wire) && !n.sessions[s].wire.closed
    ensures Inv(n') && Goes(n, [Gate(t)], n')
    ensures s in n'.sessions && n'.sessions[s].wire.sent == n.sessions[s].wire.sent + [Execute(t)]
    ensures n'.sessions[s].wire.busy == Some(Sender(t)) && n'.sessions[s].wire.queue == map[]
    ensures Enabled(n', Finish(s, Sender(t), true))
    ensures n'.hub.m == n.hub.m && n'.hub.phases == n.hub.phases[t := Commands.Sending]
  {
    GateEffect(n, t);
    n' := Step(n, Gate(t));
  }

  /** And its execution waits once it is written. */
  lemma Written(n: Net, t: nat, s: Id) returns (n': Net)
    requires Inv(n) && s in n.sessions
    requires n.sessions[s].wire.busy == Some(Sender(t)) && n.sessions[s].wire.queue == map[]
    requires Enabled(n, Finish(s, Sender(t), true))
    ensures Inv(n') && Goes(n, [Finish(s, Sender(t), true)], n')
    ensures s in n'.sessions && n'.sessions[s].wire.sent == n.sessions[s].wire.sent && Idle(n'.sessions[s].wire)
    ensures n'.hub.m == n.hub.m && n'.hub.phases == n.hub.phases[t := Commands.Awaiting]
  {
    SendEndEffect(n, s, t, true);
    n' := Step(n, Finish(s, Sender(t), true));
  }

  lemma Replied(n: Net, t: nat, r: Tables.Reply) returns (n': Net)
    requires Inv(n) && t < |n.hub.phases| && n.hub.phases[t] == Commands.Awaiting && Tables.Listed(n.hub.m, t)
    requires r.command == n.hub.m.waiters[t].command.id && r.device == Commands.DeviceOf(n.hub, t)
    ensures var e := Commands.Answer(Commands.DeviceOf(n.hub, t), Commands.SessionOf(n.hub, t), r);
      Goes(n, [Routing(e)] + [Routing(Commands.Wake(t))], n')
    ensures n'.sessions == n.sessions && n'.hub.phases == n.hub.phases[t := Commands.Finished(Commands.Returned(r))]
  {
    var d, s := Commands.DeviceOf(n.hub, t), Commands.SessionOf(n.hub, t);
    var e := Commands.Answer(d, s, r);
    CommandRuns.AnswerCompletesItsOwn(n.hub, d, s, r, t);
    var n1 := Step(n, Routing(e));
    CommandEffects.EndsExactly(n1.hub, Commands.Wake(t), t, Commands.Returned(r));
    n' := Step(n1, Routing(Commands.Wake(t)));
    GoesOn(n, [Routing(e)], n1, [Routing(Commands.Wake(t))], n');
  }

  /** An execution at the gate of a session with an idle transport puts its command on that socket, and returns the
      reply that comes back on that session. */
  lemma CommandServed(n: Net, t: nat, s: Id, d: Id, r: Tables.Reply) returns (n': Net)
    requires Inv(n) && Commands.Enabled(n.hub, Commands.Gate(t)) && Tables.Listed(n.hub.m, t)
    requires s == Commands.SessionOf(n.hub, t) && d == Commands.DeviceOf(n.hub, t) == r.device && s in n.sessions
    requires Idle(n.sessions[s].wire) && !n.sessions[s].wire.closed && r.command == n.hub.m.waiters[t].command.id
    ensures Goes(n, [Gate(t)] + [Finish(s, Sender(t), true)]
                    + ([Routing(Commands.Answer(d, s, r))] + [Routing(Commands.Wake(t))]), n')
    ensures s in n'.sessions && n'.sessions[s].wire.sent == n.sessions[s].wire.sent + [Execute(t)]
    ensures n'.hub.phases == n.hub.phases[t := Commands.Finished(Commands.Returned(r))]
  {
    ListedIsCurrent(n, t);
    var n1 := Sent(n, t, s);
    n' := Replied(n1, t, r);
    GoesOn(n, [Gate(t)] + [Finish(s, Sender(t), true)], n1,
           [Routing(Commands.Answer(d, s, r))] + [Routing(Commands.Wake(t))], n');
  }

  lemma ListedIsCurrent(n: Net, t: nat)
    requires Inv(n) && Tables.Listed(n.hub.m, t)
    ensures Tables.StillCurrent(n.hub.m, t)
  {
    assert Tables.WaiterOk(n.hub.m, t);
  }

  lemma Sent(n: Net, t: nat, s: Id) returns (n': Net)
    requires Inv(n) && Commands.Enabled(n.hub, Commands.Gate(t)) && Tables.StillCurrent(n.hub.m, t)
    requires s == Commands.SessionOf(n.hub, t) && s in n.sessions
    requires Idle(n.sessions[s].wire) && !n.sessions[s].wire.closed
    ensures Inv(n') && Goes(n, [Gate(t)] + [Finish(s, Sender(t), true)], n')
    ensures s in n'.sessions && n'.sessions[s].wire.sent == n.sessions[s].wire.sent + [Execute(t)]
    ensures n'.hub.m == n.hub.m && n'.hub.phases == n.hub.phases[t := Commands.Awaiting]
  {
    var n1 := Starts(n, t, s);
    n' := Written(n1, t, s);
    UpdatedTwice(n.hub.phases, t, Commands.Sending, Commands.Awaiting);
    GoesOn(n, [Gate(t)], n1, [Finish(s, Sender(t), true)], n');
  }

  // ---------- What can happen when ----------

  /** Which step the handler can take at each stage, once it is not at the wire itself. */
  lemma StageAllows(n: Net, s: Id, adv: set<Capability>, eff: set<Capability>, now: int)
    requires Commands.Shaped(n.hub) && s in n.sessions
    ensures var at := StageAt(n.sessions[s]);
      && (Enabled(n, SendHello(s)) <==> at == Joined)
      && (Enabled(n, HelloArrives(s)) <==> at == AwaitHello)
      && (Enabled(n, ActivateHello(s, adv, eff, now)) <==> at == Activating)
      && (Enabled(n, Update(s, adv, eff, now)) <==> at == Serving)
      && (Enabled(n, Reject(s)) <==> at == Serving)
  {}

  /** The handler's stage, if it is not at the wire. */
  function StageAt(x: Session): Stage {
    if x.stage == Gone || Uses(x.wire, Handler) then Gone else x.stage
  }

  /** And which way out it has. */
  lemma WaysOut(n: Net, s: Id)
    requires Commands.Shaped(n.hub) && s in n.sessions
    ensures var at := StageAt(n.sessions[s]);
      && (Enabled(n, Fail(s)) <==> at == AwaitHello || at == Activating || at == Serving)
      && (Enabled(n, ReportError(s)) <==> at == Failing)
      && (Enabled(n, HandlerClose(s)) <==> at == AwaitHello || at == Activating || at == Serving || at == Closing)
      && (Enabled(n, Exit(s)) <==> n.sessions[s].stage != Gone)
  {}

  /** When the heartbeat and outside closers can act; evicting and shutting down are always possible, and connecting
      needs a new session. */
  lemma OthersMay(n: Net, s: Id, d: Id, transport: Id, now: int)
    requires Commands.Shaped(n.hub)
    ensures Enabled(n, Evict(d)) && Enabled(n, Shutdown)
    ensures Enabled(n, Join(d, s, transport, now)) <==> s !in n.sessions && s !in n.hub.m.sessions
    ensures s in n.sessions ==>
      var x := n.sessions[s];
      var beats := x.stage != Gone && x.beating && !Uses(x.wire, Heartbeat);
      && (Enabled(n, Beat(s)) <==> beats) && (Enabled(n, BeatClose(s)) <==> beats)
      && (Enabled(n, StartClose(s)) <==> x.due)
      && (Enabled(n, CutEvictor(s)) <==> Uses(x.wire, Evictor))
  {}

  /** The wire never stops: whoever is on it can finish, well or badly, and once it is free whoever waits can start. */
  lemma WireGoesOn(n: Net, s: Id, a: Actor, ok: bool)
    requires Inv(n) && s in n.sessions
    ensures Enabled(n, Finish(s, a, ok)) <==> n.sessions[s].wire.busy == Some(a)
    ensures Enabled(n, Grant(s, a)) <==> n.sessions[s].wire.busy == None && a in n.sessions[s].wire.queue
  {
    assert SessionOk(n.sessions[s], IsCurrent(n, s), n.hub);
  }

  // ---------- No send is forgotten ----------

  /** Every execution inside a send is on its own session's wire. */
  ghost predicate SendsOnWire(n: Net) {
    forall t: nat :: t < |n.hub.phases| && t < |n.hub.m.waiters| && n.hub.phases[t].Sending? ==> OnWire(n, t)
  }

  predicate OnWire(n: Net, t: nat)
    requires t < |n.hub.m.waiters|
  {
    var s := Commands.SessionOf(n.hub, t);
    s in n.sessions && Uses(n.sessions[s].wire, Sender(t))
  }

  lemma SendsStayOnWire(n: Net, e: Event)
    requires Inv(n) && SendsOnWire(n) && Enabled(n, e)
    ensures SendsOnWire(Next(n, e))
  {
    var n' := Next(n, e);
    InvPreserved(n, e);
    forall t: nat | t < |n'.hub.phases| && n'.hub.phases[t].Sending?
      ensures OnWire(n', t)
    {
      assert StillSends(n, e, t);
      SendStaysOnWire(n, e, t);
    }
  }

  /** Execution t sends after the step, and was on its wire if it sent before. */
  ghost predicate StillSends(n: Net, e: Event, t: nat)
    requires Inv(n) && Enabled(n, e)
  {
    var h' := Next(n, e).hub;
    && t < |h'.phases| == |h'.m.waiters| && h'.phases[t].Sending?
    && (t < |n.hub.phases| && n.hub.phases[t].Sending? ==> OnWire(n, t))
  }

  lemma SendStaysOnWire(n: Net, e: Event, t: nat)
    requires Inv(n) && Enabled(n, e) && StillSends(n, e, t)
    ensures OnWire(Next(n, e), t)
  {
    if OwnStep(e) {
      OwnStepKeepsSends(n, e, t);
    } else if e.Gate? {
      GateKeepsSends(n, e, t);
    } else if e.Grant? || e.Finish? {
      TurnKeepsSends(n, e, t);
    } else if e.CancelSend? {
      CancelKeepsSends(n, e, t);
    } else if e.ActivateHello? || e.Update? {
      ActivationKeepsSends(n, e, t);
    } else {
      HubStepKeepsSends(n, e, t);
    }
  }

  lemma OwnStepKeepsSends(n: Net, e: Event, t: nat)
    requires Inv(n) && Enabled(n, e) && OwnStep(e) && StillSends(n, e, t)
    ensures OnWire(Next(n, e), t)
  {
    var s := e.session;
    OwnStepKeepsHub(n, e);
    OwnStepKeepsSenders(n.sessions[s], Next(n, e).sessions[s], n, e, t);
  }

  lemma OwnStepKeepsHub(n: Net, e: Event)
    requires Commands.Shaped(n.hub) && Enabled(n, e) && OwnStep(e)
    ensures OnlySession(n, Next(n, e), e.session)
  {}

  lemma OwnStepKeepsSenders(x: Session, x': Session, n: Net, e: Event, t: nat)
    requires Commands.Shaped(n.hub) && Enabled(n, e) && OwnStep(e)
    requires x == n.sessions[e.session] && e.session in Next(n, e).sessions && x' == Next(n, e).sessions[e.session]
    ensures Uses(x.wire, Sender(t)) ==> Uses(x'.wire, Sender(t))
  {}

  lemma ActivationKeepsSends(n: Net, e: Event, t: nat)
    requires Inv(n) && Enabled(n, e) && (e.ActivateHello? || e.Update?) && StillSends(n, e, t)
    ensures OnWire(Next(n, e), t)
  {
    ActivationEffect(n, e);
  }

  lemma GateKeepsSends(n: Net, e: Event, t: nat)
    requires Inv(n) && Enabled(n, e) && e.Gate? && StillSends(n, e, t)
    ensures OnWire(Next(n, e), t)
  {
    GateEffect(n, e.ticket);
    GateEvolves(n, e.ticket);
    GateWires(n, e.ticket, t);
  }

  lemma GateWires(n: Net, u: nat, t: nat)
    requires Inv(n) && Enabled(n, Gate(u)) && t < |n.hub.m.waiters|
    requires
      || OnWire(n, t)
      || (t == u && u < |Next(n, Gate(u)).hub.phases| && Next(n, Gate(u)).hub.phases[u] == Commands.Sending)
    ensures var s := Commands.SessionOf(n.hub, t);
      s in Next(n, Gate(u)).sessions && Uses(Next(n, Gate(u)).sessions[s].wire, Sender(t))
  {
    GateEffect(n, u);
  }

  lemma GateEvolves(n: Net, u: nat)
    requires Inv(n) && Enabled(n, Gate(u))
    ensures Tables.Evolves(n.hub.m, Next(n, Gate(u)).hub.m)
  {
    var e := Commands.Gate(u);
    Commands.InvPreserved(n.hub, e);
    var h := Commands.Apply(n.hub, e);
    if Commands.Enabled(h, Commands.SendFailed(u)) {
      Commands.InvPreserved(h, Commands.SendFailed(u));
      Tables.EvolvesTransitive(n.hub.m, h.m, Commands.Apply(h, Commands.SendFailed(u)).m);
    }
  }

  lemma TurnKeepsSends(n: Net, e: Event, t: nat)
    requires Inv(n) && Enabled(n, e) && (e.Grant? || e.Finish?) && StillSends(n, e, t)
    ensures OnWire(Next(n, e), t)
  {
    TurnSessions(n, e, t);
    TurnWires(n, e, t);
  }

  lemma TurnSessions(n: Net, e: Event, t: nat)
    requires Inv(n) && Enabled(n, e) && (e.Grant? || e.Finish?) && StillSends(n, e, t)
    ensures t < |n.hub.phases| && n.hub.phases[t].Sending?
    ensures Commands.SessionOf(Next(n, e).hub, t) == Commands.SessionOf(n.hub, t)
    ensures e.actor == Sender(t) ==> e.Grant? && !n.sessions[e.session].wire.closed
  {
    if e.actor.Sender? {
      if e.Finish? {
        SendEndSessions(n.hub, e.actor.ticket, t, e.ok);
      } else if n.sessions[e.session].wire.closed && n.sessions[e.session].wire.queue[e.actor].Send? {
        SendEndSessions(n.hub, e.actor.ticket, t, false);
      } else {
        assert SessionOk(n.sessions[e.session], IsCurrent(n, e.session), n.hub);
      }
    }
  }

  lemma SendEndSessions(h: Commands.Hub, u: nat, t: nat, ok: bool)
    requires Commands.Inv(h) && u < |h.phases| && h.phases[u].Sending?
    ensures var h' := Commands.Apply(h, if ok then Commands.SendDone(u) else Commands.SendFailed(u));
      t < |h'.phases| == |h'.m.waiters| && h'.phases[t].Sending? ==>
        t != u && t < |h.phases| && h.phases[t].Sending? && Commands.SessionOf(h', t) == Commands.SessionOf(h, t)
  {
    Commands.InvPreserved(h, if ok then Commands.SendDone(u) else Commands.SendFailed(u));
  }

  lemma TurnWires(n: Net, e: Event, t: nat)
    requires Inv(n) && Enabled(n, e) && (e.Grant? || e.Finish?) && t < |n.hub.m.waiters| && OnWire(n, t)
    requires e.actor == Sender(t) ==> e.Grant? && !n.sessions[e.session].wire.closed
    ensures var s := Commands.SessionOf(n.hub, t);
      s in Next(n, e).sessions && Uses(Next(n, e).sessions[s].wire, Sender(t))
  {
    assert SessionOk(n.sessions[e.session], IsCurrent(n, e.session), n.hub);
  }

  lemma CancelKeepsSends(n: Net, e: Event, t: nat)
    requires Inv(n) && Enabled(n, e) && e.CancelSend? && StillSends(n, e, t)
    ensures OnWire(Next(n, e), t)
  {
    Commands.InvPreserved(n.hub, Commands.Cancel(e.ticket));
  }

  /** Steps of the manager that add to no wire anything but a close. */
  lemma HubStepKeepsSends(n: Net, e: Event, t: nat)
    requires Inv(n) && Enabled(n, e) && (e.Join? || e.Evict? || e.Shutdown? || e.Routing?) && StillSends(n, e, t)
    ensures OnWire(Next(n, e), t)
  {
    var me := if e.Join? then Commands.Join(e.device, e.session, e.transport, e.now)
              else if e.Evict? then Commands.Evict(e.device)
              else if e.Shutdown? then Commands.Shutdown else e.e;
    Commands.InvPreserved(n.hub, me);
    HubStepSends(n.hub, me, t);
    SendersUntouched(n, e, Commands.SessionOf(n.hub, t), t);
  }

  lemma HubStepSends(h: Commands.Hub, e: Commands.Event, t: nat)
    requires Commands.Inv(h) && Commands.Enabled(h, e) && (Quiet(h, e) || e.Join? || e.Evict? || e.Shutdown?)
    requires t < |Commands.Apply(h, e).phases| && Commands.Apply(h, e).phases[t].Sending?
    ensures t < |h.phases| && h.phases[t].Sending?
  {}

  lemma SendersUntouched(n: Net, e: Event, s: Id, t: nat)
    requires Inv(n) && Enabled(n, e) && (e.Join? || e.Evict? || e.Shutdown? || e.Routing?)
    requires s in n.sessions && Uses(n.sessions[s].wire, Sender(t))
    ensures s in Next(n, e).sessions && Uses(Next(n, e).sessions[s].wire, Sender(t))
  {}

  /** In every reachable state each execution inside a send is on its own session's wire, so it is being written or will
      have its turn. */
  lemma {:induction false} NoSendForgotten(ns: seq<Net>, es: seq<Event>, i: nat)
    requires GatewayRuns.IsRun(ns, es) && i < |ns|
    ensures SendsOnWire(ns[i])
  {
    if i > 0 {
      NoSendForgotten(ns, es, i - 1);
      GatewayRuns.RunInv(ns, es, i - 1);
      assert GatewayRuns.Step(ns[i - 1], es[i - 1], ns[i]);
      SendsStayOnWire(ns[i - 1], es[i - 1]);
    }
  }
}
