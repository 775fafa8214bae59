/** The gateway handlers of all sessions over the command machine: which frame starts when.

    A handler runs connect, server.hello, device.hello, activation, server.ready and then serves; a
    heartbeat task runs beside it; executions send commands; replacement, eviction and shutdown close
    transports from outside.  All of them meet at the session's transport. */
module Gateway {
  import opened Domain
  import opened Transport
  import Tables
  import Commands

  datatype Stage =
    | Joined        // in the connection table; the handler has not been told its session yet
    | HelloPending  // server.hello asked for
    | AwaitHello    // server.hello written, waiting for device.hello
    | Activating    // device.hello accepted, activation under way
    | ReadyPending  // active, server.ready asked for
    | Serving       // the reader loop
    | Failing       // a protocol error is about to be reported
    | Closing       // nothing is left but to close
    | Gone

  /** A session taken out of the tables by shutdown is `due`: a close of its transport has yet to start. */
  datatype Session = Session(id: Id, device: Id, stage: Stage, beating: bool, due: bool, wire: Wire)

  function Newcomer(s: Id, d: Id): Session {
    Session(s, d, Joined, false, false, UNUSED)
  }

  datatype Net = Net(hub: Commands.Hub, sessions: map<Id, Session>)

  datatype Event =
    | Join(device: Id, session: Id, transport: Id, now: int)
    | Evict(device: Id)
    | Shutdown
    | Routing(e: Commands.Event)
    | Gate(ticket: nat)
    | CancelSend(ticket: nat)
    | Grant(session: Id, actor: Actor)
    | Finish(session: Id, actor: Actor, ok: bool)
    | SendHello(session: Id)
    | HelloArrives(session: Id)
    | ActivateHello(session: Id, advertised: set<Capability>, effective: set<Capability>, now: int)
    | Update(session: Id, advertised: set<Capability>, effective: set<Capability>, now: int)
    | Reject(session: Id)
    | Beat(session: Id)
    | BeatClose(session: Id)
    | Fail(session: Id)
    | ReportError(session: Id)
    | HandlerClose(session: Id)
    | Exit(session: Id)
    | StartClose(session: Id)         // the task that shutdown started for it
    | CutEvictor(session: Id)         // cancelled while it waits or closes

  /** Manager steps without an effect on any transport. */
  predicate Quiet(h: Commands.Hub, e: Commands.Event)
    requires Commands.Shaped(h)
  {
    || e.Leave? || e.Seen? || e.Submit? || e.Answer? || e.Wake? || e.TimeOut?
    || (e.Cancel? && e.ticket < |h.phases| && !h.phases[e.ticket].Sending?)
  }

  predicate Known(n: Net, s: Id) {
    s in n.sessions && n.sessions[s].stage != Gone
  }

  predicate HandlerFree(n: Net, s: Id) {
    Known(n, s) && !Uses(n.sessions[s].wire, Handler)
  }

  predicate Enabled(n: Net, e: Event)
    requires Commands.Shaped(n.hub)
  {
    match e
    case Join(d, s, transport, now) => s !in n.sessions && s !in n.hub.m.sessions
    case Evict(_) => true
    case Shutdown => true
    case Routing(me) => Quiet(n.hub, me) && Commands.Enabled(n.hub, me)
    case Gate(t) => Commands.Enabled(n.hub, Commands.Gate(t)) && Commands.SessionOf(n.hub, t) in n.sessions
    case CancelSend(t) => t < |n.hub.phases| && n.hub.phases[t].Sending? && Commands.SessionOf(n.hub, t) in n.sessions
    case Grant(s, a) => s in n.sessions && n.sessions[s].wire.busy.None? && a in n.sessions[s].wire.queue
                        && SenderReady(n, a)
    case Finish(s, a, _) => s in n.sessions && n.sessions[s].wire.busy == Some(a) && SenderReady(n, a)
    case SendHello(s) => HandlerFree(n, s) && n.sessions[s].stage == Joined
    case HelloArrives(s) => HandlerFree(n, s) && n.sessions[s].stage == AwaitHello
    case ActivateHello(s, _, _, _) => HandlerFree(n, s) && n.sessions[s].stage == Activating
    case Update(s, _, _, _) => HandlerFree(n, s) && n.sessions[s].stage == Serving
    case Reject(s) => HandlerFree(n, s) && n.sessions[s].stage == Serving
    case Beat(s) => Known(n, s) && n.sessions[s].beating && !Uses(n.sessions[s].wire, Heartbeat)
    case BeatClose(s) => Known(n, s) && n.sessions[s].beating && !Uses(n.sessions[s].wire, Heartbeat)
    case Fail(s) =>
      && HandlerFree(n, s)
      && var stage := n.sessions[s].stage; stage == AwaitHello || stage == Activating || stage == Serving
    case ReportError(s) => HandlerFree(n, s) && n.sessions[s].stage == Failing
    case HandlerClose(s) => HandlerFree(n, s) && MayClose(n.sessions[s].stage)
    case Exit(s) => Known(n, s)
    case StartClose(s) => s in n.sessions && n.sessions[s].due
    case CutEvictor(s) => s in n.sessions && Uses(n.sessions[s].wire, Evictor)
  }

  /** After a timeout, an error that is not the device's, a report, or a failed send. */
  predicate MayClose(stage: Stage) {
    stage == AwaitHello || stage == Activating || stage == Serving || stage == Closing
  }

  /** A sender on the wire is an execution inside its send. */
  predicate SenderReady(n: Net, a: Actor)
    requires Commands.Shaped(n.hub)
  {
    a.Sender? ==> a.ticket < |n.hub.phases| && n.hub.phases[a.ticket].Sending?
  }

  function Put(n: Net, s: Id, x: Session): Net {
    n.(sessions := n.sessions[s := x])
  }

  /** The handler asks to send; a refusal raises in the handler, which then only closes. */
  function HandlerAsks(x: Session, f: Frame, then_: Stage): Session {
    if Idle(x.wire) && x.wire.closed then x.(stage := Closing)
    else x.(wire := Ask(x.wire, Handler, Send(f)), stage := then_)
  }

  /** The stage after the handler's own send was refused or has come to its end. */
  function AfterSend(stage: Stage, ok: bool): Stage {
    match stage
    case HelloPending => if ok then AwaitHello else Closing
    case ReadyPending => if ok then Serving else Closing
    case Serving => if ok then Serving else Closing
    case _ => stage
  }

  function ClosedFromOutside(sessions: map<Id, Session>, s: Id): map<Id, Session> {
    if s in sessions then sessions[s := sessions[s].(wire := Ask(sessions[s].wire, Evictor, Close))] else sessions
  }

  /** Close the transport of whatever connection the device has. */
  function CloseCurrent(n: Net, d: Id): map<Id, Session> {
    if d in n.hub.m.connections then ClosedFromOutside(n.sessions, n.hub.m.connections[d].session) else n.sessions
  }

  predicate IsCurrent(n: Net, s: Id) {
    s in n.sessions && Tables.Current(n.hub.m, n.sessions[s].device, s)
  }

  /** The transport's send returns or raises inside an execution. */
  function SendReturns(h: Commands.Hub, a: Actor, ok: bool): Commands.Hub
    requires Commands.Shaped(h)
    requires a.Sender? ==> a.ticket < |h.phases| && h.phases[a.ticket].Sending?
  {
    if !a.Sender? then h
    else Commands.Apply(h, if ok then Commands.SendDone(a.ticket) else Commands.SendFailed(a.ticket))
  }

  function AfterGrant(n: Net, s: Id, a: Actor): Net
    requires Commands.Shaped(n.hub) && Enabled(n, Grant(s, a))
  {
    var x := n.sessions[s];
    var refused := x.wire.closed && x.wire.queue[a].Send?;
    var x' := x.(wire := Obtain(x.wire, a),
                 stage := if refused && a == Handler then AfterSend(x.stage, false) else x.stage);
    Net(if refused then SendReturns(n.hub, a, false) else n.hub, n.sessions[s := x'])
  }

  function AfterFinish(n: Net, s: Id, a: Actor, ok: bool): Net
    requires Commands.Shaped(n.hub) && Enabled(n, Finish(s, a, ok))
  {
    var x := n.sessions[s];
    var stage := if a == Handler then AfterSend(x.stage, ok) else x.stage;
    var x' := x.(wire := Done(x.wire), stage := stage,
                 beating := x.beating || (a == Handler && x.stage == ReadyPending && ok));
    Net(SendReturns(n.hub, a, ok), n.sessions[s := x'])
  }

  function AfterGate(n: Net, t: nat): Net
    requires Commands.Shaped(n.hub) && Enabled(n, Gate(t))
  {
    var h := Commands.Apply(n.hub, Commands.Gate(t));
    if !Commands.GatePasses(n.hub, t) then n.(hub := h)
    else
      var s := Commands.SessionOf(n.hub, t);
      var w := n.sessions[s].wire;
      if Idle(w) && w.closed then n.(hub := Commands.Apply(h, Commands.SendFailed(t)))
      else Net(h, n.sessions[s := n.sessions[s].(wire := Ask(w, Sender(t), Send(Execute(t))))])
  }

  /** Activation and the start of server.ready are one step: nothing suspends between them. */
  function AfterActivate(n: Net, s: Id, adv: set<Capability>, eff: set<Capability>, now: int,
                         f: Frame, then_: Stage): Net
    requires Commands.Shaped(n.hub) && s in n.sessions
  {
    var x := n.sessions[s];
    var h := Commands.Apply(n.hub, Commands.Activation(x.device, s, adv, eff, now));
    if Tables.ActivateOutcome(n.hub.m, x.device, s, adv, eff) != Tables.Activated
    then Net(h, n.sessions[s := x.(stage := Failing)])
    else Net(h, n.sessions[s := HandlerAsks(x, f, then_)])
  }

  function Next(n: Net, e: Event): Net
    requires Commands.Shaped(n.hub) && Enabled(n, e)
  {
    match e
    case Join(d, s, transport, now) =>
      Net(Commands.Apply(n.hub, Commands.Join(d, s, transport, now)),
          CloseCurrent(n, d)[s := Newcomer(s, d)])
    case Evict(d) => Net(Commands.Apply(n.hub, Commands.Evict(d)), CloseCurrent(n, d))
    case Shutdown =>
      Net(Commands.Apply(n.hub, Commands.Shutdown),
          map s | s in n.sessions :: if IsCurrent(n, s) then n.sessions[s].(due := true) else n.sessions[s])
    case Routing(me) => n.(hub := Commands.Apply(n.hub, me))
    case Gate(t) => AfterGate(n, t)
    case CancelSend(t) =>
      var s := Commands.SessionOf(n.hub, t);
      Net(Commands.Apply(n.hub, Commands.Cancel(t)),
          n.sessions[s := n.sessions[s].(wire := Withdraw(n.sessions[s].wire, Sender(t)))])
    case Grant(s, a) => AfterGrant(n, s, a)
    case Finish(s, a, ok) => AfterFinish(n, s, a, ok)
    case SendHello(s) => Put(n, s, HandlerAsks(n.sessions[s], Hello, HelloPending))
    case HelloArrives(s) => Put(n, s, n.sessions[s].(stage := Activating))
    case ActivateHello(s, adv, eff, now) => AfterActivate(n, s, adv, eff, now, Ready, ReadyPending)
    case Update(s, adv, eff, now) => AfterActivate(n, s, adv, eff, now, Ack, Serving)
    case Reject(s) => Put(n, s, HandlerAsks(n.sessions[s], Rejected, Serving))
    case Beat(s) => Put(n, s, n.sessions[s].(wire := Ask(n.sessions[s].wire, Heartbeat, Send(Ping))))
    case BeatClose(s) => Put(n, s, n.sessions[s].(wire := Ask(n.sessions[s].wire, Heartbeat, Close)))
    case Fail(s) => Put(n, s, n.sessions[s].(stage := Failing))
    case ReportError(s) => Put(n, s, HandlerAsks(n.sessions[s], ProtocolError, Closing))
    case HandlerClose(s) => Put(n, s, n.sessions[s].(wire := Ask(n.sessions[s].wire, Handler, Close), stage := Closing))
    case Exit(s) =>
      Put(n, s, n.sessions[s].(stage := Gone, beating := false,
                               wire := Withdraw(Withdraw(n.sessions[s].wire, Handler), Heartbeat)))
    case StartClose(s) => Put(n, s, n.sessions[s].(due := false, wire := Ask(n.sessions[s].wire, Evictor, Close)))
    case CutEvictor(s) => Put(n, s, n.sessions[s].(wire := Withdraw(n.sessions[s].wire, Evictor)))
  }

  // ---------- The invariant ----------

  predicate InService(sent: seq<Frame>) {
    && |sent| >= 2 && sent[0] == Hello && sent[1] == Ready
    && forall i :: 2 <= i < |sent| ==> sent[i] != Hello && sent[i] != Ready
  }

  /** Hello, then at most an error report or the one Ready, and everything else after Ready. */
  predicate Ordered(sent: seq<Frame>) {
    sent == [] || sent == [Hello] || sent == [Hello, ProtocolError] || InService(sent)
  }

  predicate Early(stage: Stage) {
    stage == Joined || stage == HelloPending || stage == AwaitHello || stage == Activating
  }

  /** What each stage says about the frames sent and about the handler's own request. */
  predicate Staged(x: Session) {
    var sent, w := x.wire.sent, x.wire;
    match x.stage
    case Joined => sent == [] && !Uses(w, Handler)
    case HelloPending =>
      || (sent == [] && Handler in w.queue && w.queue[Handler] == Send(Hello))
      || (sent == [Hello] && w.busy == Some(Handler))
    case AwaitHello => sent == [Hello] && !Uses(w, Handler)
    case Activating => sent == [Hello] && !Uses(w, Handler)
    case ReadyPending => InService(sent) && Handler !in w.queue
    case Serving =>
      InService(sent) && (Handler in w.queue ==> w.queue[Handler] == Send(Ack) || w.queue[Handler] == Send(Rejected))
    case Failing => (sent == [Hello] || InService(sent)) && !Uses(w, Handler)
    case Closing => Ordered(sent) && (Handler in w.queue ==>
      w.queue[Handler] == Close || (w.queue[Handler] == Send(ProtocolError) && (sent == [Hello] || InService(sent))))
    case Gone => Ordered(sent) && !Uses(w, Handler)
  }

  predicate Started(x: Session) {
    InService(x.wire.sent)
  }

  /** The ticket's execution is inside a send on this session. */
  predicate SendingOn(h: Commands.Hub, t: nat, s: Id) {
    t < |h.phases| && h.phases[t].Sending? && t < |h.m.waiters| && h.m.waiters[t].session == s
  }

  /** Who else is on the wire: heartbeats and senders only after Ready, an outside close only off duty. */
  ghost predicate Crewed(x: Session, current: bool, h: Commands.Hub) {
    var w := x.wire;
    && Sound(w)
    && (x.beating ==> Started(x))
    && (Uses(w, Heartbeat) ==> x.beating)
    && (Uses(w, Evictor) ==> !current)
    && (x.due ==> !current && !Uses(w, Evictor))
    && (Evictor in w.queue ==> w.queue[Evictor] == Close)
    && (forall t: nat :: Uses(w, Sender(t)) ==> Started(x) && SendingOn(h, t, x.id))
    && (forall t: nat :: Sender(t) in w.queue ==> w.queue[Sender(t)] == Send(Execute(t)))
    && (Heartbeat in w.queue ==> w.queue[Heartbeat] == Send(Ping) || w.queue[Heartbeat] == Close)
  }

  /** While an early session is current, its transport is open and nobody but the handler is on it. */
  ghost predicate Calm(x: Session, current: bool) {
    Early(x.stage) && current ==>
      && !x.wire.closed
      && (forall a <- x.wire.queue :: a == Handler)
      && (x.wire.busy.None? || x.wire.busy == Some(Handler))
  }

  ghost predicate SessionOk(x: Session, current: bool, h: Commands.Hub) {
    Staged(x) && Crewed(x, current, h) && Calm(x, current)
  }

  /** Online connections and filed commands belong to sessions whose Ready has started. */
  ghost predicate Tied(n: Net) {
    && (forall d <- n.hub.m.connections ::
          var c := n.hub.m.connections[d];
          c.session in n.sessions && n.sessions[c.session].device == d
          && (c.status == Online ==> Started(n.sessions[c.session])))
    && (forall t: nat :: t < |n.hub.m.waiters| ==>
          n.hub.m.waiters[t].session in n.sessions && Started(n.sessions[n.hub.m.waiters[t].session]))
  }

  ghost predicate Inv(n: Net) {
    && Commands.Inv(n.hub)
    && Tied(n)
    && (forall s <- n.sessions :: n.sessions[s].id == s && SessionOk(n.sessions[s], IsCurrent(n, s), n.hub))
  }

  // ---------- Steps of one session ----------

  /** A change inside one session, with the command machine unchanged. */
  lemma PutKeeps(n: Net, s: Id, x: Session)
    requires Inv(n) && s in n.sessions
    requires x.device == n.sessions[s].device && x.id == s && (Started(n.sessions[s]) ==> Started(x))
    requires SessionOk(x, IsCurrent(n, s), n.hub)
    ensures Inv(Put(n, s, x))
  {
    var n' := Put(n, s, x);
    forall r <- n'.sessions
      ensures SessionOk(n'.sessions[r], IsCurrent(n', r), n'.hub)
    {
      assert IsCurrent(n', r) == IsCurrent(n, r);
    }
  }

  /** A frame may be appended: nothing but the two opening frames before Ready, neither of them after. */
  lemma AppendKeepsService(sent: seq<Frame>, f: Frame)
    requires InService(sent) && f != Hello && f != Ready
    ensures InService(sent + [f])
  {}

  predicate MayAsk(stage: Stage, f: Frame, then_: Stage, current: bool) {
    || (stage == Joined && f == Hello && then_ == HelloPending)
    || (stage == Activating && f == Ready && then_ == ReadyPending && current)
    || (stage == Serving && (f == Ack || f == Rejected) && then_ == Serving)
    || (stage == Failing && f == ProtocolError && then_ == Closing)
  }

  /** The handler asks for its next frame. */
  lemma HandlerAsksOk(x: Session, current: bool, h: Commands.Hub, f: Frame, then_: Stage)
    requires SessionOk(x, current, h) && !Uses(x.wire, Handler) && MayAsk(x.stage, f, then_, current)
    ensures var x' := HandlerAsks(x, f, then_); SessionOk(x', current, h) && (Started(x) ==> Started(x'))
  {
    if !Idle(x.wire) {
      HandlerQueuesOk(x, current, h, f, then_);
    } else if !x.wire.closed {
      HandlerSendsOk(x, current, h, f, then_);
    }
  }

  lemma HandlerQueuesOk(x: Session, current: bool, h: Commands.Hub, f: Frame, then_: Stage)
    requires SessionOk(x, current, h) && !Uses(x.wire, Handler) && MayAsk(x.stage, f, then_, current)
    requires !Idle(x.wire)
    ensures var x' := HandlerAsks(x, f, then_); SessionOk(x', current, h) && Started(x') == Started(x)
  {}

  lemma HandlerSendsOk(x: Session, current: bool, h: Commands.Hub, f: Frame, then_: Stage)
    requires SessionOk(x, current, h) && !Uses(x.wire, Handler) && MayAsk(x.stage, f, then_, current)
    requires Idle(x.wire) && !x.wire.closed
    ensures var x' := HandlerAsks(x, f, then_); SessionOk(x', current, h) && (Started(x) ==> Started(x'))
  {
    if Started(x) {
      AppendKeepsService(x.wire.sent, f);
    }
  }

  /** The handler's turn comes; a transport closed meanwhile refuses its frame and ignores its close. */
  lemma ObtainHandlerOk(x: Session, current: bool, h: Commands.Hub)
    requires SessionOk(x, current, h) && x.wire.busy.None? && Handler in x.wire.queue
    ensures var refused := x.wire.closed && x.wire.queue[Handler].Send?;
      var x' := x.(wire := Obtain(x.wire, Handler), stage := if refused then AfterSend(x.stage, false) else x.stage);
      SessionOk(x', current, h) && (Started(x) ==> Started(x'))
  {
    if x.wire.closed {
      ObtainRefusedOk(x, current, h);
    } else if x.wire.queue[Handler].Send? {
      ObtainSendOk(x, current, h);
    } else {
      ObtainCloseOk(x, current, h);
    }
  }

  lemma ObtainRefusedOk(x: Session, current: bool, h: Commands.Hub)
    requires SessionOk(x, current, h) && x.wire.busy.None? && Handler in x.wire.queue && x.wire.closed
    ensures var x' := x.(wire := Obtain(x.wire, Handler),
                         stage := if x.wire.queue[Handler].Send? then AfterSend(x.stage, false) else x.stage);
      SessionOk(x', current, h) && Started(x') == Started(x)
  {}

  lemma ObtainCloseOk(x: Session, current: bool, h: Commands.Hub)
    requires SessionOk(x, current, h) && x.wire.busy.None? && Handler in x.wire.queue
    requires !x.wire.closed && x.wire.queue[Handler] == Close
    ensures var x' := x.(wire := Obtain(x.wire, Handler)); SessionOk(x', current, h) && Started(x') == Started(x)
  {}

  lemma ObtainSendOk(x: Session, current: bool, h: Commands.Hub)
    requires SessionOk(x, current, h) && x.wire.busy.None? && Handler in x.wire.queue
    requires !x.wire.closed && x.wire.queue[Handler].Send?
    ensures var x' := x.(wire := Obtain(x.wire, Handler)); SessionOk(x', current, h) && (Started(x) ==> Started(x'))
  {
    var f := x.wire.queue[Handler].frame;
    if Started(x) {
      assert f != Hello && f != Ready;
      AppendKeepsService(x.wire.sent, f);
    }
  }

  lemma ObtainOtherOk(x: Session, current: bool, h: Commands.Hub, a: Actor)
    requires SessionOk(x, current, h) && x.wire.busy.None? && a in x.wire.queue && a != Handler
    ensures var x' := x.(wire := Obtain(x.wire, a)); SessionOk(x', current, h) && (Started(x) ==> Started(x'))
  {
    var r := x.wire.queue[a];
    if r.Send? {
      AppendKeepsService(x.wire.sent, r.frame);
    }
  }

  /** The lock holder's socket call has ended. */
  lemma DoneOk(x: Session, current: bool, h: Commands.Hub, a: Actor, ok: bool)
    requires SessionOk(x, current, h) && x.wire.busy == Some(a)
    ensures var x' := x.(wire := Done(x.wire),
                         stage := if a == Handler then AfterSend(x.stage, ok) else x.stage,
                         beating := x.beating || (a == Handler && x.stage == ReadyPending && ok));
      SessionOk(x', current, h) && Started(x') == Started(x) && !Uses(x'.wire, a)
  {}

  /** The heartbeat task asks to ping or to close. */
  lemma BeatOk(x: Session, current: bool, h: Commands.Hub, r: Request)
    requires SessionOk(x, current, h) && x.beating && !Uses(x.wire, Heartbeat) && (r == Send(Ping) || r == Close)
    ensures var x' := x.(wire := Ask(x.wire, Heartbeat, r)); SessionOk(x', current, h) && Started(x')
  {}

  /** Closing from outside: the session is no longer current when this happens. */
  lemma EvictorOk(x: Session, h: Commands.Hub)
    requires SessionOk(x, false, h) && !Uses(x.wire, Evictor)
    ensures var x' := x.(due := false, wire := Ask(x.wire, Evictor, Close));
      SessionOk(x', false, h) && Started(x') == Started(x)
  {}

  lemma CutEvictorOk(x: Session, current: bool, h: Commands.Hub)
    requires SessionOk(x, current, h)
    ensures var x' := x.(wire := Withdraw(x.wire, Evictor)); SessionOk(x', current, h) && Started(x') == Started(x)
  {}

  lemma HandlerCloseOk(x: Session, current: bool, h: Commands.Hub)
    requires SessionOk(x, current, h) && !Uses(x.wire, Handler) && MayClose(x.stage)
    ensures var x' := x.(wire := Ask(x.wire, Handler, Close), stage := Closing);
      SessionOk(x', current, h) && Started(x') == Started(x)
  {}

  lemma ExitOk(x: Session, current: bool, h: Commands.Hub)
    requires SessionOk(x, current, h)
    ensures var x' := x.(stage := Gone, beating := false, wire := Withdraw(Withdraw(x.wire, Handler), Heartbeat));
      SessionOk(x', current, h) && Started(x') == Started(x)
  {}

  /** An execution inside its send joins or leaves the wire. */
  lemma SenderOk(x: Session, current: bool, h: Commands.Hub, t: nat)
    requires SessionOk(x, current, h) && Started(x) && !Uses(x.wire, Sender(t))
    requires SendingOn(h, t, x.id)
    ensures var x' := x.(wire := Ask(x.wire, Sender(t), Send(Execute(t)))); SessionOk(x', current, h) && Started(x')
  {}

  lemma WithdrawOk(x: Session, current: bool, h: Commands.Hub, t: nat)
    requires SessionOk(x, current, h)
    ensures var x' := x.(wire := Withdraw(x.wire, Sender(t)));
      SessionOk(x', current, h) && Started(x') == Started(x) && !Uses(x'.wire, Sender(t))
  {}

  // ---------- Steps of the command machine ----------

  lemma SessionStaysOk(x: Session, current: bool, h: Commands.Hub, current': bool, h': Commands.Hub)
    requires SessionOk(x, current, h) && (current' ==> current)
    requires forall t: nat :: Uses(x.wire, Sender(t)) ==> SendingOn(h', t, x.id)
    ensures SessionOk(x, current', h')
  {}

  /** No connection is new or newly online, and every new waiter belongs to a connection that was online. */
  ghost predicate Calmer(h: Commands.Hub, h': Commands.Hub) {
    && (forall d <- h'.m.connections ::
          && d in h.m.connections
          && h'.m.connections[d].session == h.m.connections[d].session
          && (h'.m.connections[d].status == Online ==> h.m.connections[d].status == Online))
    && |h.m.waiters| <= |h'.m.waiters|
    && (forall t: nat :: t < |h.m.waiters| ==> h'.m.waiters[t].session == h.m.waiters[t].session)
    && (forall t: nat :: |h.m.waiters| <= t < |h'.m.waiters| ==>
          exists d :: d in h.m.connections && h.m.connections[d].status == Online
            && h.m.connections[d].session == h'.m.waiters[t].session)
  }

  lemma HubKeeps(n: Net, h: Commands.Hub)
    requires Inv(n) && Commands.Inv(h) && Calmer(n.hub, h)
    requires forall s, t: nat :: s in n.sessions && Uses(n.sessions[s].wire, Sender(t)) ==> SendingOn(h, t, s)
    ensures Inv(n.(hub := h))
  {}

  /** The steps without effect on a transport, and eviction and shutdown before their closes are asked. */
  lemma QuietIsCalmer(h: Commands.Hub, e: Commands.Event)
    requires Commands.Inv(h) && Commands.Enabled(h, e) && (Quiet(h, e) || e.Evict? || e.Shutdown?)
    ensures var h' := Commands.Apply(h, e);
      && Commands.Inv(h') && Calmer(h, h')
      && forall t: nat, s :: SendingOn(h, t, s) ==> SendingOn(h', t, s)
  {
    Commands.InvPreserved(h, e);
    if e.Submit? {
      SubmitIsCalmer(h, e);
    } else {
      OthersAreCalmer(h, e);
    }
  }

  lemma SubmitIsCalmer(h: Commands.Hub, e: Commands.Event)
    requires Commands.Inv(h) && Commands.Enabled(h, e) && e.Submit?
    ensures Calmer(h, Commands.Apply(h, e))
    ensures forall t: nat, s :: SendingOn(h, t, s) ==> SendingOn(Commands.Apply(h, e), t, s)
  {}

  lemma OthersAreCalmer(h: Commands.Hub, e: Commands.Event)
    requires Commands.Inv(h) && Commands.Enabled(h, e) && !e.Submit? && (Quiet(h, e) || e.Evict? || e.Shutdown?)
    ensures Calmer(h, Commands.Apply(h, e))
    ensures forall t: nat, s :: SendingOn(h, t, s) ==> SendingOn(Commands.Apply(h, e), t, s)
  {}

  lemma QuietKeeps(n: Net, e: Commands.Event)
    requires Inv(n) && Commands.Enabled(n.hub, e) && (Quiet(n.hub, e) || e.Evict? || e.Shutdown?)
    ensures Inv(n.(hub := Commands.Apply(n.hub, e)))
  {
    QuietIsCalmer(n.hub, e);
    forall s, t: nat | s in n.sessions && Uses(n.sessions[s].wire, Sender(t))
      ensures SendingOn(Commands.Apply(n.hub, e), t, s)
    {
      assert SessionOk(n.sessions[s], IsCurrent(n, s), n.hub);
    }
    HubKeeps(n, Commands.Apply(n.hub, e));
  }

  /** An execution's send ends, after the execution has left the wire. */
  lemma SendEndKeeps(n: Net, t: nat, e: Commands.Event)
    requires Inv(n) && t < |n.hub.phases| && n.hub.phases[t].Sending?
    requires e == Commands.SendDone(t) || e == Commands.SendFailed(t) || e == Commands.Cancel(t)
    requires forall s <- n.sessions :: !Uses(n.sessions[s].wire, Sender(t))
    ensures Inv(n.(hub := Commands.Apply(n.hub, e)))
  {
    Commands.InvPreserved(n.hub, e);
    var h := Commands.Apply(n.hub, e);
    forall s, u: nat | s in n.sessions && Uses(n.sessions[s].wire, Sender(u))
      ensures SendingOn(h, u, s)
    {
      assert SessionOk(n.sessions[s], IsCurrent(n, s), n.hub);
    }
    HubKeeps(n, h);
  }

  /** A sender is on its own session's wire only. */
  lemma SenderAtHome(n: Net, s: Id, t: nat)
    requires Inv(n) && s in n.sessions && Uses(n.sessions[s].wire, Sender(t))
    ensures SendingOn(n.hub, t, s)
    ensures forall r <- n.sessions :: r != s ==> !Uses(n.sessions[r].wire, Sender(t))
  {}

  // ---------- Every step ----------

  lemma GrantKeeps(n: Net, s: Id, a: Actor)
    requires Inv(n) && Enabled(n, Grant(s, a))
    ensures Inv(AfterGrant(n, s, a))
  {
    var x' := AfterGrant(n, s, a).sessions[s];
    ObtainKeeps(n, s, a, x');
    if n.sessions[s].wire.closed && n.sessions[s].wire.queue[a].Send? && a.Sender? {
      SenderAtHome(n, s, a.ticket);
      SendEndKeeps(Put(n, s, x'), a.ticket, Commands.SendFailed(a.ticket));
    }
  }

  lemma ObtainKeeps(n: Net, s: Id, a: Actor, x': Session)
    requires Inv(n) && Enabled(n, Grant(s, a)) && x' == AfterGrant(n, s, a).sessions[s]
    ensures Inv(Put(n, s, x'))
  {
    if a == Handler {
      ObtainHandlerOk(n.sessions[s], IsCurrent(n, s), n.hub);
    } else {
      ObtainOtherOk(n.sessions[s], IsCurrent(n, s), n.hub, a);
    }
    PutKeeps(n, s, x');
  }

  lemma FinishKeeps(n: Net, s: Id, a: Actor, ok: bool)
    requires Inv(n) && Enabled(n, Finish(s, a, ok))
    ensures Inv(AfterFinish(n, s, a, ok))
  {
    var x' := AfterFinish(n, s, a, ok).sessions[s];
    DoneKeeps(n, s, a, ok, x');
    if a.Sender? {
      SenderAtHome(n, s, a.ticket);
      SendEndKeeps(Put(n, s, x'), a.ticket, if ok then Commands.SendDone(a.ticket) else Commands.SendFailed(a.ticket));
    }
  }

  lemma DoneKeeps(n: Net, s: Id, a: Actor, ok: bool, x': Session)
    requires Inv(n) && Enabled(n, Finish(s, a, ok)) && x' == AfterFinish(n, s, a, ok).sessions[s]
    ensures Inv(Put(n, s, x')) && !Uses(x'.wire, a)
  {
    DoneOk(n.sessions[s], IsCurrent(n, s), n.hub, a, ok);
    PutKeeps(n, s, x');
  }

  /** The gate's own move in the command machine. */
  lemma GateHubKeeps(n: Net, t: nat)
    requires Inv(n) && Enabled(n, Gate(t))
    ensures var n1 := n.(hub := Commands.Apply(n.hub, Commands.Gate(t)));
      && Inv(n1)
      && (forall s <- n.sessions :: !Uses(n.sessions[s].wire, Sender(t)))
      && (Commands.GatePasses(n.hub, t) ==>
            Started(n.sessions[Commands.SessionOf(n.hub, t)]) && SendingOn(n1.hub, t, Commands.SessionOf(n.hub, t)))
  {
    Commands.InvPreserved(n.hub, Commands.Gate(t));
    var h := Commands.Apply(n.hub, Commands.Gate(t));
    forall s, u: nat | s in n.sessions && Uses(n.sessions[s].wire, Sender(u))
      ensures SendingOn(h, u, s) && u != t
    {
      assert SessionOk(n.sessions[s], IsCurrent(n, s), n.hub);
    }
    HubKeeps(n, h);
  }

  lemma GateKeeps(n: Net, t: nat)
    requires Inv(n) && Enabled(n, Gate(t))
    ensures Inv(AfterGate(n, t))
  {
    GateHubKeeps(n, t);
    var n1 := n.(hub := Commands.Apply(n.hub, Commands.Gate(t)));
    if Commands.GatePasses(n.hub, t) {
      var s := Commands.SessionOf(n.hub, t);
      var x := n.sessions[s];
      if Idle(x.wire) && x.wire.closed {
        SendEndKeeps(n1, t, Commands.SendFailed(t));
      } else {
        SenderOk(x, IsCurrent(n1, s), n1.hub, t);
        PutKeeps(n1, s, x.(wire := Ask(x.wire, Sender(t), Send(Execute(t)))));
      }
    }
  }

  lemma CancelSendKeeps(n: Net, t: nat)
    requires Inv(n) && Enabled(n, CancelSend(t))
    ensures Inv(Next(n, CancelSend(t)))
  {
    var s := Commands.SessionOf(n.hub, t);
    var x' := n.sessions[s].(wire := Withdraw(n.sessions[s].wire, Sender(t)));
    WithdrawOk(n.sessions[s], IsCurrent(n, s), n.hub, t);
    PutKeeps(n, s, x');
    var n1 := Put(n, s, x');
    forall r | r in n1.sessions && Uses(n1.sessions[r].wire, Sender(t))
      ensures false
    {
      SenderAtHome(n1, r, t);
    }
    SendEndKeeps(n1, t, Commands.Cancel(t));
  }

  /** Going online is allowed once Ready has started. */
  lemma ActivationKeeps(n: Net, s: Id, adv: set<Capability>, eff: set<Capability>, now: int)
    requires Inv(n) && s in n.sessions && Started(n.sessions[s])
    ensures Inv(n.(hub := Commands.Apply(n.hub, Commands.Activation(n.sessions[s].device, s, adv, eff, now))))
  {
    var e := Commands.Activation(n.sessions[s].device, s, adv, eff, now);
    Commands.InvPreserved(n.hub, e);
    var n' := n.(hub := Commands.Apply(n.hub, e));
    forall r <- n'.sessions
      ensures SessionOk(n'.sessions[r], IsCurrent(n', r), n'.hub)
    {
      SessionStaysOk(n.sessions[r], IsCurrent(n, r), n.hub, IsCurrent(n', r), n'.hub);
    }
  }

  lemma ActivateKeeps(n: Net, s: Id, adv: set<Capability>, eff: set<Capability>, now: int, f: Frame, then_: Stage)
    requires Inv(n) && HandlerFree(n, s)
    requires var stage := n.sessions[s].stage;
      (stage == Activating && f == Ready && then_ == ReadyPending) || (stage == Serving && f == Ack && then_ == Serving)
    ensures Inv(AfterActivate(n, s, adv, eff, now, f, then_))
  {
    var x := n.sessions[s];
    if Tables.ActivateOutcome(n.hub.m, x.device, s, adv, eff) == Tables.Activated {
      HandlerAsksOk(x, IsCurrent(n, s), n.hub, f, then_);
      ActivatedIsStarted(x, n.hub, f, then_);
      PutKeeps(n, s, HandlerAsks(x, f, then_));
      ActivationKeeps(Put(n, s, HandlerAsks(x, f, then_)), s, adv, eff, now);
    } else {
      PutKeeps(n, s, x.(stage := Failing));
    }
  }

  /** The transport is provably free when a current session is activated: Ready starts at once. */
  lemma ActivatedIsStarted(x: Session, h: Commands.Hub, f: Frame, then_: Stage)
    requires SessionOk(x, true, h) && !Uses(x.wire, Handler)
    requires
      || (x.stage == Activating && f == Ready && then_ == ReadyPending)
      || (x.stage == Serving && f == Ack && then_ == Serving)
    ensures Started(HandlerAsks(x, f, then_))
    ensures x.stage == Activating ==>
      Idle(x.wire) && !x.wire.closed && HandlerAsks(x, f, then_).wire.sent == [Hello, Ready]
  {}

  lemma CloseCurrentKeeps(n: Net, d: Id)
    requires Inv(n)
    ensures Inv(Net(Commands.Apply(n.hub, Commands.Evict(d)), CloseCurrent(n, d)))
  {
    QuietKeeps(n, Commands.Evict(d));
    var n1 := n.(hub := Commands.Apply(n.hub, Commands.Evict(d)));
    if d in n.hub.m.connections {
      var s := n.hub.m.connections[d].session;
      assert SessionOk(n.sessions[s], IsCurrent(n, s), n.hub) && IsCurrent(n, s);
      assert !n1.sessions[s].due;
      EvictorOk(n1.sessions[s], n1.hub);
      PutKeeps(n1, s, n1.sessions[s].(wire := Ask(n1.sessions[s].wire, Evictor, Close)));
    }
  }

  /** A connecting session takes an empty place. */
  lemma NewcomerKeeps(n: Net, d: Id, s: Id, transport: Id, now: int, h: Commands.Hub)
    requires Inv(n) && Commands.Inv(h) && s !in n.sessions
    requires h.m.connections == n.hub.m.connections[d := Tables.NewConnection(s, transport, now)]
    requires h.m.waiters == n.hub.m.waiters && h.phases == n.hub.phases
    ensures Inv(Net(h, n.sessions[s := Newcomer(s, d)]))
  {
    var n' := Net(h, n.sessions[s := Newcomer(s, d)]);
    forall r <- n.sessions
      ensures SessionOk(n'.sessions[r], IsCurrent(n', r), h)
    {
      assert IsCurrent(n', r) ==> IsCurrent(n, r);
      AsideOk(n.sessions[r], IsCurrent(n, r), n.hub, IsCurrent(n', r), h);
    }
    NewSessionOk(s, d, h);
    NewcomerTied(n, d, s, transport, now, h);
  }

  /** A session that another one's joining leaves alone, or replaces. */
  lemma AsideOk(x: Session, current: bool, h: Commands.Hub, current': bool, h': Commands.Hub)
    requires SessionOk(x, current, h) && (current' ==> current) && h'.m.waiters == h.m.waiters && h'.phases == h.phases
    ensures SessionOk(x, current', h')
  {
    SessionStaysOk(x, current, h, current', h');
  }

  lemma NewcomerTied(n: Net, d: Id, s: Id, transport: Id, now: int, h: Commands.Hub)
    requires Tied(n) && s !in n.sessions
    requires h.m.connections == n.hub.m.connections[d := Tables.NewConnection(s, transport, now)]
    requires h.m.waiters == n.hub.m.waiters
    ensures Tied(Net(h, n.sessions[s := Newcomer(s, d)]))
  {}

  lemma NewSessionOk(s: Id, d: Id, h: Commands.Hub)
    ensures SessionOk(Newcomer(s, d), true, h)
  {}

  lemma ConnectIsEvictThenPlace(m: Tables.Tables, d: Id, s: Id, transport: Id, now: int)
    ensures var placed, evicted := Tables.Connect(m, d, s, transport, now), Tables.DisconnectDevice(m, d);
      && placed.connections == evicted.connections[d := Tables.NewConnection(s, transport, now)]
      && placed.waiters == evicted.waiters && placed.pending == evicted.pending
  {}

  /** Connecting is evicting whatever was there and then taking the place. */
  lemma JoinKeeps(n: Net, d: Id, s: Id, transport: Id, now: int)
    requires Inv(n) && Enabled(n, Join(d, s, transport, now))
    ensures Inv(Net(Commands.Apply(n.hub, Commands.Join(d, s, transport, now)),
                    CloseCurrent(n, d)[s := Newcomer(s, d)]))
  {
    CloseCurrentKeeps(n, d);
    Commands.InvPreserved(n.hub, Commands.Join(d, s, transport, now));
    ConnectIsEvictThenPlace(n.hub.m, d, s, transport, now);
    var n1 := Net(Commands.Apply(n.hub, Commands.Evict(d)), CloseCurrent(n, d));
    NewcomerKeeps(n1, d, s, transport, now, Commands.Apply(n.hub, Commands.Join(d, s, transport, now)));
  }

  lemma ShutdownKeeps(n: Net)
    requires Inv(n)
    ensures Inv(Next(n, Shutdown))
  {
    QuietKeeps(n, Commands.Shutdown);
    var n1 := n.(hub := Commands.Apply(n.hub, Commands.Shutdown));
    var n' := Next(n, Shutdown);
    forall r <- n'.sessions
      ensures SessionOk(n'.sessions[r], false, n'.hub)
    {
      var x, current := n1.sessions[r], IsCurrent(n, r);
      assert SessionOk(n.sessions[r], current, n.hub);
      assert SessionOk(x, false, n1.hub);
      DueOk(x, current, n.hub, n1.hub);
    }
  }

  /** A session that was current has no closer yet, so that one may become due. */
  lemma DueOk(x: Session, current: bool, h: Commands.Hub, h': Commands.Hub)
    requires SessionOk(x, current, h) && SessionOk(x, false, h')
    ensures current ==> SessionOk(x.(due := true), false, h')
  {}

  lemma InvPreserved(n: Net, e: Event)
    requires Inv(n) && Enabled(n, e)
    ensures Inv(Next(n, e))
  {
    match e
    case Join(d, s, transport, now) => JoinKeeps(n, d, s, transport, now);
    case Evict(d) => CloseCurrentKeeps(n, d);
    case Shutdown => ShutdownKeeps(n);
    case Routing(me) => QuietKeeps(n, me);
    case Gate(t) => GateKeeps(n, t);
    case CancelSend(t) => CancelSendKeeps(n, t);
    case Grant(s, a) => GrantKeeps(n, s, a);
    case Finish(s, a, ok) => FinishKeeps(n, s, a, ok);
    case ActivateHello(s, adv, eff, now) => ActivateKeeps(n, s, adv, eff, now, Ready, ReadyPending);
    case Update(s, adv, eff, now) => ActivateKeeps(n, s, adv, eff, now, Ack, Serving);
    case _ => HandlerStepKeeps(n, e);
  }

  /** The steps of one handler or heartbeat that leave the command machine alone. */
  lemma HandlerStepKeeps(n: Net, e: Event)
    requires Inv(n) && Enabled(n, e) && OwnStep(e)
    ensures Inv(Next(n, e))
  {
    var s := e.session;
    var x' := Next(n, e).sessions[s];
    HandlerStepOk(n, e, IsCurrent(n, s));
    PutKeeps(n, s, x');
  }

  predicate OwnStep(e: Event) {
    || e.SendHello? || e.HelloArrives? || e.Reject? || e.Beat? || e.BeatClose? || e.Fail?
    || e.ReportError? || e.HandlerClose? || e.Exit? || e.StartClose? || e.CutEvictor?
  }

  lemma HandlerStepOk(n: Net, e: Event, current: bool)
    requires Commands.Shaped(n.hub) && Enabled(n, e) && OwnStep(e)
    requires SessionOk(n.sessions[e.session], current, n.hub)
    ensures var x, x' := n.sessions[e.session], Next(n, e).sessions[e.session];
      SessionOk(x', current, n.hub) && x'.device == x.device && x'.id == x.id && (Started(x) ==> Started(x'))
  {
    if e.SendHello? || e.Reject? || e.ReportError? {
      AskStepOk(n, e, current);
    } else {
      OtherStepOk(n, e, current);
    }
  }

  lemma AskStepOk(n: Net, e: Event, current: bool)
    requires Commands.Shaped(n.hub) && Enabled(n, e) && (e.SendHello? || e.Reject? || e.ReportError?)
    requires SessionOk(n.sessions[e.session], current, n.hub)
    ensures var x, x' := n.sessions[e.session], Next(n, e).sessions[e.session];
      SessionOk(x', current, n.hub) && x'.device == x.device && x'.id == x.id && (Started(x) ==> Started(x'))
  {
    var x := n.sessions[e.session];
    match e {
      case SendHello(_) => HandlerAsksOk(x, current, n.hub, Hello, HelloPending);
      case Reject(_) => HandlerAsksOk(x, current, n.hub, Rejected, Serving);
      case ReportError(_) => HandlerAsksOk(x, current, n.hub, ProtocolError, Closing);
    }
  }

  lemma OtherStepOk(n: Net, e: Event, current: bool)
    requires Commands.Shaped(n.hub) && Enabled(n, e)
    requires OwnStep(e) && !e.SendHello? && !e.Reject? && !e.ReportError?
    requires SessionOk(n.sessions[e.session], current, n.hub)
    ensures var x, x' := n.sessions[e.session], Next(n, e).sessions[e.session];
      SessionOk(x', current, n.hub) && x'.device == x.device && x'.id == x.id && (Started(x) ==> Started(x'))
  {
    var x := n.sessions[e.session];
    match e {
      case Beat(_) => BeatOk(x, current, n.hub, Send(Ping));
      case BeatClose(_) => BeatOk(x, current, n.hub, Close);
      case HandlerClose(_) => HandlerCloseOk(x, current, n.hub);
      case Exit(_) => ExitOk(x, current, n.hub);
      case StartClose(_) => EvictorOk(x, n.hub);
      case CutEvictor(_) => CutEvictorOk(x, current, n.hub);
      case _ =>
    }
  }
}
