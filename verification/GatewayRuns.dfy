/** What holds along every run of the gateway: the order of frames on every connection. */
module GatewayRuns {
  import opened Domain
  import opened Transport
  import Tables
  import Commands
  import HubProjection
  import opened Gateway

  ghost predicate Step(n: Net, e: Event, n': Net) {
    Commands.Shaped(n.hub) && Enabled(n, e) && n' == Next(n, e)
  }

  ghost predicate IsRun(ns: seq<Net>, es: seq<Event>) {
    && |ns| == |es| + 1
    && ns[0] == Net(Commands.INITIAL, map[])
    && forall i :: 0 <= i < |es| ==> Step(ns[i], es[i], ns[i + 1])
  }

  lemma {:induction false} RunInv(ns: seq<Net>, es: seq<Event>, i: nat)
    requires IsRun(ns, es) && i < |ns|
    ensures Inv(ns[i])
  {
    if i > 0 {
      RunInv(ns, es, i - 1);
      assert Step(ns[i - 1], es[i - 1], ns[i]);
      InvPreserved(ns[i - 1], es[i - 1]);
    }
  }

  /** On every connection at every moment: hello is the first frame and only the first, ready can only be
      the second, and every frame that is not hello, ready or an error report comes after ready. */
  lemma FramesInOrder(ns: seq<Net>, es: seq<Event>, i: nat, s: Id)
    requires IsRun(ns, es) && i < |ns| && s in ns[i].sessions
    ensures var sent := ns[i].sessions[s].wire.sent;
      forall k :: 0 <= k < |sent| ==>
        && (sent[k] == Hello <==> k == 0)
        && (sent[k] == Ready ==> k == 1)
        && (sent[k] == ProtocolError ==> k >= 1)
        && (sent[k].Execute? || sent[k].Ping? || sent[k].Ack? || sent[k].Rejected? ==> k > 1 && sent[1] == Ready)
  {
    RunInv(ns, es, i);
    assert SessionOk(ns[i].sessions[s], IsCurrent(ns[i], s), ns[i].hub);
  }

  /** No frame starts after the transport's close has started, and the close starts at most once. */
  lemma NothingAfterClose(ns: seq<Net>, es: seq<Event>, i: nat, s: Id)
    requires IsRun(ns, es) && i < |ns| && s in ns[i].sessions
    ensures var w := ns[i].sessions[s].wire;
      && |w.closes| <= 1
      && (forall c :: c in w.closes ==> c == |w.sent|)
      && (w.closed <==> w.closes != [])
  {
    RunInv(ns, es, i);
    assert SessionOk(ns[i].sessions[s], IsCurrent(ns[i], s), ns[i].hub);
  }

  /** Activation makes the device ONLINE before server.ready, yet no command can slip in between: the
      transport is free and open then, so ready starts in the very same step. */
  lemma ReadyStartsWithActivation(ns: seq<Net>, es: seq<Event>, i: nat, s: Id,
                                  adv: set<Capability>, eff: set<Capability>, now: int)
    requires IsRun(ns, es) && i < |es| && es[i] == ActivateHello(s, adv, eff, now)
    requires s in ns[i].sessions
    requires Tables.ActivateOutcome(ns[i].hub.m, ns[i].sessions[s].device, s, adv, eff) == Tables.Activated
    ensures Idle(ns[i].sessions[s].wire) && !ns[i].sessions[s].wire.closed
    ensures s in ns[i + 1].sessions
    ensures ns[i].sessions[s].wire.sent == [Hello] && ns[i + 1].sessions[s].wire.sent == [Hello, Ready]
  {
    RunInv(ns, es, i);
    assert Step(ns[i], es[i], ns[i + 1]);
    assert SessionOk(ns[i].sessions[s], IsCurrent(ns[i], s), ns[i].hub);
    ActivatedIsStarted(ns[i].sessions[s], ns[i].hub, Ready, ReadyPending);
  }

  /** A device is shown ONLINE only when its session's ready has started. */
  lemma OnlineMeansReady(ns: seq<Net>, es: seq<Event>, i: nat, d: Id)
    requires IsRun(ns, es) && i < |ns| && d in ns[i].hub.m.connections
    requires ns[i].hub.m.connections[d].status == Online
    ensures var s := ns[i].hub.m.connections[d].session;
      s in ns[i].sessions && |ns[i].sessions[s].wire.sent| >= 2 && ns[i].sessions[s].wire.sent[1] == Ready
  {
    RunInv(ns, es, i);
  }

  /** The manager events inside a gateway step; a command refused by a closed transport makes two. */
  function HubEvents(n: Net, e: Event): seq<Commands.Event>
    requires Commands.Shaped(n.hub)
  {
    match e
    case Join(d, s, transport, now) => [Commands.Join(d, s, transport, now)]
    case Evict(d) => [Commands.Evict(d)]
    case Shutdown => [Commands.Shutdown]
    case Routing(me) => [me]
    case Gate(t) =>
      if t < |n.hub.phases| && Commands.GatePasses(n.hub, t) && Commands.SessionOf(n.hub, t) in n.sessions
         && Idle(n.sessions[Commands.SessionOf(n.hub, t)].wire) && n.sessions[Commands.SessionOf(n.hub, t)].wire.closed
      then [Commands.Gate(t), Commands.SendFailed(t)] else [Commands.Gate(t)]
    case CancelSend(t) => [Commands.Cancel(t)]
    case Grant(s, a) =>
      if a.Sender? && s in n.sessions && a in n.sessions[s].wire.queue && n.sessions[s].wire.closed
         && n.sessions[s].wire.queue[a].Send?
      then [Commands.SendFailed(a.ticket)] else []
    case Finish(_, a, ok) =>
      if !a.Sender? then [] else if ok then [Commands.SendDone(a.ticket)] else [Commands.SendFailed(a.ticket)]
    case ActivateHello(s, adv, eff, now) =>
      if s in n.sessions then [Commands.Activation(n.sessions[s].device, s, adv, eff, now)] else []
    case Update(s, adv, eff, now) =>
      if s in n.sessions then [Commands.Activation(n.sessions[s].device, s, adv, eff, now)] else []
    case _ => []
  }

  /** Every gateway step is a sequence of manager steps. */
  lemma GatewayProjects(n: Net, e: Event, n': Net)
    requires Step(n, e, n')
    ensures Commands.Reaches(n.hub, HubEvents(n, e), n'.hub)
  {}

  /** Every gateway run contains a manager run through all its hubs. */
  lemma RunContained(ns: seq<Net>, es: seq<Event>) returns (hubs: seq<Commands.Hub>, steps: seq<seq<Commands.Event>>)
    requires IsRun(ns, es)
    ensures HubProjection.Projects(hubs, steps) && |hubs| == |ns|
    ensures forall i :: 0 <= i < |ns| ==> hubs[i] == ns[i].hub
    ensures forall i :: 0 <= i < |es| ==> Commands.Shaped(ns[i].hub) && steps[i] == HubEvents(ns[i], es[i])
  {
    hubs := seq(|ns|, i requires 0 <= i < |ns| => ns[i].hub);
    forall i | 0 <= i < |es|
      ensures Commands.Shaped(ns[i].hub)
    {
      assert Step(ns[i], es[i], ns[i + 1]);
    }
    steps := seq(|es|, i requires 0 <= i < |es| && Commands.Shaped(ns[i].hub) => HubEvents(ns[i], es[i]));
    forall i | 0 <= i < |es|
      ensures Commands.Reaches(hubs[i], steps[i], hubs[i + 1])
    {
      GatewayProjects(ns[i], es[i], ns[i + 1]);
    }
  }

  /** If an execution returns a reply, that reply came in on the command's own session while it was current. */
  lemma ReplyAccepted(ns: seq<Net>, es: seq<Event>, t: nat, r: Tables.Reply) returns (j: nat)
    requires IsRun(ns, es)
    requires var h := ns[|es|].hub; t < |h.phases| && h.phases[t] == Commands.Finished(Commands.Returned(r))
    ensures var h := ns[|es|].hub;
      && |h.m.waiters| == |h.phases|
      && j < |es| && es[j] == Routing(Commands.Answer(Commands.DeviceOf(h, t), Commands.SessionOf(h, t), r))
      && r.command == h.m.waiters[t].command.id && r.device == Commands.DeviceOf(h, t)
      && Tables.Current(ns[j].hub.m, Commands.DeviceOf(h, t), Commands.SessionOf(h, t))
  {
    var hubs, steps := RunContained(ns, es);
    var k;
    j, k := HubProjection.ReplyAccepted(hubs, steps, t, r);
  }
}
