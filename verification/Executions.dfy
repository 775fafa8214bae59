/** The manager object together with every execute call running on it: each call's local variables, its phase, and
    the send locks.  One method a step; the objects follow the command machine exactly. */
module Executions {
  import opened Domain
  import Tables
  import opened Commands
  import opened ConnectionManager
  import CommandRuns
  import HubProjection

  /** What an execute call keeps in local variables from registration on. */
  datatype Call = Call(command: Tables.Command, connection: LiveConnection, entry: PendingCommand)

  /** A call keeps its own ticket's entry and the connection that was drawn for its session. */
  ghost predicate Kept(call: Call, t: nat, issued: seq<PendingCommand>, drawn: map<Id, LiveConnection>,
                       waiters: seq<Tables.Waiter>)
  {
    && t < |issued| && issued[t] == call.entry
    && call.connection.session in drawn && drawn[call.connection.session] == call.connection
    && t < |waiters| && waiters[t].command == call.command && waiters[t].session == call.connection.session
  }

  ghost predicate AllKept(calls: seq<Call>, issued: seq<PendingCommand>, drawn: map<Id, LiveConnection>,
                          waiters: seq<Tables.Waiter>)
  {
    |calls| == |issued| == |waiters| && forall t: nat :: t < |calls| ==> Kept(calls[t], t, issued, drawn, waiters)
  }

  /** Local variables stay good whatever the tables go through, as long as nothing is issued. */
  lemma KeptStays(calls: seq<Call>, issued: seq<PendingCommand>, drawn: map<Id, LiveConnection>, m: Tables.Tables,
                  drawn': map<Id, LiveConnection>, m': Tables.Tables)
    requires AllKept(calls, issued, drawn, m.waiters) && Manager.Extends(drawn, drawn')
    requires Tables.Evolves(m, m') && |m'.waiters| == |m.waiters|
    ensures AllKept(calls, issued, drawn', m'.waiters)
  {
    forall t: nat | t < |calls|
      ensures Kept(calls[t], t, issued, drawn', m'.waiters)
    {
      assert Kept(calls[t], t, issued, drawn, m.waiters);
    }
  }

  /** A new call keeps what its registration issued and drew for it. */
  lemma KeptGrows(calls: seq<Call>, issued: seq<PendingCommand>, drawn: map<Id, LiveConnection>,
                  waiters: seq<Tables.Waiter>, call: Call)
    requires AllKept(calls, issued, drawn, waiters)
    requires call.connection.session in drawn && drawn[call.connection.session] == call.connection
    ensures AllKept(calls + [call], issued + [call.entry], drawn,
                    waiters + [Tables.Waiter(call.command, call.connection.session, Tables.Open)])
  {
    forall t: nat | t < |calls|
      ensures Kept(calls[t], t, issued + [call.entry], drawn,
                   waiters + [Tables.Waiter(call.command, call.connection.session, Tables.Open)])
    {
      assert Kept(calls[t], t, issued, drawn, waiters);
    }
  }

  lemma SubmitIs(s: Commands.Hub, c: Tables.Command, timeout: int, now: int)
    requires Commands.Shaped(s)
    ensures Commands.Apply(s, Event.Submit(c, timeout, now)) ==
      Commands.Hub(Tables.Register(s.m, c, timeout, now),
                   if Tables.Admit(s.m, c, timeout, now) == Tables.Admitted then s.phases + [Queued] else s.phases,
                   s.holder)
  {}

  predicate OnTables(e: Event) {
    e.Join? || e.Activation? || e.Leave? || e.Evict? || e.Seen? || e.Answer? || e.Shutdown?
  }

  class Executor {
    const manager: Manager
    var calls: seq<Call>
    var phases: seq<Phase>
    var holder: map<Id, nat>

    ghost function Hub(): Commands.Hub
      reads this, manager
    {
      Commands.Hub(manager.Model(), phases, holder)
    }

    ghost predicate Linked()
      reads this, manager, manager.Repr
    {
      && this !in manager.Repr && manager.Valid()
      && |phases| == |calls|
      && AllKept(calls, manager.issued, manager.drawn, manager.waiters)
    }

    ghost predicate Valid()
      reads this, manager, manager.Repr
    {
      Linked() && Commands.Inv(Hub())
    }

    constructor ()
      ensures Valid() && Hub() == Commands.INITIAL && fresh(manager) && fresh(manager.Repr)
    {
      manager := new Manager();
      calls, phases, holder := [], [], map[];
    }

    /** An operation of the manager, by whatever task. */
    method Operate(e: Event)
      requires Valid() && OnTables(e) && Commands.Enabled(Hub(), e)
      modifies manager.Repr
      ensures Linked() && fresh(manager.Repr - old(manager.Repr))
      ensures Hub() == Commands.Apply(old(Hub()), e)
    {
      ghost var m, drawn := manager.Model(), manager.drawn;
      Commands.InvPreserved(Hub(), e);
      match e {
        case Join(d, x, transport, now) => var _ := manager.Connect(d, transport, x, now);
        case Activation(d, x, adv, eff, now) => var _ := manager.Activate(d, x, adv, eff, now);
        case Leave(d, x) => var _ := manager.Disconnect(d, x);
        case Evict(d) => var _ := manager.DisconnectDevice(d);
        case Seen(d, x, now) => var _ := manager.Touch(d, x, now);
        case Answer(d, x, r) => var _ := manager.Resolve(d, x, r);
        case Shutdown => var _ := manager.CloseAll();
      }
      KeptStays(calls, manager.issued, drawn, m, manager.drawn, manager.Model());
    }

    /** Register the command; what an admitted call keeps. */
    method Begin(c: Tables.Command, timeout: int, now: int) returns (kept: seq<Call>)
      requires Linked()
      modifies manager.Repr
      ensures this !in manager.Repr && manager.Valid() && fresh(manager.Repr - old(manager.Repr))
      ensures manager.Model() == Tables.Register(old(manager.Model()), c, timeout, now)
      ensures |kept| == if Tables.Admit(old(manager.Model()), c, timeout, now) == Tables.Admitted then 1 else 0
      ensures AllKept(calls + kept, manager.issued, manager.drawn, manager.waiters)
    {
      ghost var issued, waiters := manager.issued, manager.waiters;
      var admission, connection, entry := manager.Register(c, timeout, now);
      if !admission.Admitted? {
        assert calls + [] == calls;
        return [];
      }
      KeptGrows(calls, issued, manager.drawn, waiters, Call(c, connection, entry));
      kept := [Call(c, connection, entry)];
    }

    method Keep(kept: seq<Call>)
      requires this !in manager.Repr && manager.Valid() && |phases| == |calls| && |kept| <= 1
      requires AllKept(calls + kept, manager.issued, manager.drawn, manager.waiters)
      modifies this`calls, this`phases
      ensures Linked()
      ensures phases == if kept == [] then old(phases) else old(phases) + [Queued]
    {
      calls := calls + kept;
      if kept != [] {
        phases := phases + [Queued];
      }
    }

    /** execute up to its registration; an admitted call queues for its connection's send lock. */
    method Submit(c: Tables.Command, timeout: int, now: int)
      requires Linked() && Commands.Shaped(Hub())
      modifies this`calls, this`phases, manager.Repr
      ensures Linked() && fresh(manager.Repr - old(manager.Repr))
      ensures Hub() == Commands.Apply(old(Hub()), Event.Submit(c, timeout, now))
    {
      SubmitIs(Hub(), c, timeout, now);
      var kept := Begin(c, timeout, now);
      Keep(kept);
    }

    /** The finally block, on the call's own entry; a send lock that is held is let go. */
    method Finish(t: nat, outcome: Outcome)
      requires Linked() && Tables.Coherent(manager.Model()) && t < |calls|
      modifies this`phases, this`holder, manager.Repr
      ensures Linked() && fresh(manager.Repr - old(manager.Repr))
      ensures Hub() == Commands.Finish(old(Hub()), t, outcome)
    {
      ghost var m, drawn := manager.Model(), manager.drawn;
      assert Kept(calls[t], t, manager.issued, manager.drawn, manager.waiters);
      Tables.CleanupCoherent(m, t);
      if phases[t].Sending? {
        holder := holder - {calls[t].connection.session};
      }
      manager.Finish(calls[t].command.id, calls[t].entry);
      phases := phases[t := Finished(outcome)];
      KeptStays(calls, manager.issued, drawn, m, manager.drawn, manager.Model());
    }

    /** The send lock is obtained; the device's connection has to be the very object kept since registration. */
    method Gate(t: nat)
      requires Valid() && Commands.Enabled(Hub(), Event.Gate(t))
      modifies this`phases, this`holder, manager.Repr
      ensures Linked() && fresh(manager.Repr - old(manager.Repr))
      ensures Hub() == Commands.Apply(old(Hub()), Event.Gate(t))
    {
      assert Kept(calls[t], t, manager.issued, manager.drawn, manager.waiters);
      var passes := manager.IsStillOwn(calls[t].command.device, calls[t].connection);
      if passes {
        phases, holder := phases[t := Sending], holder[calls[t].connection.session := t];
      } else {
        Finish(t, Raised(OfflineFault));
      }
    }

    method SendDone(t: nat)
      requires Valid() && Commands.Enabled(Hub(), Event.SendDone(t))
      modifies this`phases, this`holder
      ensures Linked() && Hub() == Commands.Apply(old(Hub()), Event.SendDone(t))
    {
      assert Kept(calls[t], t, manager.issued, manager.drawn, manager.waiters);
      phases, holder := phases[t := Awaiting], holder - {calls[t].connection.session};
    }

    /** A failed send disconnects the call's own session before the finally block. */
    method SendFailed(t: nat)
      requires Valid() && Commands.Enabled(Hub(), Event.SendFailed(t))
      modifies this`phases, this`holder, manager.Repr
      ensures Linked() && fresh(manager.Repr - old(manager.Repr))
      ensures Hub() == Commands.Apply(old(Hub()), Event.SendFailed(t))
    {
      ghost var m, drawn := manager.Model(), manager.drawn;
      assert Kept(calls[t], t, manager.issued, manager.drawn, manager.waiters);
      Tables.DisconnectCoherent(m, calls[t].command.device, calls[t].connection.session);
      var _ := manager.Disconnect(calls[t].command.device, calls[t].connection.session);
      KeptStays(calls, manager.issued, drawn, m, manager.drawn, manager.Model());
      Finish(t, Raised(SendFault));
    }

    /** The call reads its own future. */
    method Wake(t: nat)
      requires Valid() && Commands.Enabled(Hub(), Event.Wake(t))
      modifies this`phases, this`holder, manager.Repr
      ensures Linked() && fresh(manager.Repr - old(manager.Repr))
      ensures Hub() == Commands.Apply(old(Hub()), Event.Wake(t))
    {
      assert Kept(calls[t], t, manager.issued, manager.drawn, manager.waiters);
      Finish(t, Delivered(calls[t].entry.future.state));
    }

    /** Any step of the command machine. */
    method Step(e: Event)
      requires Valid() && Commands.Enabled(Hub(), e)
      modifies this, manager.Repr
      ensures Valid() && fresh(manager.Repr - old(manager.Repr))
      ensures Hub() == Commands.Apply(old(Hub()), e)
    {
      Commands.InvPreserved(Hub(), e);
      match e {
        case Submit(c, timeout, now) => Submit(c, timeout, now);
        case Gate(t) => Gate(t);
        case SendDone(t) => SendDone(t);
        case SendFailed(t) => SendFailed(t);
        case Wake(t) => Wake(t);
        case TimeOut(t) => Finish(t, Raised(TimeoutFault));
        case Cancel(t) => Finish(t, Raised(CancelFault));
        case _ => Operate(e);
      }
    }

    /** Any interleaving: the objects go where the machine goes. */
    method Run(es: seq<Event>)
      requires Valid() && Possible(Hub(), es)
      modifies this, manager.Repr
      ensures Valid() && fresh(manager.Repr - old(manager.Repr))
      ensures Commands.Reaches(old(Hub()), es, Hub())
    {
      if es != [] {
        Step(es[0]);
        Run(es[1..]);
      }
    }
  }

  ghost predicate Possible(s: Commands.Hub, es: seq<Event>)
    decreases es
  {
    es != [] ==> Commands.Shaped(s) && Commands.Enabled(s, es[0]) && Possible(Commands.Apply(s, es[0]), es[1..])
  }

  /** From the start, the objects' state is the last of a run of the machine, so every theorem about runs speaks of
      the objects: here, that a call which returned a reply got the one accepted for it. */
  method RunFromStart(es: seq<Event>) returns (x: Executor, ghost ss: seq<Commands.Hub>)
    requires Possible(Commands.INITIAL, es)
    ensures fresh(x) && x.Valid()
    ensures CommandRuns.IsRun(ss, es) && ss[|es|] == x.Hub()
    ensures forall t: nat, r :: t < |x.phases| && x.phases[t] == Finished(Returned(r)) ==>
      && t < |x.calls| && r.command == x.calls[t].command.id
      && Answer(x.calls[t].command.device, x.calls[t].connection.session, r) in es
  {
    x := new Executor();
    x.Run(es);
    ghost var es';
    ss, es' := HubProjection.Extended([Commands.INITIAL], [], es, x.Hub());
    assert es' == es;
    forall t: nat, r | t < |x.phases| && x.phases[t] == Finished(Returned(r))
      ensures t < |x.calls| && r.command == x.calls[t].command.id
      ensures Answer(x.calls[t].command.device, x.calls[t].connection.session, r) in es
    {
      var j := CommandRuns.ReplyCorrelated(ss, es, |es|, t, r);
      assert Kept(x.calls[t], t, x.manager.issued, x.manager.drawn, x.manager.waiters);
    }
  }
}
