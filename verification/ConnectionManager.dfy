/** The connection manager as objects updated in place.  Each method is one lock-protected body; its
    contract says which action of module Tables it performs on the abstract tables. */
module ConnectionManager {
  import opened Domain
  import Tables

  class LiveConnection {
    const session: Id
    const transport: Id
    const connectedAt: int
    ghost const device: Id
    var status: Status
    var advertised: set<Capability>
    var effective: set<Capability>
    var lastSeenAt: int

    constructor (ghost device: Id, session: Id, transport: Id, now: int)
      ensures this.device == device && this.session == session
      ensures this.transport == transport && connectedAt == lastSeenAt == now
      ensures status == Connecting && advertised == {} && effective == {}
    {
      this.device, this.session, this.transport, this.connectedAt := device, session, transport, now;
      status, advertised, effective, lastSeenAt := Connecting, {}, {}, now;
    }

    method Write(status: Status, advertised: set<Capability>, effective: set<Capability>, now: int)
      modifies this
      ensures this.status == status && this.advertised == advertised && this.effective == effective && lastSeenAt == now
    {
      this.status, this.advertised, this.effective, lastSeenAt := status, advertised, effective, now;
    }
  }

  class Future {
    var state: Tables.Future
    ghost const ticket: nat

    constructor (ghost ticket: nat)
      ensures state == Tables.Open && this.ticket == ticket
    {
      state, this.ticket := Tables.Open, ticket;
    }
  }

  class PendingCommand {
    const device: Id
    const session: Id
    const future: Future

    constructor (device: Id, session: Id, future: Future)
      ensures this.device == device && this.session == session && this.future == future
    {
      this.device, this.session, this.future := device, session, future;
    }
  }

  class Manager {
    var connections: map<Id, LiveConnection>
    var pending: map<Id, PendingCommand>

    // The abstract tables, one ghost field a part, and the objects behind them.
    ghost var conns: map<Id, Tables.Connection>
    ghost var filed: map<Id, Tables.Entry>
    ghost var waiters: seq<Tables.Waiter>
    ghost var sessions: set<Id>
    ghost var drawn: map<Id, LiveConnection>  // every connection ever made, by session
    ghost var issued: seq<PendingCommand>     // every pending command ever filed, by ticket
    ghost var Repr: set<object>

    ghost function Model(): Tables.Tables
      reads this`conns, this`filed, this`waiters, this`sessions
    {
      Tables.Tables(conns, filed, waiters, sessions)
    }

    ghost predicate ConnectionsLinked()
      reads this`connections, this`drawn, this`conns, this`sessions, drawn.Values
    {
      && drawn.Keys == sessions
      && (forall s <- drawn :: drawn[s].session == s)
      && connections.Keys == conns.Keys
      && (forall d <- connections ::
            && Attached(drawn, d, connections[d])
            && connections[d].session == conns[d].session
            && connections[d].transport == conns[d].transport
            && connections[d].connectedAt == conns[d].connectedAt
            && connections[d].status == conns[d].status
            && connections[d].advertised == conns[d].advertised
            && connections[d].effective == conns[d].effective
            && connections[d].lastSeenAt == conns[d].lastSeenAt)
    }

    ghost predicate PendingLinked()
      reads this`pending, this`issued, this`filed, this`waiters
    {
      && Tables.EntriesFiled(filed, waiters)
      && |issued| == |waiters|
      && (forall t: nat :: t < |issued| ==>
            issued[t].future.ticket == t && issued[t].device == waiters[t].command.device)
      && pending.Keys == filed.Keys
      && (forall c <- pending :: Filed(issued, pending[c], filed[c]))
    }

    ghost predicate FuturesLinked()
      reads this`issued, this`waiters, set p <- issued :: p.future
    {
      && |issued| == |waiters|
      && (forall t: nat :: t < |issued| ==> issued[t].future.state == waiters[t].future)
    }

    static ghost predicate Attached(drawn: map<Id, LiveConnection>, d: Id, x: LiveConnection) {
      x.device == d && x.session in drawn && drawn[x.session] == x
    }

    /** Every session keeps the connection made for it. */
    static ghost predicate Extends(before: map<Id, LiveConnection>, after: map<Id, LiveConnection>) {
      forall s <- before :: s in after && after[s] == before[s]
    }

    static ghost predicate Filed(issued: seq<PendingCommand>, p: PendingCommand, entry: Tables.Entry) {
      && entry.ticket < |issued| && issued[entry.ticket] == p
      && p.device == entry.device && p.session == entry.session
    }

    ghost predicate Valid()
      reads this, Repr
    {
      && this in Repr
      && drawn.Values <= Repr
      && (forall p <- issued :: p.future in Repr)
      && ConnectionsLinked()
      && PendingLinked()
      && FuturesLinked()
    }

    static function FiledFor(p: map<Id, PendingCommand>, device: Id): set<Id> {
      set c | c in p && p[c].device == device
    }

    constructor ()
      ensures Valid() && fresh(Repr) && Model() == Tables.EMPTY
    {
      connections, pending := map[], map[];
      conns, filed, waiters, sessions := map[], map[], [], {};
      drawn, issued, Repr := map[], [], {this};
    }

    /** Pop every pending entry of a device; the futures are left for the caller to fail. */
    method RemovePendingForDevice(device: Id) returns (removed: set<PendingCommand>)
      modifies this`pending
      ensures pending == old(pending) - FiledFor(old(pending), device)
      ensures forall c <- FiledFor(old(pending), device) :: old(pending)[c] in removed
      ensures forall p <- removed :: exists c :: c in FiledFor(old(pending), device) && old(pending)[c] == p
    {
      var ids := FiledFor(pending, device);
      ghost var all := ids;
      removed := {};
      while ids != {}
        invariant ids <= all
        invariant pending == old(pending) - (all - ids)
        invariant forall c <- all - ids :: old(pending)[c] in removed
        invariant forall p <- removed :: exists c :: c in all && old(pending)[c] == p
        decreases ids
      {
        var c :| c in ids;
        removed := removed + {pending[c]};
        pending := pending - {c};
        ids := ids - {c};
      }
    }

    /** Complete the open futures of these entries with the device's offline error. */
    method FailPending(items: set<PendingCommand>, device: Id)
      modifies set p <- items :: p.future
      ensures forall p <- items ::
        p.future.state == if old(p.future.state).Open? then Tables.Failed(device) else old(p.future.state)
    {
      var rest := items;
      while rest != {}
        invariant rest <= items
        invariant forall p <- items ::
          || p.future.state == (if old(p.future.state).Open? then Tables.Failed(device) else old(p.future.state))
          || (p in rest && p.future.state == old(p.future.state))
        decreases rest
      {
        var p :| p in rest;
        if p.future.state.Open? {
          p.future.state := Tables.Failed(device);
        }
        rest := rest - {p};
      }
    }

    /** An issued entry is the table's own exactly while its ticket is listed. */
    lemma FiledIffListed(t: nat)
      requires PendingLinked() && t < |issued|
      ensures var c := waiters[t].command.id;
        && (Tables.Listed(Model(), t) <==> c in pending && pending[c] == issued[t])
        && (forall e <- pending :: pending[e] == issued[t] ==> e == c)
    {}

    /** Pop a device's entries: exactly the issued entries of the listed waiters of that device. */
    method TakePending(device: Id) returns (removed: set<PendingCommand>)
      requires PendingLinked()
      modifies this`pending, this`filed
      ensures PendingLinked()
      ensures filed == Tables.DropDevice(old(Model()), device).pending
      ensures forall p <- removed :: p.future.ticket < |issued| && issued[p.future.ticket] == p
      ensures forall t: nat :: t < |issued| ==>
        (issued[t] in removed <==> Tables.Listed(old(Model()), t) && waiters[t].command.device == device)
    {
      forall t: nat | t < |issued|
        ensures var c := waiters[t].command.id;
          && (Tables.Listed(Model(), t) <==> c in pending && pending[c] == issued[t])
          && (forall e <- pending :: pending[e] == issued[t] ==> e == c)
      {
        FiledIffListed(t);
      }
      forall c <- pending
        ensures Filed(issued, pending[c], filed[c])
        ensures pending[c].device == waiters[pending[c].future.ticket].command.device
      {}
      ghost var rest := Tables.DropDevice(Model(), device).pending;
      removed := RemovePendingForDevice(device);
      filed := rest;
    }

    /** Fail the futures of a device's entries, once they have been taken out. */
    method FailTaken(removed: set<PendingCommand>, device: Id, ghost m: Tables.Tables)
      requires FuturesLinked() && waiters == m.waiters
      requires forall t: nat :: t < |issued| ==>
        && issued[t].future.ticket == t
        && (issued[t] in removed <==> Tables.Listed(m, t) && m.waiters[t].command.device == device)
      requires forall p <- removed :: p in issued
      modifies this`waiters, set p <- removed :: p.future
      ensures FuturesLinked() && waiters == Tables.FailListed(m, {device})
    {
      FailPending(removed, device);
      waiters := Tables.FailListed(m, {device});
    }

    /** Pop a device's entries and fail their futures. */
    method DropPending(device: Id)
      requires PendingLinked() && FuturesLinked()
      modifies this`pending, this`filed, this`waiters, set p <- issued :: p.future
      ensures PendingLinked() && FuturesLinked()
      ensures Model() == Tables.DropDevice(old(Model()), device)
    {
      ghost var m := Model();
      var removed := TakePending(device);
      Tables.FailListedFiled(m, {device}, filed);
      FailTaken(removed, device, m);
    }

    /** A new connection object takes the device's place in the table. */
    method Install(device: Id, transport: Id, session: Id, now: int) returns (connection: LiveConnection)
      requires ConnectionsLinked() && session !in sessions
      modifies this`connections, this`conns, this`sessions, this`drawn
      ensures ConnectionsLinked() && fresh(connection)
      ensures conns == old(conns)[device := Tables.NewConnection(session, transport, now)]
      ensures sessions == old(sessions) + {session}
      ensures drawn == old(drawn)[session := connection]
    {
      connection := new LiveConnection(device, session, transport, now);
      connections, drawn := connections[device := connection], drawn[session := connection];
      conns, sessions := conns[device := Tables.NewConnection(session, transport, now)], sessions + {session};
    }

    method Place(device: Id, transport: Id, session: Id, now: int)
      requires Valid() && session !in sessions
      modifies this`connections, this`conns, this`sessions, this`drawn, this`Repr
      ensures Valid() && fresh(Repr - old(Repr)) && old(Repr) <= Repr
      ensures conns == old(conns)[device := Tables.NewConnection(session, transport, now)]
      ensures sessions == old(sessions) + {session}
      ensures Extends(old(drawn), drawn)
    {
      var connection := Install(device, transport, session, now);
      Repr := Repr + {connection};
    }

    /** Make a connecting session the device's own; hand back the transport it replaces for closing. */
    method Connect(device: Id, transport: Id, session: Id, now: int) returns (replaced: Option<LiveConnection>)
      requires Valid() && session !in sessions
      modifies Repr
      ensures Valid() && fresh(Repr - old(Repr))
      ensures issued == old(issued) && Extends(old(drawn), drawn)
      ensures Model() == Tables.Connect(old(Model()), device, session, transport, now)
      ensures replaced == if device in old(connections) then Some(old(connections)[device]) else None
    {
      replaced := if device in connections then Some(connections[device]) else None;
      Place(device, transport, session, now);
      DropPending(device);
    }

    /** Write the fields of a device's live connection. */
    method Update(device: Id, status: Status, advertised: set<Capability>, effective: set<Capability>, now: int)
      requires device in connections && ConnectionsLinked()
      modifies connections[device], this`conns
      ensures ConnectionsLinked()
      ensures conns == old(conns)[device := old(conns)[device].(
        status := status, advertised := advertised, effective := effective, lastSeenAt := now)]
    {
      connections[device].Write(status, advertised, effective, now);
      conns := conns[device := conns[device].(
        status := status, advertised := advertised, effective := effective, lastSeenAt := now)];
    }

    method Activate(device: Id, session: Id, advertised: set<Capability>, effective: set<Capability>, now: int)
      returns (outcome: Tables.Activation)
      requires Valid()
      modifies Repr
      ensures Valid() && Repr == old(Repr) && issued == old(issued) && drawn == old(drawn)
      ensures outcome == Tables.ActivateOutcome(old(Model()), device, session, advertised, effective)
      ensures Model() == Tables.Activate(old(Model()), device, session, advertised, effective, now)
    {
      if !(effective <= advertised) {
        outcome := Tables.NotAdvertised;
      } else if device !in connections || connections[device].session != session {
        outcome := Tables.NotCurrent;
      } else {
        Update(device, Online, advertised, effective, now);
        outcome := Tables.Activated;
      }
    }

    method DisconnectDevice(device: Id) returns (popped: Option<LiveConnection>)
      requires Valid()
      modifies Repr
      ensures Valid() && Repr == old(Repr) && issued == old(issued) && drawn == old(drawn)
      ensures Model() == Tables.DisconnectDevice(old(Model()), device)
      ensures popped == if device in old(connections) then Some(old(connections)[device]) else None
    {
      popped := if device in connections then Some(connections[device]) else None;
      connections := connections - {device};
      conns := conns - {device};
      DropPending(device);
    }

    method Disconnect(device: Id, session: Id) returns (removed: bool)
      requires Valid()
      modifies Repr
      ensures Valid() && Repr == old(Repr) && issued == old(issued) && drawn == old(drawn)
      ensures removed == Tables.Current(old(Model()), device, session)
      ensures Model() == Tables.Disconnect(old(Model()), device, session)
    {
      if device !in connections || connections[device].session != session {
        return false;
      }
      connections := connections - {device};
      conns := conns - {device};
      DropPending(device);
      removed := true;
    }

    method GetState(device: Id) returns (state: Option<Tables.Connection>)
      requires Valid()
      ensures state == if device in conns then Some(conns[device]) else None
    {
      if device !in connections {
        return None;
      }
      var x := connections[device];
      state := Some(Tables.Connection(
        x.session, x.transport, x.status, x.advertised, x.effective, x.connectedAt, x.lastSeenAt));
    }

    method See(device: Id, now: int)
      requires device in connections && ConnectionsLinked()
      modifies connections[device], this`conns
      ensures ConnectionsLinked()
      ensures conns == old(conns)[device := old(conns)[device].(lastSeenAt := now)]
    {
      connections[device].lastSeenAt := now;
      conns := conns[device := conns[device].(lastSeenAt := now)];
    }

    method Touch(device: Id, session: Id, now: int) returns (seen: bool)
      requires Valid()
      modifies Repr
      ensures Valid() && Repr == old(Repr) && issued == old(issued) && drawn == old(drawn)
      ensures seen == Tables.Current(old(Model()), device, session)
      ensures Model() == Tables.Touch(old(Model()), device, session, now)
    {
      seen := device in connections && connections[device].session == session;
      if seen {
        See(device, now);
      }
    }

    /** A new entry with an open future is filed under the command's id. */
    method File(c: Tables.Command, session: Id) returns (entry: PendingCommand)
      requires PendingLinked() && FuturesLinked() && c.id !in pending
      modifies this`pending, this`issued, this`filed, this`waiters
      ensures PendingLinked() && FuturesLinked() && fresh(entry.future)
      ensures issued == old(issued) + [entry] && entry.future.ticket == |old(waiters)|
      ensures filed == old(filed)[c.id := Tables.Entry(c.device, session, |old(waiters)|)]
      ensures waiters == old(waiters) + [Tables.Waiter(c, session, Tables.Open)]
    {
      var future := new Future(|issued|);
      entry := new PendingCommand(c.device, session, future);
      pending, issued := pending[c.id := entry], issued + [entry];
      filed := filed[c.id := Tables.Entry(c.device, session, |waiters|)];
      waiters := waiters + [Tables.Waiter(c, session, Tables.Open)];
    }

    /** The checks of execute, in their order. */
    method Judge(c: Tables.Command, timeout: int, now: int) returns (admission: Tables.Admission)
      requires ConnectionsLinked() && PendingLinked()
      ensures admission == Tables.Admit(Model(), c, timeout, now)
    {
      if timeout <= 0 {
        return Tables.BadTimeout;
      }
      if c.deadlineAt - now <= 0 {
        return Tables.DeadlinePassed;
      }
      if c.device !in connections || connections[c.device].status != Online {
        return Tables.DeviceOffline;
      }
      if c.capability !in connections[c.device].effective {
        return Tables.NotEffective;
      }
      if c.id in pending {
        return Tables.AlreadyPending;
      }
      return Tables.Admitted;
    }

    /** Remember the connection and file the command under its session. */
    method Enroll(c: Tables.Command) returns (connection: LiveConnection, entry: PendingCommand)
      requires Valid() && c.device in connections && c.id !in pending
      modifies this`pending, this`issued, this`filed, this`waiters, this`Repr
      ensures Valid() && fresh(Repr - old(Repr))
      ensures connection == connections[c.device]
      ensures filed == old(filed)[c.id := Tables.Entry(c.device, connection.session, |old(waiters)|)]
      ensures waiters == old(waiters) + [Tables.Waiter(c, connection.session, Tables.Open)]
      ensures entry.future.ticket == |old(waiters)| && issued == old(issued) + [entry]
    {
      connection := connections[c.device];
      entry := File(c, connection.session);
      Repr := Repr + {entry.future};
    }

    /** The checks of execute and its first lock-protected body. */
    method Register(c: Tables.Command, timeout: int, now: int)
      returns (admission: Tables.Admission, connection: LiveConnection?, entry: PendingCommand?)
      requires Valid()
      modifies Repr
      ensures Valid() && fresh(Repr - old(Repr))
      ensures admission == Tables.Admit(old(Model()), c, timeout, now)
      ensures Model() == Tables.Register(old(Model()), c, timeout, now)
      ensures drawn == old(drawn) && (!admission.Admitted? ==> issued == old(issued))
      ensures admission.Admitted? ==>
        && c.device in old(connections) && connection == old(connections)[c.device]
        && connection.session in drawn && drawn[connection.session] == connection
        && waiters == old(waiters) + [Tables.Waiter(c, connection.session, Tables.Open)]
        && entry != null && entry.future.ticket == |old(waiters)| && issued == old(issued) + [entry]
    {
      admission := Judge(c, timeout, now);
      if !admission.Admitted? {
        return admission, null, null;
      }
      connection, entry := Enroll(c);
    }

    /** The object-identity test under the send lock is the session test of the abstract gate. */
    method IsStillOwn(device: Id, connection: LiveConnection) returns (same: bool)
      requires Valid() && connection.session in drawn && drawn[connection.session] == connection
      ensures same == Tables.Current(Model(), device, connection.session)
    {
      same := device in connections && connections[device] == connection;
    }

    /** Take an issued entry out of the table if it is the one filed there. */
    method Unfile(command: Id, entry: PendingCommand)
      requires PendingLinked()
      requires entry.future.ticket < |issued| && issued[entry.future.ticket] == entry
      requires waiters[entry.future.ticket].command.id == command
      modifies this`pending, this`filed
      ensures PendingLinked()
      ensures filed == if Tables.Listed(old(Model()), entry.future.ticket) then old(filed) - {command} else old(filed)
    {
      FiledIffListed(entry.future.ticket);
      if command in pending && pending[command] == entry {
        pending, filed := pending - {command}, filed - {command};
      }
    }

    /** Complete an issued entry's future unless it is done. */
    method Complete(entry: PendingCommand, outcome: Tables.Future)
      requires PendingLinked() && FuturesLinked()
      requires entry.future.ticket < |issued| && issued[entry.future.ticket] == entry
      modifies this`waiters, entry.future
      ensures PendingLinked() && FuturesLinked()
      ensures var t := entry.future.ticket;
        waiters ==
          if old(waiters)[t].future.Open? then old(waiters)[t := old(waiters)[t].(future := outcome)] else old(waiters)
    {
      if entry.future.state.Open? {
        ghost var t := entry.future.ticket;
        entry.future.state := outcome;
        waiters := waiters[t := waiters[t].(future := outcome)];
      }
    }

    /** Take an issued entry out of the table if it is the one filed there, and complete its future if
        that is still open. */
    method Settle(command: Id, entry: PendingCommand, outcome: Tables.Future)
      requires PendingLinked() && FuturesLinked()
      requires entry.future.ticket < |issued| && issued[entry.future.ticket] == entry
      requires waiters[entry.future.ticket].command.id == command
      modifies this`pending, this`filed, this`waiters, entry.future
      ensures PendingLinked() && FuturesLinked()
      ensures var t := entry.future.ticket;
        && filed == (if Tables.Listed(old(Model()), t) then old(filed) - {command} else old(filed))
        && waiters == (
          if old(waiters)[t].future.Open? then old(waiters)[t := old(waiters)[t].(future := outcome)] else old(waiters))
    {
      Unfile(command, entry);
      Complete(entry, outcome);
    }

    /** The finally block of execute: the identity test decides whose entry goes. */
    method Finish(command: Id, entry: PendingCommand)
      requires Valid()
      requires entry.future.ticket < |issued| && issued[entry.future.ticket] == entry
      requires waiters[entry.future.ticket].command.id == command
      modifies Repr
      ensures Valid() && Repr == old(Repr) && issued == old(issued) && drawn == old(drawn)
      ensures Model() == Tables.Cleanup(old(Model()), entry.future.ticket)
    {
      Settle(command, entry, Tables.Cancelled);
    }

    /** Take out the entry filed under the reply's command and complete its future. */
    method Answer(device: Id, session: Id, reply: Tables.Reply) returns (accepted: bool)
      requires ConnectionsLinked() && PendingLinked() && FuturesLinked()
      requires Tables.Matches(Model(), device, session, reply)
      modifies this`pending, this`filed, this`waiters, set p <- issued :: p.future
      ensures ConnectionsLinked() && PendingLinked() && FuturesLinked()
      ensures issued == old(issued) && drawn == old(drawn) && Repr == old(Repr)
      ensures accepted == Tables.Accepts(old(Model()), device, session, reply)
      ensures Model() == Tables.Resolve(old(Model()), device, session, reply)
    {
      var entry := pending[reply.command];
      assert Filed(issued, entry, filed[reply.command]);
      accepted := entry.future.state.Open?;
      Settle(reply.command, entry, Tables.Resolved(reply));
    }

    /** The checks of resolve, in their order. */
    method Matching(device: Id, session: Id, reply: Tables.Reply) returns (matches: bool)
      requires ConnectionsLinked() && PendingLinked()
      ensures matches == Tables.Matches(Model(), device, session, reply)
    {
      if reply.command !in pending {
        return false;
      }
      var entry := pending[reply.command];
      assert Filed(issued, entry, filed[reply.command]);
      if entry.device != device || entry.session != session || reply.device != device {
        return false;
      }
      matches := device in connections && connections[device].session == session;
    }

    method Resolve(device: Id, session: Id, reply: Tables.Reply) returns (accepted: bool)
      requires Valid()
      modifies Repr
      ensures Valid() && Repr == old(Repr) && issued == old(issued) && drawn == old(drawn)
      ensures accepted == Tables.Accepts(old(Model()), device, session, reply)
      ensures Model() == Tables.Resolve(old(Model()), device, session, reply)
    {
      accepted := Matching(device, session, reply);
      if accepted {
        accepted := Answer(device, session, reply);
      }
    }

    /** Fail the futures of these entries one device at a time. */
    method FailByDevice(devices: set<Id>, items: set<PendingCommand>, ghost m: Tables.Tables)
      requires FuturesLinked() && waiters == m.waiters
      requires forall t: nat :: t < |issued| ==>
        && issued[t].future.ticket == t && issued[t].device == waiters[t].command.device
        && (issued[t] in items <==> Tables.Listed(m, t))
      requires forall p <- items :: p in issued
      modifies this`waiters, set p <- issued :: p.future
      ensures FuturesLinked() && waiters == Tables.FailListed(m, devices)
    {
      var rest := devices;
      while rest != {}
        invariant rest <= devices
        invariant waiters == Tables.FailListed(m, devices - rest)
        invariant FuturesLinked()
        decreases rest
      {
        var d :| d in rest;
        var mine := set p | p in items && p.device == d;
        FailPending(mine, d);
        rest := rest - {d};
        waiters := Tables.FailListed(m, devices - rest);
      }
    }

    /** Empty both tables; the entries that were filed are left for the caller to fail. */
    method TakeAll() returns (items: set<PendingCommand>)
      requires ConnectionsLinked() && PendingLinked()
      modifies this`connections, this`pending, this`conns, this`filed
      ensures ConnectionsLinked() && PendingLinked()
      ensures connections == map[] && conns == map[] && filed == map[]
      ensures forall p <- items :: p in issued
      ensures forall t: nat :: t < |issued| ==> (issued[t] in items <==> Tables.Listed(old(Model()), t))
    {
      items := set c <- pending :: pending[c];
      forall t: nat | t < |issued|
        ensures issued[t] in items <==> Tables.Listed(Model(), t)
      {
        FiledIffListed(t);
      }
      connections, pending := map[], map[];
      conns, filed := map[], map[];
    }

    /** Empty both tables, then fail the futures one connected device at a time. */
    method CloseAll() returns (closing: map<Id, LiveConnection>)
      requires Valid()
      modifies Repr
      ensures Valid() && Repr == old(Repr) && issued == old(issued) && drawn == old(drawn)
      ensures Model() == Tables.CloseAll(old(Model()))
      ensures closing == old(connections)
    {
      ghost var m := Model();
      closing := connections;
      var items := TakeAll();
      FailByDevice(closing.Keys, items, m);
    }
  }
}
