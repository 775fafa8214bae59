/** The two tables of the connection manager and what each of its lock-protected bodies does to them.

    The manager's lock is never held across a suspension point, so every body below is one atomic
    action.  Each execute call that registers gets a ticket, its index in `waiters`; the ticket stands
    for the identity of its pending entry and of its future. */
module Tables {
  import opened Domain

  datatype Connection = Connection(
    session: Id, transport: Id, status: Status,
    advertised: set<Capability>, effective: set<Capability>,
    connectedAt: int, lastSeenAt: int)

  datatype Command = Command(
    id: Id, device: Id, capability: Capability, action: string, issuedAt: int, deadlineAt: int)

  datatype Reply = Reply(command: Id, device: Id, succeeded: bool, output: string, completedAt: int)

  /** A future is completed at most once; `Failed` carries the offline error of that device. */
  datatype Future = Open | Resolved(reply: Reply) | Failed(device: Id) | Cancelled

  datatype Waiter = Waiter(command: Command, session: Id, future: Future)

  datatype Entry = Entry(device: Id, session: Id, ticket: nat)

  /** `sessions` remembers every session identifier ever drawn, so that freshness can be stated. */
  datatype Tables = Tables(
    connections: map<Id, Connection>, pending: map<Id, Entry>,
    waiters: seq<Waiter>, sessions: set<Id>)

  const EMPTY := Tables(map[], map[], [], {})

  /** The entry filed under this ticket's command id is this ticket's own. */
  predicate Listed(m: Tables, t: nat) {
    && t < |m.waiters|
    && m.waiters[t].command.id in m.pending
    && m.pending[m.waiters[t].command.id].ticket == t
  }

  /** Every entry belongs to the ticket it names. */
  predicate EntriesFiled(pending: map<Id, Entry>, waiters: seq<Waiter>) {
    forall c <- pending ::
      && pending[c].ticket < |waiters|
      && var w := waiters[pending[c].ticket];
      w.command.id == c && w.command.device == pending[c].device && w.session == pending[c].session
  }

  predicate WellFiled(m: Tables) {
    EntriesFiled(m.pending, m.waiters)
  }

  predicate Current(m: Tables, d: Id, s: Id) {
    d in m.connections && m.connections[d].session == s
  }

  function FailIfListed(m: Tables, devices: set<Id>, t: nat): Waiter
    requires t < |m.waiters|
  {
    var w := m.waiters[t];
    if Listed(m, t) && w.command.device in devices && w.future.Open?
    then w.(future := Failed(w.command.device))
    else w
  }

  /** The waiters once the entries of these devices have been failed. */
  function FailListed(m: Tables, devices: set<Id>): (ws: seq<Waiter>)
    ensures |ws| == |m.waiters|
  {
    seq(|m.waiters|, t requires 0 <= t < |m.waiters| => FailIfListed(m, devices, t))
  }

  /** Failing futures leaves every entry with its ticket. */
  lemma FailListedFiled(m: Tables, devices: set<Id>, pending: map<Id, Entry>)
    requires EntriesFiled(pending, m.waiters)
    ensures EntriesFiled(pending, FailListed(m, devices))
  {}

  /** Take a device's entries out of the table and fail their futures. */
  function DropDevice(m: Tables, d: Id): Tables {
    m.(pending := map c | c in m.pending && m.pending[c].device != d :: m.pending[c],
       waiters := FailListed(m, {d}))
  }

  function NewConnection(s: Id, transport: Id, now: int): Connection {
    Connection(s, transport, Connecting, {}, {}, now, now)
  }

  function Connect(m: Tables, d: Id, s: Id, transport: Id, now: int): Tables {
    DropDevice(m.(connections := m.connections[d := NewConnection(s, transport, now)],
                  sessions := m.sessions + {s}), d)
  }

  datatype Activation = Activated | NotAdvertised | NotCurrent

  function ActivateOutcome(m: Tables, d: Id, s: Id, advertised: set<Capability>, effective: set<Capability>): Activation
  {
    if !(effective <= advertised) then NotAdvertised
    else if !Current(m, d, s) then NotCurrent
    else Activated
  }

  function Activate(m: Tables, d: Id, s: Id, advertised: set<Capability>, effective: set<Capability>, now: int): Tables
  {
    if ActivateOutcome(m, d, s, advertised, effective) != Activated then m
    else m.(connections := m.connections[d := m.connections[d].(
              status := Online, advertised := advertised, effective := effective, lastSeenAt := now)])
  }

  function DisconnectDevice(m: Tables, d: Id): Tables {
    DropDevice(m.(connections := m.connections - {d}), d)
  }

  function Disconnect(m: Tables, d: Id, s: Id): Tables {
    if Current(m, d, s) then DisconnectDevice(m, d) else m
  }

  function Touch(m: Tables, d: Id, s: Id, now: int): Tables {
    if !Current(m, d, s) then m
    else m.(connections := m.connections[d := m.connections[d].(lastSeenAt := now)])
  }

  datatype Admission = BadTimeout | DeadlinePassed | DeviceOffline | NotEffective | AlreadyPending | Admitted

  function Admit(m: Tables, c: Command, timeout: int, now: int): Admission {
    if timeout <= 0 then BadTimeout
    else if c.deadlineAt - now <= 0 then DeadlinePassed
    else if c.device !in m.connections || m.connections[c.device].status != Online then DeviceOffline
    else if c.capability !in m.connections[c.device].effective then NotEffective
    else if c.id in m.pending then AlreadyPending
    else Admitted
  }

  /** The first lock-protected body of execute: file a pending entry under a new ticket. */
  function Register(m: Tables, c: Command, timeout: int, now: int): Tables {
    if Admit(m, c, timeout, now) != Admitted then m
    else
      var s := m.connections[c.device].session;
      m.(pending := m.pending[c.id := Entry(c.device, s, |m.waiters|)],
         waiters := m.waiters + [Waiter(c, s, Open)])
  }

  /** The finally block of execute: the entry goes only if it is this ticket's own. */
  function Cleanup(m: Tables, t: nat): Tables
    requires t < |m.waiters|
  {
    var w := m.waiters[t];
    m.(pending := if Listed(m, t) then m.pending - {w.command.id} else m.pending,
       waiters := if w.future.Open? then m.waiters[t := w.(future := Cancelled)] else m.waiters)
  }

  /** The reply names a pending entry of this device and session, and that session is current. */
  predicate Matches(m: Tables, d: Id, s: Id, r: Reply) {
    && r.command in m.pending
    && m.pending[r.command].device == d
    && m.pending[r.command].session == s
    && r.device == d
    && Current(m, d, s)
  }

  predicate Accepts(m: Tables, d: Id, s: Id, r: Reply)
    requires WellFiled(m)
  {
    Matches(m, d, s, r) && m.waiters[m.pending[r.command].ticket].future.Open?
  }

  function Resolve(m: Tables, d: Id, s: Id, r: Reply): Tables
    requires WellFiled(m)
  {
    if !Matches(m, d, s, r) then m
    else
      var t := m.pending[r.command].ticket;
      m.(pending := m.pending - {r.command},
         waiters :=
           if m.waiters[t].future.Open? then m.waiters[t := m.waiters[t].(future := Resolved(r))] else m.waiters)
  }

  /** close_all empties both tables but fails futures one connected device at a time. */
  function CloseAll(m: Tables): Tables {
    m.(connections := map[], pending := map[], waiters := FailListed(m, m.connections.Keys))
  }

  // ---------- What every body keeps ----------

  /** Sessions are drawn once, so two devices never share one. */
  ghost predicate SessionsDistinct(m: Tables) {
    && (forall d <- m.connections :: m.connections[d].session in m.sessions)
    && (forall d, e | d in m.connections && e in m.connections ::
          m.connections[d].session == m.connections[e].session ==> d == e)
    && (forall t: nat :: t < |m.waiters| ==> m.waiters[t].session in m.sessions)
  }

  /** The waiter's own connection is still its device's connection. */
  predicate StillCurrent(m: Tables, t: nat)
    requires t < |m.waiters|
  {
    Current(m, m.waiters[t].command.device, m.waiters[t].session)
  }

  /** A waiter is listed exactly while its future is open; listed means its session is current and
      online; a failed future means the session is gone; a reply in a future is this waiter's own. */
  ghost predicate WaiterOk(m: Tables, t: nat)
    requires t < |m.waiters|
  {
    var w := m.waiters[t];
    && (Listed(m, t) <==> w.future.Open?)
    && (Listed(m, t) ==> StillCurrent(m, t) && m.connections[w.command.device].status == Online)
    && (w.future.Failed? ==> w.future.device == w.command.device && !StillCurrent(m, t))
    && (w.future.Resolved? ==> w.future.reply.command == w.command.id && w.future.reply.device == w.command.device)
  }

  ghost predicate Coherent(m: Tables) {
    && WellFiled(m)
    && SessionsDistinct(m)
    && (forall t: nat :: t < |m.waiters| ==> WaiterOk(m, t))
  }

  /** History only moves forward: waiters keep their identity, a done future never changes again, and a
      session that was drawn before can be current afterwards only if it was current before, and then an
      online connection stays online. */
  ghost predicate Evolves(m: Tables, m': Tables) {
    && |m.waiters| <= |m'.waiters|
    && m.sessions <= m'.sessions
    && (forall t: nat :: t < |m.waiters| ==>
          && m'.waiters[t].command == m.waiters[t].command
          && m'.waiters[t].session == m.waiters[t].session
          && (!m.waiters[t].future.Open? ==> m'.waiters[t].future == m.waiters[t].future))
    && (forall d, s :: Current(m', d, s) && s in m.sessions ==>
          Current(m, d, s) && (m.connections[d].status == Online ==> m'.connections[d].status == Online))
  }

  lemma EvolvesTransitive(a: Tables, b: Tables, c: Tables)
    requires Evolves(a, b) && Evolves(b, c)
    ensures Evolves(a, c)
  {}

  /** Dropping a device unlists exactly its waiters, and fails exactly those. */
  lemma DropDeviceEffect(m: Tables, d: Id)
    requires WellFiled(m)
    ensures WellFiled(DropDevice(m, d))
    ensures forall t: nat :: t < |m.waiters| ==>
      var w, w' := m.waiters[t], DropDevice(m, d).waiters[t];
      && (Listed(DropDevice(m, d), t) <==> Listed(m, t) && w.command.device != d)
      && w' == if Listed(m, t) && w.command.device == d && w.future.Open? then w.(future := Failed(d)) else w
  {}

  lemma ConnectCoherent(m: Tables, d: Id, s: Id, transport: Id, now: int)
    requires Coherent(m) && s !in m.sessions
    ensures var m' := Connect(m, d, s, transport, now); Coherent(m') && Evolves(m, m')
  {
    var m1 := m.(connections := m.connections[d := NewConnection(s, transport, now)], sessions := m.sessions + {s});
    DropDeviceEffect(m1, d);
    var m' := DropDevice(m1, d);
    forall t: nat | t < |m'.waiters|
      ensures WaiterOk(m', t)
    {
      assert WaiterOk(m, t);
    }
  }

  lemma DisconnectDeviceCoherent(m: Tables, d: Id)
    requires Coherent(m)
    ensures var m' := DisconnectDevice(m, d); Coherent(m') && Evolves(m, m')
  {
    var m1 := m.(connections := m.connections - {d});
    DropDeviceEffect(m1, d);
    var m' := DropDevice(m1, d);
    forall t: nat | t < |m'.waiters|
      ensures WaiterOk(m', t)
    {
      assert WaiterOk(m, t);
    }
  }

  lemma DisconnectCoherent(m: Tables, d: Id, s: Id)
    requires Coherent(m)
    ensures var m' := Disconnect(m, d, s); Coherent(m') && Evolves(m, m')
  {
    DisconnectDeviceCoherent(m, d);
  }

  lemma ActivateCoherent(m: Tables, d: Id, s: Id, adv: set<Capability>, eff: set<Capability>, now: int)
    requires Coherent(m)
    ensures var m' := Activate(m, d, s, adv, eff, now); Coherent(m') && Evolves(m, m')
  {
    var m' := Activate(m, d, s, adv, eff, now);
    forall t: nat | t < |m'.waiters|
      ensures WaiterOk(m', t)
    {
      assert WaiterOk(m, t);
    }
  }

  lemma TouchCoherent(m: Tables, d: Id, s: Id, now: int)
    requires Coherent(m)
    ensures var m' := Touch(m, d, s, now); Coherent(m') && Evolves(m, m')
  {
    var m' := Touch(m, d, s, now);
    forall t: nat | t < |m'.waiters|
      ensures WaiterOk(m', t)
    {
      assert WaiterOk(m, t);
    }
  }

  lemma RegisterCoherent(m: Tables, c: Command, timeout: int, now: int)
    requires Coherent(m)
    ensures var m' := Register(m, c, timeout, now); Coherent(m') && Evolves(m, m')
  {
    var m' := Register(m, c, timeout, now);
    forall t: nat | t < |m'.waiters|
      ensures WaiterOk(m', t)
    {
      assert t < |m.waiters| ==> WaiterOk(m, t);
      assert t < |m.waiters| && c.id == m.waiters[t].command.id && Admit(m, c, timeout, now) == Admitted ==>
        !Listed(m, t);
    }
  }

  /** Cleanup leaves its own waiter unlisted and done, and no other waiter changed. */
  lemma CleanupCoherent(m: Tables, t: nat)
    requires Coherent(m) && t < |m.waiters|
    ensures var m' := Cleanup(m, t);
      && Coherent(m') && Evolves(m, m')
      && !m'.waiters[t].future.Open?
      && m'.connections == m.connections
      && forall u: nat :: u < |m.waiters| && u != t ==>
           m'.waiters[u] == m.waiters[u] && (Listed(m', u) <==> Listed(m, u))
  {
    var m' := Cleanup(m, t);
    assert WaiterOk(m, t);
    forall u: nat | u < |m'.waiters|
      ensures WaiterOk(m', u)
    {
      assert WaiterOk(m, u);
    }
  }

  lemma ResolveCoherent(m: Tables, d: Id, s: Id, r: Reply)
    requires Coherent(m)
    ensures var m' := Resolve(m, d, s, r); Coherent(m') && Evolves(m, m')
  {
    var m' := Resolve(m, d, s, r);
    forall t: nat | t < |m'.waiters|
      ensures WaiterOk(m', t)
    {
      assert WaiterOk(m, t);
      assert Matches(m, d, s, r) ==> WaiterOk(m, m.pending[r.command].ticket);
    }
  }

  lemma CloseAllCoherent(m: Tables)
    requires Coherent(m)
    ensures var m' := CloseAll(m); Coherent(m') && Evolves(m, m')
  {
    var m' := CloseAll(m);
    forall t: nat | t < |m'.waiters|
      ensures WaiterOk(m', t)
    {
      assert WaiterOk(m, t);
    }
  }
}
