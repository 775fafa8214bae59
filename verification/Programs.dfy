/** Every operation of the hub as a program: what it locks, in what order, where it waits, and where it can raise.
    Data is left to chance, so a program has every run the operation has. */
module Programs {
  import opened Domain

  datatype Lock =
    | Lifecycle                       // the service's
    | Pairing                         // the pairing service's
    | Sending(connection: nat)        // a live connection's
    | Wire(transport: nat)            // a web socket transport's
    | Manager | Registry | Identity   // the in-memory stores'

  const TOP: nat := 4

  /** A lock is only ever taken by a task whose other locks all rank higher. */
  function Rank(l: Lock): nat {
    match l
    case Lifecycle => 3
    case Pairing => 3
    case Sending(_) => 2
    case Wire(_) => 1
    case _ => 0
  }

  datatype Code =
    | Skip
    | Raise
    | Await                                                              // a socket, a timer, a future, the database
    | Seq(first: Code, second: Code)
    | Choice(one: Code, other: Code)
    | Loop(body: Code)
    | With(lock: Lock, body: Code)                                       // async with
    | Except(body: Code, handler: Code, cancelled: bool, again: bool)    // does it catch cancellation, does it reraise
    | Finally(body: Code, cleanup: Code)
    | Fork(child: Code, body: Code)                                      // a task that body's end waits for

  /** Locks are nested downwards in rank, store locks are held over no wait at all, and a task that waits for
      another one holds nothing. */
  predicate Ordered(c: Code, below: nat) {
    match c
    case Skip => true
    case Raise => true
    case Await => below > 0
    case Seq(a, b) => Ordered(a, below) && Ordered(b, below)
    case Choice(a, b) => Ordered(a, below) && Ordered(b, below)
    case Loop(b) => Ordered(b, below)
    case With(l, b) => Rank(l) < below && Ordered(b, Rank(l))
    case Except(b, h, _, _) => Ordered(b, below) && Ordered(h, below)
    case Finally(b, f) => Ordered(b, below) && Ordered(f, below)
    case Fork(k, b) => below == TOP && Ordered(k, TOP) && Ordered(b, TOP) && Lone(k)
  }

  /** Starts no task. */
  predicate Lone(c: Code) {
    match c
    case Skip => true
    case Raise => true
    case Await => true
    case Seq(a, b) => Lone(a) && Lone(b)
    case Choice(a, b) => Lone(a) && Lone(b)
    case Loop(b) => Lone(b)
    case With(_, b) => Lone(b)
    case Except(b, h, _, _) => Lone(b) && Lone(h)
    case Finally(b, f) => Lone(b) && Lone(f)
    case Fork(_, _) => false
  }

  // ---------- The programs ----------

  const MAYBE_RAISE := Choice(Skip, Raise)

  function Maybe(c: Code): Code {
    Choice(Skip, c)
  }

  function Then(a: Code, b: Code, c: Code): Code {
    Seq(a, Seq(b, c))
  }

  /** One access to a store: under the store's own lock, or in the database. */
  function Stored(l: Lock): Code {
    Choice(With(l, MAYBE_RAISE), Await)
  }

  /** One access to the connection manager's tables. */
  const MANAGED := With(Manager, MAYBE_RAISE)

  function Send(transport: nat): Code {
    With(Wire(transport), Choice(Raise, Await))
  }

  function Close(transport: nat): Code {
    With(Wire(transport), Maybe(Except(Await, Skip, false, false)))
  }

  function CloseQuietly(transport: nat): Code {
    Except(Close(transport), Skip, false, false)
  }

  /** A registered device with its connection's state. */
  const HYDRATED := Seq(FOUND, Maybe(MANAGED))

  const AUTHENTICATE := Then(Stored(Identity), MAYBE_RAISE, HYDRATED)

  /** Take a connection out of the tables, then close its transport. */
  function Drop(transport: nat): Code {
    Seq(MANAGED, Maybe(CloseQuietly(transport)))
  }

  const FOUND := Seq(Stored(Registry), MAYBE_RAISE)

  function Revoke(transport: nat): Code {
    With(Lifecycle, Then(FOUND, Maybe(Seq(Stored(Identity), Stored(Registry))), Drop(transport)))
  }

  function Connect(replaced: nat): Code {
    With(Lifecycle, Seq(FOUND, Drop(replaced)))
  }

  const ACTIVATE := Seq(FOUND, MANAGED)

  /** Register, send under the connection's lock, wait for the answer, clean up. */
  function Execute(connection: nat, transport: nat): Code {
    Seq(
      Then(HYDRATED, MAYBE_RAISE, MANAGED),
      Finally(Seq(With(Sending(connection), GatedSend(transport)), Await), MANAGED))
  }

  /** A failed send disconnects its own session. */
  function GatedSend(transport: nat): Code {
    Seq(MANAGED, Except(Send(transport), MANAGED, false, true))
  }

  /** Add; whatever happens to that, compensate: revoke, and remove in any case. */
  const ADD_OR_UNDO := Except(Stored(Registry), Finally(Stored(Identity), Stored(Registry)), true, true)

  /** Issue and add. */
  const ENROLL := Seq(Stored(Identity), ADD_OR_UNDO)

  const CLAIM_IN_MEMORY := With(Pairing, Seq(MAYBE_RAISE, Maybe(ENROLL)))

  const CLAIM_IN_DATABASE := With(Pairing, Seq(MAYBE_RAISE, Maybe(Await)))

  function Heartbeat(transport: nat): Code {
    Seq(Loop(Then(Await, Send(transport), Await)), Maybe(Close(transport)))
  }

  function ProtocolError(transport: nat): Code {
    Seq(Maybe(Send(transport)), Close(transport))
  }

  /** Connect, greet, and wait for the device's greeting. */
  function Greeting(transport: nat, replaced: nat): Code {
    Then(Connect(replaced), Send(transport), Await)
  }

  /** Activate and say so, or refuse the greeting. */
  function Opening(transport: nat): Code {
    Choice(Seq(ProtocolError(transport), Raise), Seq(ACTIVATE, Send(transport)))
  }

  /** A pong, a capability update or a command result. */
  function Inbound(transport: nat): Code {
    Choice(MANAGED, Choice(Seq(ACTIVATE, Send(transport)), Except(MANAGED, Send(transport), false, false)))
  }

  function Reader(transport: nat): Code {
    Loop(Then(Await, MAYBE_RAISE, Inbound(transport)))
  }

  function Reporting(body: Code, transport: nat): Code {
    Except(body, Maybe(ProtocolError(transport)), false, false)
  }

  /** One web socket session; the heartbeat ends before the session is given up. */
  function Session(transport: nat, replaced: nat): Code {
    Then(
      Greeting(transport, replaced),
      Opening(transport),
      Fork(Heartbeat(transport), Reporting(Reader(transport), transport)))
  }

  function Gateway(transport: nat, replaced: nat): Code {
    Then(AUTHENTICATE, Await, Finally(Reporting(Session(transport, replaced), transport), Maybe(MANAGED)))
  }

  /** Empty the tables, then close all transports at the same time and wait for all of them. */
  function Shutdown(transports: seq<nat>): Code {
    Seq(MANAGED, Gather(transports))
  }

  function Gather(transports: seq<nat>): Code {
    if transports == [] then Skip else Fork(CloseQuietly(transports[0]), Gather(transports[1..]))
  }

  datatype Operation =
    | Authenticating | Listing | Getting
    | Revoking(transport: nat) | Connecting(replaced: nat) | Activating
    | Disconnecting | Seeing | Answering
    | Executing(connection: nat, transport: nat)
    | CreatingPairing | ClaimingInMemory | ClaimingInDatabase
    | Serving(transport: nat, replaced: nat)
    | ShuttingDown(transports: seq<nat>)

  function Program(op: Operation): Code {
    match op
    case Authenticating => AUTHENTICATE
    case Listing => Seq(Stored(Registry), Loop(Maybe(MANAGED)))
    case Getting => HYDRATED
    case Revoking(t) => Revoke(t)
    case Connecting(t) => Connect(t)
    case Activating => ACTIVATE
    case Disconnecting => MANAGED
    case Seeing => MANAGED
    case Answering => MANAGED
    case Executing(c, t) => Execute(c, t)
    case CreatingPairing => With(Pairing, MAYBE_RAISE)
    case ClaimingInMemory => CLAIM_IN_MEMORY
    case ClaimingInDatabase => CLAIM_IN_DATABASE
    case Serving(t, r) => Gateway(t, r)
    case ShuttingDown(ts) => Shutdown(ts)
  }

  // ---------- The discipline ----------

  lemma StoresOrdered(below: nat)
    requires 1 <= below <= TOP
    ensures Ordered(MAYBE_RAISE, below) && Ordered(MANAGED, below) && Ordered(FOUND, below)
    ensures Ordered(Stored(Identity), below) && Ordered(Stored(Registry), below)
  {}

  lemma LookupsOrdered(below: nat)
    requires 1 <= below <= TOP
    ensures Ordered(HYDRATED, below) && Ordered(ACTIVATE, below)
    ensures Ordered(AUTHENTICATE, below) && Ordered(ENROLL, below)
  {
    StoresOrdered(below);
  }

  lemma WiresOrdered(t: nat, below: nat)
    requires 2 <= below <= TOP
    ensures Ordered(Send(t), below) && Ordered(Close(t), below) && Ordered(CloseQuietly(t), below)
    ensures Ordered(ProtocolError(t), below)
  {
    assert Ordered(Except(Await, Skip, false, false), 1);
  }

  lemma DropOrdered(t: nat, below: nat)
    requires 2 <= below <= TOP
    ensures Ordered(Drop(t), below) && Ordered(GatedSend(t), below)
  {
    StoresOrdered(below);
    WiresOrdered(t, below);
  }

  lemma WiresLone(t: nat)
    ensures Lone(Send(t)) && Lone(Close(t)) && Lone(CloseQuietly(t))
  {}

  lemma {:induction false} GatherOrdered(ts: seq<nat>)
    ensures Ordered(Gather(ts), TOP)
  {
    if ts != [] {
      WiresOrdered(ts[0], TOP);
      WiresLone(ts[0]);
      GatherOrdered(ts[1..]);
    }
  }

  lemma ConnectOrdered(t: nat)
    ensures Ordered(Connect(t), TOP)
  {
    StoresOrdered(3);
    DropOrdered(t, 3);
  }

  lemma RevokeOrdered(t: nat)
    ensures Ordered(Revoke(t), TOP)
  {
    StoresOrdered(3);
    DropOrdered(t, 3);
    assert Ordered(Seq(Maybe(Seq(Stored(Identity), Stored(Registry))), Drop(t)), 3);
  }

  lemma ExecuteOrdered(c: nat, t: nat)
    ensures Ordered(Execute(c, t), TOP)
  {
    StoresOrdered(TOP);
    LookupsOrdered(TOP);
    DropOrdered(t, 2);
    var send := Seq(With(Sending(c), GatedSend(t)), Await);
    assert Ordered(send, TOP);
    assert Ordered(Finally(send, MANAGED), TOP);
  }

  lemma ClaimsOrdered()
    ensures Ordered(CLAIM_IN_MEMORY, TOP) && Ordered(CLAIM_IN_DATABASE, TOP)
  {}

  lemma ReaderOrdered(t: nat)
    ensures Ordered(Reporting(Reader(t), t), TOP) && Ordered(Opening(t), TOP)
  {
    StoresOrdered(TOP);
    LookupsOrdered(TOP);
    WiresOrdered(t, TOP);
    assert Ordered(Inbound(t), TOP);
    assert Ordered(Then(Await, MAYBE_RAISE, Inbound(t)), TOP);
  }

  lemma HeartbeatOrdered(t: nat)
    ensures Ordered(Heartbeat(t), TOP) && Lone(Heartbeat(t))
  {
    WiresOrdered(t, TOP);
    WiresLone(t);
    var ping := Then(Await, Send(t), Await);
    assert Ordered(ping, TOP) && Lone(ping);
  }

  lemma GatewayOrdered(t: nat, r: nat)
    ensures Ordered(Gateway(t, r), TOP)
  {
    StoresOrdered(TOP);
    LookupsOrdered(TOP);
    WiresOrdered(t, TOP);
    ConnectOrdered(r);
    ReaderOrdered(t);
    HeartbeatOrdered(t);
    assert Ordered(Greeting(t, r), TOP);
    assert Ordered(Session(t, r), TOP);
    assert Ordered(Reporting(Session(t, r), t), TOP);
  }

  lemma LookupOperationsOrdered(op: Operation)
    requires
      || op.Authenticating? || op.Listing? || op.Getting? || op.Activating?
      || op.Disconnecting? || op.Seeing? || op.Answering? || op.CreatingPairing?
    ensures Ordered(Program(op), TOP)
  {}

  /** Each operation keeps to the order. */
  lemma ProgramsOrdered(op: Operation)
    ensures Ordered(Program(op), TOP)
  {
    match op
    case Revoking(t) => RevokeOrdered(t);
    case Connecting(t) => ConnectOrdered(t);
    case Executing(c, t) => ExecuteOrdered(c, t);
    case ClaimingInMemory => ClaimsOrdered();
    case ClaimingInDatabase => ClaimsOrdered();
    case Serving(t, r) => GatewayOrdered(t, r);
    case ShuttingDown(ts) => GatherOrdered(ts);
    case _ => LookupOperationsOrdered(op);
  }

  // ---------- What they lock ----------

  function Locks(c: Code): set<Lock> {
    match c
    case Skip => {}
    case Raise => {}
    case Await => {}
    case Seq(a, b) => Locks(a) + Locks(b)
    case Choice(a, b) => Locks(a) + Locks(b)
    case Loop(b) => Locks(b)
    case With(l, b) => {l} + Locks(b)
    case Except(b, h, _, _) => Locks(b) + Locks(h)
    case Finally(b, f) => Locks(b) + Locks(f)
    case Fork(k, b) => Locks(k) + Locks(b)
  }

  lemma StoresLock()
    ensures Locks(MAYBE_RAISE) == {} && Locks(MANAGED) == {Manager}
    ensures Locks(Stored(Registry)) == {Registry} && Locks(Stored(Identity)) == {Identity}
    ensures Locks(FOUND) == {Registry}
  {}

  lemma LookupsLock()
    ensures Locks(HYDRATED) == {Registry, Manager} && Locks(ACTIVATE) == {Registry, Manager}
    ensures Locks(AUTHENTICATE) == {Identity, Registry, Manager}
    ensures Locks(ENROLL) == {Identity, Registry}
  {
    StoresLock();
  }

  lemma WiresLock(t: nat)
    ensures Locks(Send(t)) == Locks(Close(t)) == Locks(CloseQuietly(t)) == Locks(ProtocolError(t)) == {Wire(t)}
    ensures Locks(Drop(t)) == Locks(GatedSend(t)) == {Manager, Wire(t)}
  {}

  /** Revocation takes these locks, all of them under the lifecycle lock. */
  lemma RevokeLocks(t: nat)
    ensures Revoke(t).lock == Lifecycle && Locks(Revoke(t).body) == {Registry, Identity, Manager, Wire(t)}
  {
    StoresLock();
    WiresLock(t);
    assert Locks(Maybe(Seq(Stored(Identity), Stored(Registry)))) == {Identity, Registry};
  }

  /** So does connecting, with the replaced transport. */
  lemma ConnectLocks(r: nat)
    ensures Connect(r).lock == Lifecycle && Locks(Connect(r).body) == {Registry, Manager, Wire(r)}
  {
    StoresLock();
    WiresLock(r);
  }

  /** Executing looks the device up and registers, and sends under the connection's send lock. */
  lemma ExecuteLocks(c: nat, t: nat)
    ensures Locks(Execute(c, t)) == {Registry, Manager, Sending(c), Wire(t)}
  {
    StoresLock();
    LookupsLock();
    WiresLock(t);
    assert Locks(With(Sending(c), GatedSend(t))) == {Sending(c), Manager, Wire(t)};
    assert Locks(Seq(With(Sending(c), GatedSend(t)), Await)) == {Sending(c), Manager, Wire(t)};
  }

  /** A claim takes the pairing lock, and the in-memory one both store locks under it. */
  lemma ClaimLocks()
    ensures CLAIM_IN_MEMORY.lock == CLAIM_IN_DATABASE.lock == Pairing
    ensures Locks(CLAIM_IN_MEMORY.body) == {Identity, Registry} && Locks(CLAIM_IN_DATABASE.body) == {}
  {
    StoresLock();
    LookupsLock();
  }

  /** A reader takes the store and manager locks and its own transport's; the heartbeat only that. */
  lemma ReaderLocks(t: nat)
    ensures Locks(Reader(t)) == {Registry, Manager, Wire(t)}
  {
    StoresLock();
    LookupsLock();
    WiresLock(t);
    assert Locks(Seq(ACTIVATE, Send(t))) == {Registry, Manager, Wire(t)};
    assert Locks(Except(MANAGED, Send(t), false, false)) == {Manager, Wire(t)};
    assert Locks(Inbound(t)) == {Registry, Manager, Wire(t)};
    assert Locks(Then(Await, MAYBE_RAISE, Inbound(t))) == {Registry, Manager, Wire(t)};
  }

  lemma HeartbeatLocks(t: nat)
    ensures Locks(Heartbeat(t)) == {Wire(t)}
  {
    WiresLock(t);
    assert Locks(Then(Await, Send(t), Await)) == {Wire(t)};
    assert Locks(Maybe(Close(t))) == {Wire(t)};
  }

  lemma ShutdownLocks(ts: seq<nat>)
    ensures Locks(Shutdown(ts)) == {Manager} + set t <- ts :: Wire(t)
  {
    GatherLocks(ts);
    StoresLock();
  }

  lemma {:induction false} GatherLocks(ts: seq<nat>)
    ensures Locks(Gather(ts)) == set t <- ts :: Wire(t)
  {
    if ts != [] {
      GatherLocks(ts[1..]);
      WiresLock(ts[0]);
      assert ts == [ts[0]] + ts[1..];
    }
  }
}
