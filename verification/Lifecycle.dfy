/** Device lifecycle over the command machine: enrolment, authentication, connection, activation,
    dispatch and revocation as interleaved tasks.

    Revocation and connection run under the lifecycle lock; activation and dispatch do not.  A task
    suspends at every registry or identity access, at the lifecycle lock, and while a transport closes;
    it may be cancelled at any of these points. */
module Lifecycle {
  import opened Domain
  import opened Tables
  import Commands

  /** The durable part of a device. */
  datatype Row = Row(granted: set<Capability>, revokedAt: Option<int>)

  datatype Result =
    | Removed(row: Row) | Connected(session: Id) | Effective(capabilities: set<Capability>)
    | Dispatched(ticket: nat) | Authenticated(device: Id) | Refused | Aborted

  datatype Task =
    | RevokeWaiting(device: Id) | RevokeReading(device: Id) | RevokeTokens(device: Id, row: Row)
    | RevokeSaving(device: Id, row: Row) | RevokeDropping(device: Id, row: Row) | RevokeClosing(device: Id, row: Row)
    | ConnectWaiting(device: Id, transport: Id) | ConnectReading(device: Id, transport: Id)
    | ConnectJoining(device: Id, transport: Id) | ConnectClosing(session: Id)
    | ActivateReading(device: Id, session: Id, advertised: set<Capability>)
    | ActivateApplying(device: Id, session: Id, advertised: set<Capability>, granted: set<Capability>)
    | ExecuteReading(device: Id, capability: Capability, action: string)
    | ExecuteDispatching(device: Id, capability: Capability, action: string, row: Row)
    | AuthLooking(token: Id) | AuthReading(device: Id)
    | Ended(result: Result)

  /** `tokens` gives each device its one live token.  `allow` is the capability registry.  `settled`
      remembers the devices whose revocation has completed its disconnect step. */
  datatype Service = Service(
    hub: Commands.Hub, rows: map<Id, Row>, tokens: map<Id, Id>, allow: map<Capability, set<string>>,
    lock: Option<nat>, tasks: seq<Task>, settled: set<Id>)

  // ---------- The capability registry ----------

  /** What CapabilityDefinition keeps of the configured actions; None when it refuses them. */
  function NormalizedActions(actions: set<string>): Option<set<string>> {
    var stripped := set a <- actions :: Strip(a);
    if stripped == {} || [] in stripped then None else Some(stripped)
  }

  ghost predicate Normalized(allow: map<Capability, set<string>>) {
    forall c <- allow, a <- allow[c] :: a != [] && Stripped(a)
  }

  lemma NormalizationStrips(actions: set<string>)
    ensures var n := NormalizedActions(actions);
      n.Some? ==> n.value != {} && forall a <- n.value :: a != [] && Stripped(a)
  {
    forall a <- actions
      ensures Stripped(Strip(a))
    {
      StripProjects(a);
    }
  }

  predicate Allows(s: Service, c: Capability, action: string) {
    c in s.allow && action in s.allow[c]
  }

  // ---------- Steps ----------

  datatype Event =
    | Enroll(device: Id, token: Id, granted: set<Capability>)
    | Begin(task: Task)
    | Lock(k: nat)
    | Read(k: nat)
    | DropTokens(k: nat)
    | Save(k: nat, now: int)
    | Drop(k: nat)
    | Closed(k: nat)
    | Join(k: nat, session: Id, now: int)
    | Activate(k: nat, now: int)
    | Dispatch(k: nat, command: Id, valid: bool, issued: int, timeout: int, now: int)
    | Lookup(k: nat, found: Option<Id>)
    | Cancel(k: nat)
    | Routing(e: Commands.Event)

  predicate Initial(t: Task) {
    t.RevokeWaiting? || t.ConnectWaiting? || t.ActivateReading? || t.ExecuteReading? || t.AuthLooking?
  }

  predicate HoldsLock(t: Task) {
    || t.RevokeReading? || t.RevokeTokens? || t.RevokeSaving? || t.RevokeDropping? || t.RevokeClosing?
    || t.ConnectReading? || t.ConnectJoining? || t.ConnectClosing?
  }

  /** Manager steps that reach it directly: everything but connect, activate, revoke and execute's entry. */
  predicate IsRouting(e: Commands.Event) {
    !e.Join? && !e.Activation? && !e.Evict? && !e.Submit?
  }

  predicate Authenticates(s: Service, token: Id, d: Id) {
    d in s.tokens && s.tokens[d] == token
  }

  ghost predicate Enabled(s: Service, e: Event)
    requires Commands.Shaped(s.hub)
  {
    match e
    case Enroll(d, token, _) => d !in s.rows && forall x :: !Authenticates(s, token, x)
    case Begin(task) => Initial(task)
    case Lock(k) => k < |s.tasks| && s.lock.None? && (s.tasks[k].RevokeWaiting? || s.tasks[k].ConnectWaiting?)
    case Read(k) => k < |s.tasks| &&
      (s.tasks[k].RevokeReading? || s.tasks[k].ConnectReading? || s.tasks[k].ActivateReading?
       || s.tasks[k].ExecuteReading? || s.tasks[k].AuthReading?)
    case DropTokens(k) => k < |s.tasks| && s.tasks[k].RevokeTokens?
    case Save(k, _) => k < |s.tasks| && s.tasks[k].RevokeSaving?
    case Drop(k) => k < |s.tasks| && s.tasks[k].RevokeDropping?
    case Closed(k) => k < |s.tasks| && (s.tasks[k].RevokeClosing? || s.tasks[k].ConnectClosing?)
    case Join(k, session, _) => k < |s.tasks| && s.tasks[k].ConnectJoining? && session !in s.hub.m.sessions
    case Activate(k, _) => k < |s.tasks| && s.tasks[k].ActivateApplying?
    case Dispatch(k, _, _, _, _, _) => k < |s.tasks| && s.tasks[k].ExecuteDispatching?
    case Lookup(k, found) => k < |s.tasks| && s.tasks[k].AuthLooking? &&
      (match found
       case Some(d) => Authenticates(s, s.tasks[k].token, d)
       case None => forall d :: !Authenticates(s, s.tasks[k].token, d))
    case Cancel(k) => k < |s.tasks| && !s.tasks[k].Ended?
    case Routing(me) => IsRouting(me) && Commands.Enabled(s.hub, me)
  }

  function To(s: Service, k: nat, t: Task): Service
    requires k < |s.tasks|
  {
    s.(tasks := s.tasks[k := t])
  }

  /** End a task, letting go of the lifecycle lock if it is held. */
  function End(s: Service, k: nat, r: Result): Service
    requires k < |s.tasks|
  {
    s.(tasks := s.tasks[k := Ended(r)], lock := if HoldsLock(s.tasks[k]) then None else s.lock)
  }

  /** What a registry read lets a task do next. */
  function AfterRead(s: Service, k: nat): Service
    requires k < |s.tasks|
  {
    match s.tasks[k]
    case RevokeReading(d) =>
      if d !in s.rows then End(s, k, Refused)
      else if s.rows[d].revokedAt.Some? then To(s, k, RevokeDropping(d, s.rows[d]))
      else To(s, k, RevokeTokens(d, s.rows[d]))
    case ConnectReading(d, transport) =>
      if d !in s.rows || s.rows[d].revokedAt.Some? then End(s, k, Refused) else To(s, k, ConnectJoining(d, transport))
    case ActivateReading(d, x, adv) =>
      if d !in s.rows || s.rows[d].revokedAt.Some? then End(s, k, Refused)
      else To(s, k, ActivateApplying(d, x, adv, s.rows[d].granted))
    case ExecuteReading(d, c, a) =>
      if d !in s.rows then End(s, k, Refused) else To(s, k, ExecuteDispatching(d, c, a, s.rows[d]))
    case AuthReading(d) =>
      if d !in s.rows || s.rows[d].revokedAt.Some? then End(s, k, Refused) else End(s, k, Authenticated(d))
    case _ => s
  }

  /** A device as the service shows it: the durable row with the live connection's state laid over it. */
  datatype Shown = Shown(status: Status, granted: set<Capability>, advertised: set<Capability>)

  function WithRuntimeState(s: Service, d: Id, row: Row): Shown {
    if row.revokedAt.Some? then Shown(Revoked, row.granted, {})
    else if d !in s.hub.m.connections then Shown(Offline, row.granted, {})
    else Shown(s.hub.m.connections[d].status, row.granted, s.hub.m.connections[d].advertised)
  }

  function Available(x: Shown): set<Capability> {
    x.granted * x.advertised
  }

  /** The checks of execute_command on a row read earlier; `valid` is DeviceCommand's own check of the action. */
  predicate MayDispatch(s: Service, t: Task, valid: bool)
    requires t.ExecuteDispatching?
  {
    var shown := WithRuntimeState(s, t.device, t.row);
    && shown.status == Online
    && t.capability in Available(shown)
    && Allows(s, t.capability, t.action)
    && valid
  }

  /** The checks, the command they let through, and execute's entry, without a suspension between them. */
  function AfterDispatch(s: Service, k: nat, id: Id, valid: bool, issued: int, timeout: int, now: int): Service
    requires Commands.Shaped(s.hub) && k < |s.tasks| && s.tasks[k].ExecuteDispatching?
  {
    var t := s.tasks[k];
    if !MayDispatch(s, t, valid) then End(s, k, Refused)
    else
      var c := Command(id, t.device, t.capability, Strip(t.action), issued, issued + timeout);
      End(s.(hub := Commands.Apply(s.hub, Commands.Submit(c, timeout, now))), k,
          if Admit(s.hub.m, c, timeout, now) == Admitted then Dispatched(|s.hub.phases|) else Refused)
  }

  function Next(s: Service, e: Event): Service
    requires Commands.Shaped(s.hub) && Enabled(s, e)
  {
    match e
    case Enroll(d, token, granted) => s.(rows := s.rows[d := Row(granted, None)], tokens := s.tokens[d := token])
    case Begin(task) => s.(tasks := s.tasks + [task])
    case Lock(k) =>
      To(s.(lock := Some(k)), k,
         if s.tasks[k].RevokeWaiting? then RevokeReading(s.tasks[k].device)
         else ConnectReading(s.tasks[k].device, s.tasks[k].transport))
    case Read(k) => AfterRead(s, k)
    case DropTokens(k) =>
      To(s.(tokens := s.tokens - {s.tasks[k].device}), k, RevokeSaving(s.tasks[k].device, s.tasks[k].row))
    case Save(k, now) =>
      var d, row := s.tasks[k].device, s.tasks[k].row.(revokedAt := Some(now));
      if d !in s.rows then End(s, k, Refused)
      else To(s.(rows := s.rows[d := row]), k, RevokeDropping(d, row))
    case Drop(k) =>
      var d := s.tasks[k].device;
      To(s.(hub := Commands.Apply(s.hub, Commands.Evict(d)), settled := s.settled + {d}), k,
         RevokeClosing(d, s.tasks[k].row))
    case Closed(k) =>
      End(s, k, if s.tasks[k].RevokeClosing? then Removed(s.tasks[k].row) else Connected(s.tasks[k].session))
    case Join(k, session, now) =>
      To(s.(hub := Commands.Apply(s.hub, Commands.Join(s.tasks[k].device, session, s.tasks[k].transport, now))),
         k, ConnectClosing(session))
    case Activate(k, now) =>
      var ActivateApplying(d, x, adv, granted) := s.tasks[k];
      var eff := adv * granted;
      End(s.(hub := Commands.Apply(s.hub, Commands.Activation(d, x, adv, eff, now))), k,
          if ActivateOutcome(s.hub.m, d, x, adv, eff) == Activated then Effective(eff) else Refused)
    case Dispatch(k, id, valid, issued, timeout, now) => AfterDispatch(s, k, id, valid, issued, timeout, now)
    case Lookup(k, found) =>
      if found.Some? then To(s, k, AuthReading(found.value)) else End(s, k, Refused)
    case Cancel(k) => End(s, k, Aborted)
    case Routing(me) => s.(hub := Commands.Apply(s.hub, me))
  }

  // ---------- The invariant ----------

  ghost predicate LockHeld(s: Service) {
    && (s.lock.Some? ==> s.lock.value < |s.tasks| && HoldsLock(s.tasks[s.lock.value]))
    && (forall k: nat :: k < |s.tasks| && HoldsLock(s.tasks[k]) ==> s.lock == Some(k))
  }

  predicate Unrevoked(s: Service, d: Id) {
    d in s.rows && s.rows[d].revokedAt.None?
  }

  /** What a task has learnt from the registry is still so. */
  predicate TaskInformed(s: Service, t: Task) {
    match t
    case RevokeTokens(d, row) => Unrevoked(s, d) && s.rows[d] == row
    case RevokeSaving(d, row) => Unrevoked(s, d) && s.rows[d] == row && d !in s.tokens
    case RevokeDropping(d, row) => d in s.rows && !Unrevoked(s, d)
    case RevokeClosing(d, _) => d in s.settled
    case ConnectJoining(d, _) => Unrevoked(s, d)
    case ActivateApplying(d, _, _, granted) => d in s.rows && s.rows[d].granted == granted
    case ExecuteDispatching(d, _, _, row) => d in s.rows && s.rows[d].granted == row.granted
    case _ => true
  }

  ghost predicate Injective(tokens: map<Id, Id>) {
    forall d, e | d in tokens && e in tokens :: tokens[d] == tokens[e] ==> d == e
  }

  /** A revoked device has no token; a settled one is revoked and not connected. */
  ghost predicate Settled(s: Service) {
    && s.tokens.Keys <= s.rows.Keys
    && (forall d <- s.tokens :: Unrevoked(s, d))
    && Injective(s.tokens)
    && (forall d <- s.settled :: d in s.rows && !Unrevoked(s, d) && d !in s.hub.m.connections)
  }

  ghost predicate ConnectionsGranted(s: Service) {
    forall d <- s.hub.m.connections ::
      d in s.rows && s.hub.m.connections[d].effective == s.hub.m.connections[d].advertised * s.rows[d].granted
  }

  predicate CommandGranted(s: Service, c: Command) {
    c.device in s.rows && c.capability in s.rows[c.device].granted && Allows(s, c.capability, c.action)
  }

  ghost predicate CommandsGranted(s: Service) {
    forall t: nat :: t < |s.hub.m.waiters| ==> CommandGranted(s, s.hub.m.waiters[t].command)
  }

  ghost predicate Inv(s: Service) {
    && Commands.Inv(s.hub)
    && Normalized(s.allow)
    && LockHeld(s)
    && Settled(s)
    && ConnectionsGranted(s)
    && CommandsGranted(s)
    && (forall k: nat :: k < |s.tasks| ==> TaskInformed(s, s.tasks[k]))
  }

  /** Rows keep their grants for ever and their revocation time once written; what is settled stays so. */
  ghost predicate RowsEvolve(s: Service, s': Service) {
    && s'.allow == s.allow
    && s.settled <= s'.settled
    && (forall d <- s.rows :: d in s'.rows && s'.rows[d].granted == s.rows[d].granted
          && (s.rows[d].revokedAt.Some? ==> s'.rows[d].revokedAt == s.rows[d].revokedAt))
  }

  /** The new tables have no connection, capability or command that the old ones did not have. */
  ghost predicate Within(m: Tables, m': Tables) {
    && |m'.waiters| == |m.waiters|
    && (forall t: nat :: t < |m.waiters| ==> m'.waiters[t].command == m.waiters[t].command)
    && (forall d <- m'.connections :: d in m.connections
          && m'.connections[d].advertised == m.connections[d].advertised
          && m'.connections[d].effective == m.connections[d].effective)
  }

  lemma RoutingStaysWithin(h: Commands.Hub, e: Commands.Event)
    requires Commands.Inv(h) && Commands.Enabled(h, e) && (IsRouting(e) || e.Evict?)
    ensures Commands.Inv(Commands.Apply(h, e)) && Within(h.m, Commands.Apply(h, e).m)
  {
    Commands.InvPreserved(h, e);
  }

  lemma ToKeeps(s: Service, k: nat, t: Task)
    requires Inv(s) && k < |s.tasks| && HoldsLock(t) == HoldsLock(s.tasks[k]) && TaskInformed(s, t)
    ensures Inv(To(s, k, t)) && RowsEvolve(s, To(s, k, t))
  {}

  lemma EndKeeps(s: Service, k: nat, r: Result)
    requires Inv(s) && k < |s.tasks|
    ensures Inv(End(s, k, r)) && RowsEvolve(s, End(s, k, r))
  {}

  lemma BeginKeeps(s: Service, t: Task)
    requires Inv(s) && Initial(t)
    ensures Inv(Next(s, Begin(t))) && RowsEvolve(s, Next(s, Begin(t)))
  {}

  lemma LockKeeps(s: Service, k: nat)
    requires Inv(s) && Enabled(s, Lock(k))
    ensures Inv(Next(s, Lock(k))) && RowsEvolve(s, Next(s, Lock(k)))
  {}

  lemma EnrollKeeps(s: Service, d: Id, token: Id, granted: set<Capability>)
    requires Inv(s) && Enabled(s, Enroll(d, token, granted))
    ensures var s' := Next(s, Enroll(d, token, granted)); Inv(s') && RowsEvolve(s, s')
  {
    var s' := Next(s, Enroll(d, token, granted));
    assert forall i: nat :: i < |s'.tasks| ==> TaskInformed(s, s'.tasks[i]);
    assert forall t: nat :: t < |s.hub.m.waiters| ==> CommandGranted(s, s.hub.m.waiters[t].command);
    forall x | x in s.tokens
      ensures s.tokens[x] != token
    {
      assert !Authenticates(s, token, x);
    }
  }

  lemma DropTokensKeeps(s: Service, k: nat)
    requires Inv(s) && Enabled(s, DropTokens(k))
    ensures Inv(Next(s, DropTokens(k))) && RowsEvolve(s, Next(s, DropTokens(k)))
  {}

  lemma SaveKeeps(s: Service, k: nat, now: int)
    requires Inv(s) && Enabled(s, Save(k, now))
    ensures Inv(Next(s, Save(k, now))) && RowsEvolve(s, Next(s, Save(k, now)))
  {}

  /** A read ends its task or moves it on with what the registry says now. */
  lemma ReadInforms(s: Service, k: nat)
    requires Commands.Shaped(s.hub) && Enabled(s, Read(k))
    ensures var s', t := AfterRead(s, k), AfterRead(s, k).tasks[k];
      if t.Ended? then s' == End(s, k, t.result)
      else s' == To(s, k, t) && HoldsLock(t) == HoldsLock(s.tasks[k]) && TaskInformed(s, t)
  {}

  lemma ReadKeeps(s: Service, k: nat)
    requires Inv(s) && Enabled(s, Read(k))
    ensures Inv(Next(s, Read(k))) && RowsEvolve(s, Next(s, Read(k)))
  {
    ReadInforms(s, k);
    var t := AfterRead(s, k).tasks[k];
    if t.Ended? {
      EndKeeps(s, k, t.result);
    } else {
      ToKeeps(s, k, t);
    }
  }

  lemma RoutingKeeps(s: Service, me: Commands.Event)
    requires Inv(s) && Enabled(s, Routing(me))
    ensures Inv(Next(s, Routing(me))) && RowsEvolve(s, Next(s, Routing(me)))
  {
    RoutingStaysWithin(s.hub, me);
  }

  lemma DropKeeps(s: Service, k: nat)
    requires Inv(s) && Enabled(s, Drop(k))
    ensures Inv(Next(s, Drop(k))) && RowsEvolve(s, Next(s, Drop(k)))
  {
    RoutingStaysWithin(s.hub, Commands.Evict(s.tasks[k].device));
    assert TaskInformed(s, s.tasks[k]);
  }

  lemma JoinKeeps(s: Service, k: nat, session: Id, now: int)
    requires Inv(s) && Enabled(s, Join(k, session, now))
    ensures Inv(Next(s, Join(k, session, now))) && RowsEvolve(s, Next(s, Join(k, session, now)))
  {
    Commands.InvPreserved(s.hub, Commands.Join(s.tasks[k].device, session, s.tasks[k].transport, now));
    assert TaskInformed(s, s.tasks[k]);
  }

  /** Activating with the part of the advertisement that the row grants keeps the invariant. */
  lemma ActivationKeeps(s: Service, d: Id, x: Id, adv: set<Capability>, now: int)
    requires Inv(s) && d in s.rows
    ensures var me := Commands.Activation(d, x, adv, adv * s.rows[d].granted, now);
      var s' := s.(hub := Commands.Apply(s.hub, me)); Inv(s') && RowsEvolve(s, s')
  {
    var me := Commands.Activation(d, x, adv, adv * s.rows[d].granted, now);
    Commands.InvPreserved(s.hub, me);
    var s' := s.(hub := Commands.Apply(s.hub, me));
    assert forall k: nat :: k < |s.tasks| ==> TaskInformed(s, s.tasks[k]) ==> TaskInformed(s', s'.tasks[k]);
  }

  lemma ActivateKeeps(s: Service, k: nat, now: int)
    requires Inv(s) && Enabled(s, Activate(k, now))
    ensures Inv(Next(s, Activate(k, now))) && RowsEvolve(s, Next(s, Activate(k, now)))
  {
    var ActivateApplying(d, x, adv, granted) := s.tasks[k];
    assert TaskInformed(s, s.tasks[k]);
    ActivationKeeps(s, d, x, adv, now);
    EndKeeps(s.(hub := Commands.Apply(s.hub, Commands.Activation(d, x, adv, adv * granted, now))), k,
             Next(s, Activate(k, now)).tasks[k].result);
  }

  /** Submitting a command that is granted and allowed keeps the invariant. */
  lemma SubmitKeeps(s: Service, c: Command, timeout: int, now: int)
    requires Inv(s) && CommandGranted(s, c)
    ensures var s' := s.(hub := Commands.Apply(s.hub, Commands.Submit(c, timeout, now))); Inv(s') && RowsEvolve(s, s')
  {
    Commands.InvPreserved(s.hub, Commands.Submit(c, timeout, now));
    var s' := s.(hub := Commands.Apply(s.hub, Commands.Submit(c, timeout, now)));
    assert forall k: nat :: k < |s.tasks| ==> TaskInformed(s, s.tasks[k]) ==> TaskInformed(s', s'.tasks[k]);
  }

  lemma SubmitAndEndKeeps(s: Service, c: Command, timeout: int, now: int, k: nat, r: Result)
    requires Inv(s) && CommandGranted(s, c) && k < |s.tasks|
    ensures var s' := End(s.(hub := Commands.Apply(s.hub, Commands.Submit(c, timeout, now))), k, r);
      Inv(s') && RowsEvolve(s, s')
  {
    SubmitKeeps(s, c, timeout, now);
    EndKeeps(s.(hub := Commands.Apply(s.hub, Commands.Submit(c, timeout, now))), k, r);
  }

  /** What passes the checks of execute_command is granted, and is sent as it was checked. */
  lemma DispatchGranted(s: Service, k: nat, valid: bool)
    requires Inv(s) && k < |s.tasks| && s.tasks[k].ExecuteDispatching? && MayDispatch(s, s.tasks[k], valid)
    ensures var t := s.tasks[k];
      && Strip(t.action) == t.action
      && t.device in s.rows && t.capability in s.rows[t.device].granted && Allows(s, t.capability, t.action)
  {
    assert TaskInformed(s, s.tasks[k]);
    StripProjects(s.tasks[k].action);
  }

  lemma DispatchKeeps(s: Service, k: nat, id: Id, valid: bool, issued: int, timeout: int, now: int)
    requires Inv(s) && k < |s.tasks| && s.tasks[k].ExecuteDispatching?
    ensures var s' := AfterDispatch(s, k, id, valid, issued, timeout, now); Inv(s') && RowsEvolve(s, s')
  {
    var t := s.tasks[k];
    if MayDispatch(s, t, valid) {
      DispatchGranted(s, k, valid);
      var c := Command(id, t.device, t.capability, Strip(t.action), issued, issued + timeout);
      SubmitAndEndKeeps(s, c, timeout, now, k,
        if Admit(s.hub.m, c, timeout, now) == Admitted then Dispatched(|s.hub.phases|) else Refused);
    } else {
      EndKeeps(s, k, Refused);
    }
  }

  lemma InvPreserved(s: Service, e: Event)
    requires Inv(s) && Enabled(s, e)
    ensures Inv(Next(s, e)) && RowsEvolve(s, Next(s, e))
  {
    match e
    case Enroll(d, token, granted) => EnrollKeeps(s, d, token, granted);
    case Begin(task) => BeginKeeps(s, task);
    case Lock(k) => LockKeeps(s, k);
    case Read(k) => ReadKeeps(s, k);
    case DropTokens(k) => DropTokensKeeps(s, k);
    case Save(k, now) => SaveKeeps(s, k, now);
    case Drop(k) => DropKeeps(s, k);
    case Closed(k) => EndKeeps(s, k, Next(s, e).tasks[k].result);
    case Join(k, session, now) => JoinKeeps(s, k, session, now);
    case Activate(k, now) => ActivateKeeps(s, k, now);
    case Dispatch(k, id, valid, issued, timeout, now) => DispatchKeeps(s, k, id, valid, issued, timeout, now);
    case Lookup(k, found) =>
      if found.Some? { ToKeeps(s, k, AuthReading(found.value)); } else { EndKeeps(s, k, Refused); }
    case Cancel(k) => EndKeeps(s, k, Aborted);
    case Routing(me) => RoutingKeeps(s, me);
  }

  ghost predicate Step(s: Service, e: Event, s': Service) {
    Commands.Shaped(s.hub) && Enabled(s, e) && s' == Next(s, e)
  }

  lemma StepKeeps(s: Service, e: Event, s': Service)
    requires Inv(s) && Step(s, e, s')
    ensures Inv(s') && RowsEvolve(s, s')
  {
    InvPreserved(s, e);
  }

  lemma RowsEvolveTransitive(a: Service, b: Service, c: Service)
    requires RowsEvolve(a, b) && RowsEvolve(b, c)
    ensures RowsEvolve(a, c)
  {}

  /** A task about to read this device's row in order to connect, activate or authenticate it. */
  predicate LooksAt(t: Task, d: Id) {
    (t.ConnectReading? || t.ActivateReading? || t.AuthReading?) && t.device == d
  }

  ghost predicate RefusedNext(s: Service, h: nat)
    requires h < |s.tasks|
  {
    AfterRead(s, h).tasks[h] == Ended(Refused)
  }

  /** An activation that read the row earlier is refused at the manager, whenever it gets there. */
  ghost predicate RefusedToActivate(s: Service, h: nat)
    requires Commands.Shaped(s.hub) && h < |s.tasks| && s.tasks[h].ActivateApplying?
  {
    forall now: int :: Next(s, Activate(h, now)) == End(s, h, Refused)
  }

  ghost predicate TasksCutOff(s: Service, d: Id)
    requires Commands.Shaped(s.hub)
  {
    && (forall h: nat :: h < |s.tasks| && LooksAt(s.tasks[h], d) ==> RefusedNext(s, h))
    && (forall h: nat :: h < |s.tasks| && s.tasks[h].ConnectJoining? ==> s.tasks[h].device != d)
    && (forall h: nat :: h < |s.tasks| && s.tasks[h].ActivateApplying? && s.tasks[h].device == d ==>
          RefusedToActivate(s, h))
  }

  /** The device takes part in nothing: no token, connection, pending command, open gate or reply; every task
      that has yet to look at it is refused, and of those that have, none is about to connect it and any that
      is about to activate it is refused as well. */
  ghost predicate CutOff(s: Service, d: Id)
    requires Commands.Shaped(s.hub)
  {
    && (forall token :: !Authenticates(s, token, d))
    && d !in s.hub.m.connections
    && (forall c <- s.hub.m.pending :: s.hub.m.pending[c].device != d)
    && (forall t: nat :: t < |s.hub.m.waiters| && Commands.DeviceOf(s.hub, t) == d ==>
          !Commands.GatePasses(s.hub, t) && !s.hub.m.waiters[t].future.Open?)
    && (forall x, r :: !Matches(s.hub.m, d, x, r))
    && TasksCutOff(s, d)
  }

  lemma SettledIsCutOff(s: Service, d: Id)
    requires Inv(s) && d in s.settled
    ensures CutOff(s, d)
  {
    var m := s.hub.m;
    forall c <- m.pending
      ensures m.pending[c].device != d
    {
      assert WaiterOk(m, m.pending[c].ticket);
    }
    forall t: nat | t < |m.waiters| && m.waiters[t].command.device == d
      ensures !m.waiters[t].future.Open?
    {
      assert WaiterOk(m, t);
    }
    SettledTasks(s, d);
  }

  lemma SettledTasks(s: Service, d: Id)
    requires Inv(s) && d in s.settled
    ensures TasksCutOff(s, d)
  {
    forall h: nat | h < |s.tasks| && s.tasks[h].ConnectJoining?
      ensures s.tasks[h].device != d
    {
      assert TaskInformed(s, s.tasks[h]);
    }
  }

  /** A capability definition is kept exactly if it names an action and none is blank; what is kept is the actions,
      each stripped. */
  lemma NormalizedExactly(actions: set<string>)
    ensures var n := NormalizedActions(actions);
      && (n.Some? <==> actions != {} && forall a <- actions :: Strip(a) != [])
      && (n.Some? ==> forall x :: x in n.value <==> exists a :: a in actions && x == Strip(a))
  {
    var stripped := set a <- actions :: Strip(a);
    forall a <- actions
      ensures Strip(a) in stripped
    {}
  }
}
