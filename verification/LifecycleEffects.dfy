/** What each step of the service does and answers, and whole operations from their call to their result. */
module LifecycleEffects {
  import opened Domain
  import opened Tables
  import Chains
  import Commands
  import CommandEffects
  import opened Lifecycle

  // ---------- Single steps ----------

  /** A device is shown revoked for ever, offline without a connection, and otherwise as its connection is; what is
      available of it is granted and advertised. */
  lemma ShownExactly(s: Service, d: Id, row: Row)
    ensures WithRuntimeState(s, d, row) ==
      if row.revokedAt.Some? then Shown(Revoked, row.granted, {})
      else if d in s.hub.m.connections
      then Shown(s.hub.m.connections[d].status, row.granted, s.hub.m.connections[d].advertised)
      else Shown(Offline, row.granted, {})
    ensures forall x: Shown, c :: c in Available(x) <==> c in x.granted && c in x.advertised
  {}

  predicate OnlyTask(s: Service, s': Service, k: nat, t: Task) {
    k < |s.tasks| && s' == s.(tasks := s.tasks[k := t])
  }

  /** The task has its result, and the lifecycle lock is free again if it held it. */
  predicate EndedOnly(s: Service, s': Service, k: nat, r: Result) {
    k < |s.tasks| && s' == s.(tasks := s.tasks[k := Ended(r)], lock := if HoldsLock(s.tasks[k]) then None else s.lock)
  }

  /** What reading the registry leads to: the device is missing, or revoked, or the task knows its row. */
  lemma ReadEffect(s: Service, k: nat)
    requires Commands.Shaped(s.hub) && Enabled(s, Read(k))
    ensures var s', t := Next(s, Read(k)), s.tasks[k];
      var missing, gone := t.device !in s.rows, t.device in s.rows && s.rows[t.device].revokedAt.Some?;
      && (missing ==> EndedOnly(s, s', k, Refused))
      && (gone && (t.ConnectReading? || t.ActivateReading? || t.AuthReading?) ==> EndedOnly(s, s', k, Refused))
      && (gone && t.RevokeReading? ==> OnlyTask(s, s', k, RevokeDropping(t.device, s.rows[t.device])))
      && (!missing && t.ExecuteReading? ==>
            OnlyTask(s, s', k, ExecuteDispatching(t.device, t.capability, t.action, s.rows[t.device])))
      && (!missing && !gone ==>
            && (t.RevokeReading? ==> OnlyTask(s, s', k, RevokeTokens(t.device, s.rows[t.device])))
            && (t.ConnectReading? ==> OnlyTask(s, s', k, ConnectJoining(t.device, t.transport)))
            && (t.ActivateReading? ==>
                  OnlyTask(s, s', k, ActivateApplying(t.device, t.session, t.advertised, s.rows[t.device].granted)))
            && (t.AuthReading? ==> EndedOnly(s, s', k, Authenticated(t.device))))
  {}

  /** Looking a token up leads to the device it belongs to, or nowhere; a cancelled task ends. */
  lemma LookupEffect(s: Service, k: nat, d: Id)
    requires Commands.Shaped(s.hub)
    ensures Enabled(s, Lookup(k, Some(d))) ==> OnlyTask(s, Next(s, Lookup(k, Some(d))), k, AuthReading(d))
    ensures Enabled(s, Lookup(k, None)) ==> EndedOnly(s, Next(s, Lookup(k, None)), k, Refused)
    ensures Enabled(s, Cancel(k)) ==> EndedOnly(s, Next(s, Cancel(k)), k, Aborted)
  {}

  /** Enrolling, calling an operation, taking the lifecycle lock. */
  lemma BeginningEffect(s: Service, k: nat)
    requires Commands.Shaped(s.hub)
    ensures forall d, token, granted :: Enabled(s, Enroll(d, token, granted)) ==>
      Next(s, Enroll(d, token, granted)) ==
        s.(rows := s.rows[d := Row(granted, None)], tokens := s.tokens[d := token])
    ensures forall t :: Enabled(s, Begin(t)) ==> Next(s, Begin(t)) == s.(tasks := s.tasks + [t])
    ensures Enabled(s, Lock(k)) ==>
      var s', t := Next(s, Lock(k)), s.tasks[k];
      OnlyTask(s.(lock := Some(k)), s', k,
        if t.RevokeWaiting? then RevokeReading(t.device) else ConnectReading(t.device, t.transport))
  {}

  /** Revoking: the tokens go, the row gets the time and keeps its grant, the connection goes, and the caller gets the
      revoked device. */
  lemma RevokingEffect(s: Service, k: nat, now: int)
    requires Commands.Shaped(s.hub)
    ensures Enabled(s, DropTokens(k)) ==>
      var t := s.tasks[k];
      OnlyTask(s.(tokens := s.tokens - {t.device}), Next(s, DropTokens(k)), k, RevokeSaving(t.device, t.row))
    ensures Enabled(s, Save(k, now)) ==>
      var s', t := Next(s, Save(k, now)), s.tasks[k];
      if t.device in s.rows
      then OnlyTask(s.(rows := s.rows[t.device := Row(t.row.granted, Some(now))]), s', k,
                    RevokeDropping(t.device, Row(t.row.granted, Some(now))))
      else EndedOnly(s, s', k, Refused)
    ensures Enabled(s, Drop(k)) ==>
      var t := s.tasks[k];
      OnlyTask(s.(hub := Commands.Apply(s.hub, Commands.Evict(t.device)), settled := s.settled + {t.device}),
               Next(s, Drop(k)), k, RevokeClosing(t.device, t.row))
    ensures Enabled(s, Closed(k)) ==>
      var t := s.tasks[k];
      EndedOnly(s, Next(s, Closed(k)), k, if t.RevokeClosing? then Removed(t.row) else Connected(t.session))
  {}

  /** Connecting and activating: the manager is given the device, the drawn session and transport; then the advertised
      capabilities and those of them that are granted, which is also the answer. */
  lemma ConnectingEffect(s: Service, k: nat, session: Id, now: int)
    requires Commands.Shaped(s.hub)
    ensures Enabled(s, Join(k, session, now)) ==>
      var t := s.tasks[k];
      OnlyTask(s.(hub := Commands.Apply(s.hub, Commands.Join(t.device, session, t.transport, now))),
               Next(s, Join(k, session, now)), k, ConnectClosing(session))
    ensures Enabled(s, Activate(k, now)) ==>
      var s', t := Next(s, Activate(k, now)), s.tasks[k];
      var eff := t.advertised * t.granted;
      var me := Commands.Activation(t.device, t.session, t.advertised, eff, now);
      EndedOnly(s.(hub := Commands.Apply(s.hub, me)), s', k,
                if Current(s.hub.m, t.device, t.session) then Effective(eff) else Refused)
  {}

  lemma RoutingEffect(s: Service, e: Commands.Event)
    requires Commands.Shaped(s.hub) && Enabled(s, Routing(e))
    ensures Next(s, Routing(e)) == s.(hub := Commands.Apply(s.hub, e))
  {}

  /** Executing: the device, as shown now from the row read before, has to be online with the capability available, the
      action allowed and its command valid; then the stripped action goes to the manager with its deadline a timeout
      after its issue. */
  lemma DispatchEffect(s: Service, k: nat, id: Id, valid: bool, issued: int, timeout: int, now: int)
    requires Commands.Shaped(s.hub) && Enabled(s, Dispatch(k, id, valid, issued, timeout, now))
    ensures var s', t := Next(s, Dispatch(k, id, valid, issued, timeout, now)), s.tasks[k];
      var shown := WithRuntimeState(s, t.device, t.row);
      var may :=
        && shown.status == Online && t.capability in shown.granted && t.capability in shown.advertised
        && t.capability in s.allow && t.action in s.allow[t.capability] && valid;
      var c := Command(id, t.device, t.capability, Strip(t.action), issued, issued + timeout);
      && (!may ==> EndedOnly(s, s', k, Refused))
      && (may ==> EndedOnly(s.(hub := Commands.Apply(s.hub, Commands.Submit(c, timeout, now))), s', k,
                    if Admit(s.hub.m, c, timeout, now) == Admitted then Dispatched(|s.hub.phases|) else Refused))
  {}

  // ---------- Whole operations ----------

  ghost predicate Moves(s: Service, e: Event, s': Service) {
    Step(s, e, s')
  }

  ghost predicate Goes(s: Service, es: seq<Event>, s': Service) {
    Chains.Chain(Moves, s, es, s')
  }

  lemma Go(s: Service, e: Event) returns (s': Service)
    requires Inv(s) && Enabled(s, e)
    ensures s' == Next(s, e) && Inv(s') && Goes(s, [e], s')
  {
    InvPreserved(s, e);
    s' := Next(s, e);
    Chains.One(Moves, s, e, s');
  }

  lemma GoesOn(s: Service, es: seq<Event>, s1: Service, es1: seq<Event>, s2: Service)
    requires Goes(s, es, s1) && Goes(s1, es1, s2)
    ensures Goes(s, es + es1, s2)
  {
    Chains.Append(Moves, s, es, s1, es1, s2);
  }

  lemma Begun(s: Service, t: Task) returns (s': Service)
    requires Inv(s) && Initial(t)
    ensures Inv(s') && Goes(s, [Begin(t)], s') && s' == s.(tasks := s.tasks + [t])
  {
    BeginningEffect(s, 0);
    s' := Go(s, Begin(t));
  }

  /** The two operations that wait for the lifecycle lock, called and let in. */
  lemma LetIn(s: Service, t: Task) returns (s': Service)
    requires Inv(s) && (t.RevokeWaiting? || t.ConnectWaiting?) && s.lock == None
    ensures var k := |s.tasks|;
      && Inv(s') && Goes(s, [Begin(t)] + [Lock(k)], s')
      && s' == s.(lock := Some(k), tasks := s.tasks +
           [if t.RevokeWaiting? then RevokeReading(t.device) else ConnectReading(t.device, t.transport)])
  {
    var k := |s.tasks|;
    var s1 := Begun(s, t);
    BeginningEffect(s1, k);
    s' := Go(s1, Lock(k));
    GoesOn(s, [Begin(t)], s1, [Lock(k)], s');
  }

  lemma AuthenticationEnds(s: Service, k: nat)
    requires Commands.Shaped(s.hub) && k < |s.tasks| && s.tasks[k].AuthReading? && Unrevoked(s, s.tasks[k].device)
    ensures Next(s, Read(k)) == s.(tasks := s.tasks[k := Ended(Authenticated(s.tasks[k].device))])
  {
    ReadEffect(s, k);
  }

  lemma ActivationEnds(s: Service, k: nat, now: int)
    requires Commands.Shaped(s.hub) && k < |s.tasks| && s.tasks[k].ActivateApplying?
    requires Current(s.hub.m, s.tasks[k].device, s.tasks[k].session)
    ensures var t := s.tasks[k];
      var eff := t.advertised * t.granted;
      Next(s, Activate(k, now)) ==
        s.(tasks := s.tasks[k := Ended(Effective(eff))],
           hub := Commands.Apply(s.hub, Commands.Activation(t.device, t.session, t.advertised, eff, now)))
  {
    ConnectingEffect(s, k, 0, now);
  }

  lemma LooksUp(s: Service, k: nat, d: Id) returns (s': Service)
    requires Inv(s) && Enabled(s, Lookup(k, Some(d))) && Unrevoked(s, d)
    ensures Goes(s, [Lookup(k, Some(d))] + [Read(k)], s')
    ensures s' == s.(tasks := s.tasks[k := Ended(Authenticated(d))])
  {
    LookupEffect(s, k, d);
    var s1 := Go(s, Lookup(k, Some(d)));
    AuthenticationEnds(s1, k);
    s' := Go(s1, Read(k));
    UpdatedTwice(s.tasks, k, AuthReading(d), Ended(Authenticated(d)));
    GoesOn(s, [Lookup(k, Some(d))], s1, [Read(k)], s');
  }

  /** A device's live token authenticates as it. */
  lemma TokenAuthenticates(s: Service, d: Id, token: Id) returns (s': Service)
    requires Inv(s) && d in s.tokens && s.tokens[d] == token
    ensures var k := |s.tasks|;
      && Goes(s, [Begin(AuthLooking(token))] + ([Lookup(k, Some(d))] + [Read(k)]), s')
      && s' == s.(tasks := s.tasks + [Ended(Authenticated(d))])
  {
    var k := |s.tasks|;
    var s1 := Begun(s, AuthLooking(token));
    s' := LooksUp(s1, k, d);
    GoesOn(s, [Begin(AuthLooking(token))], s1, [Lookup(k, Some(d))] + [Read(k)], s');
  }

  lemma Joins(s: Service, k: nat, session: Id, now: int) returns (s': Service)
    requires Inv(s) && k < |s.tasks| && s.tasks[k].ConnectReading? && Unrevoked(s, s.tasks[k].device)
    requires session !in s.hub.m.sessions
    ensures Inv(s') && Goes(s, [Read(k)] + [Join(k, session, now)], s')
    ensures var t := s.tasks[k];
      s' == s.(tasks := s.tasks[k := ConnectClosing(session)],
               hub := Commands.Apply(s.hub, Commands.Join(t.device, session, t.transport, now)))
  {
    ReadEffect(s, k);
    var s1 := Go(s, Read(k));
    ConnectingEffect(s1, k, session, now);
    s' := Go(s1, Join(k, session, now));
    GoesOn(s, [Read(k)], s1, [Join(k, session, now)], s');
  }

  lemma Closes(s: Service, k: nat) returns (s': Service)
    requires Inv(s) && Enabled(s, Closed(k))
    ensures Goes(s, [Closed(k)], s')
    ensures var t := s.tasks[k];
      s' == s.(tasks := s.tasks[k := Ended(if t.RevokeClosing? then Removed(t.row) else Connected(t.session))],
               lock := None)
  {
    RevokingEffect(s, k, 0);
    s' := Go(s, Closed(k));
  }

  lemma ConnectsLocked(s: Service, k: nat, session: Id, now: int) returns (s': Service)
    requires Inv(s) && k < |s.tasks| && s.tasks[k].ConnectReading? && Unrevoked(s, s.tasks[k].device)
    requires session !in s.hub.m.sessions
    ensures Goes(s, [Read(k)] + [Join(k, session, now)] + [Closed(k)], s')
    ensures var t := s.tasks[k];
      s' == s.(tasks := s.tasks[k := Ended(Connected(session))], lock := None,
               hub := Commands.Apply(s.hub, Commands.Join(t.device, session, t.transport, now)))
  {
    var s1 := Joins(s, k, session, now);
    s' := Closes(s1, k);
    GoesOn(s, [Read(k)] + [Join(k, session, now)], s1, [Closed(k)], s');
  }

  /** An unrevoked device can be connected whenever the lifecycle lock is free, and the caller gets its session. */
  lemma DeviceConnects(s: Service, d: Id, transport: Id, session: Id, now: int) returns (s': Service)
    requires Inv(s) && Unrevoked(s, d) && s.lock == None && session !in s.hub.m.sessions
    ensures var k := |s.tasks|;
      && Goes(s, [Begin(ConnectWaiting(d, transport))] + [Lock(k)]
                 + ([Read(k)] + [Join(k, session, now)] + [Closed(k)]), s')
      && s' == s.(tasks := s.tasks + [Ended(Connected(session))],
                  hub := Commands.Apply(s.hub, Commands.Join(d, session, transport, now)))
  {
    var k := |s.tasks|;
    var s1 := LetIn(s, ConnectWaiting(d, transport));
    s' := ConnectsLocked(s1, k, session, now);
    GoesOn(s, [Begin(ConnectWaiting(d, transport))] + [Lock(k)], s1,
           [Read(k)] + [Join(k, session, now)] + [Closed(k)], s');
  }

  lemma Activates(s: Service, k: nat, now: int) returns (s': Service)
    requires Inv(s) && k < |s.tasks| && s.tasks[k].ActivateReading? && Unrevoked(s, s.tasks[k].device)
    requires Current(s.hub.m, s.tasks[k].device, s.tasks[k].session)
    ensures Goes(s, [Read(k)] + [Activate(k, now)], s')
    ensures var t := s.tasks[k];
      var eff := t.advertised * s.rows[t.device].granted;
      s' == s.(tasks := s.tasks[k := Ended(Effective(eff))],
               hub := Commands.Apply(s.hub, Commands.Activation(t.device, t.session, t.advertised, eff, now)))
  {
    ReadEffect(s, k);
    var s1 := Go(s, Read(k));
    ActivationEnds(s1, k, now);
    s' := Go(s1, Activate(k, now));
    UpdatedTwice(s.tasks, k, s1.tasks[k], s'.tasks[k]);
    GoesOn(s, [Read(k)], s1, [Activate(k, now)], s');
  }

  /** A connected, unrevoked device is activated with what it advertises of its grant. */
  lemma DeviceActivates(s: Service, d: Id, session: Id, adv: set<Capability>, now: int) returns (s': Service)
    requires Inv(s) && Unrevoked(s, d) && Current(s.hub.m, d, session)
    ensures var k, eff := |s.tasks|, adv * s.rows[d].granted;
      && Goes(s, [Begin(ActivateReading(d, session, adv))] + ([Read(k)] + [Activate(k, now)]), s')
      && s' == s.(tasks := s.tasks + [Ended(Effective(eff))],
                  hub := Commands.Apply(s.hub, Commands.Activation(d, session, adv, eff, now)))
  {
    var k := |s.tasks|;
    var s1 := Begun(s, ActivateReading(d, session, adv));
    s' := Activates(s1, k, now);
    GoesOn(s, [Begin(ActivateReading(d, session, adv))], s1, [Read(k)] + [Activate(k, now)], s');
  }

  /** What the manager's entry of execute is given. */
  function Issued(d: Id, c: Capability, action: string, id: Id, issued: int, timeout: int): Command {
    Command(id, d, c, action, issued, issued + timeout)
  }

  lemma Dispatches(s: Service, k: nat, id: Id, issued: int, timeout: int, now: int) returns (s': Service)
    requires Inv(s) && k < |s.tasks| && s.tasks[k].ExecuteReading? && Unrevoked(s, s.tasks[k].device)
    requires var t := s.tasks[k];
      && t.device in s.hub.m.connections && s.hub.m.connections[t.device].status == Online
      && t.capability in s.hub.m.connections[t.device].effective
      && t.capability in s.allow && t.action in s.allow[t.capability]
    requires timeout > 0 && now < issued + timeout && id !in s.hub.m.pending
    ensures Goes(s, [Read(k)] + [Dispatch(k, id, true, issued, timeout, now)], s')
    ensures s'.tasks == s.tasks[k := Ended(Dispatched(|s.hub.phases|))]
    ensures var t := s.tasks[k];
      s'.hub == Commands.Apply(s.hub,
        Commands.Submit(Issued(t.device, t.capability, t.action, id, issued, timeout), timeout, now))
  {
    var t := s.tasks[k];
    ReadEffect(s, k);
    var s1 := Go(s, Read(k));
    ShownExactly(s1, t.device, s1.tasks[k].row);
    AllowedIsStripped(s1, t.capability, t.action);
    CommandEffects.AdmissionIs(s1.hub.m, Issued(t.device, t.capability, t.action, id, issued, timeout), timeout, now);
    DispatchEffect(s1, k, id, true, issued, timeout, now);
    s' := Go(s1, Dispatch(k, id, true, issued, timeout, now));
    GoesOn(s, [Read(k)], s1, [Dispatch(k, id, true, issued, timeout, now)], s');
  }

  lemma AllowedIsStripped(s: Service, c: Capability, action: string)
    requires Inv(s) && c in s.allow && action in s.allow[c]
    ensures Strip(action) == action
  {
    StripProjects(action);
  }

  /** A command that the connection is able to take, and the allowlist allows, reaches the manager. */
  lemma CommandDispatches(s: Service, d: Id, c: Capability, action: string, id: Id, issued: int, timeout: int, now: int)
    returns (s': Service)
    requires Inv(s) && Unrevoked(s, d) && d in s.hub.m.connections && s.hub.m.connections[d].status == Online
    requires c in s.hub.m.connections[d].effective && c in s.allow && action in s.allow[c]
    requires timeout > 0 && now < issued + timeout && id !in s.hub.m.pending
    ensures var k := |s.tasks|;
      && Goes(s, [Begin(ExecuteReading(d, c, action))]
                 + ([Read(k)] + [Dispatch(k, id, true, issued, timeout, now)]), s')
      && s'.tasks == s.tasks + [Ended(Dispatched(|s.hub.phases|))]
      && s'.hub == Commands.Apply(s.hub, Commands.Submit(Issued(d, c, action, id, issued, timeout), timeout, now))
  {
    var k := |s.tasks|;
    var s1 := Begun(s, ExecuteReading(d, c, action));
    s' := Dispatches(s1, k, id, issued, timeout, now);
    GoesOn(s, [Begin(ExecuteReading(d, c, action))], s1, [Read(k)] + [Dispatch(k, id, true, issued, timeout, now)], s');
  }

  /** A revocation that finds the lifecycle lock free runs to its end: the caller gets the row with the time, no token
      and no connection of the device is left, and nothing else of the service has changed. */
  lemma DeviceIsRevoked(s: Service, d: Id, now: int) returns (s': Service)
    requires Inv(s) && Unrevoked(s, d) && s.lock == None
    ensures var k, row := |s.tasks|, Row(s.rows[d].granted, Some(now));
      && Goes(s, [Begin(RevokeWaiting(d))] + [Lock(k)]
                 + ([Read(k)] + [DropTokens(k)] + ([Save(k, now)] + [Drop(k)] + [Closed(k)])), s')
      && s' == s.(tasks := s.tasks + [Ended(Removed(row))], rows := s.rows[d := row], tokens := s.tokens - {d},
                  settled := s.settled + {d}, hub := Commands.Apply(s.hub, Commands.Evict(d)))
  {
    var k := |s.tasks|;
    var s1 := LetIn(s, RevokeWaiting(d));
    var s2 := TokensDropped(s1, k);
    s' := SavedAndDropped(s2, k, now);
    GoesOn(s1, [Read(k)] + [DropTokens(k)], s2, [Save(k, now)] + [Drop(k)] + [Closed(k)], s');
    GoesOn(s, [Begin(RevokeWaiting(d))] + [Lock(k)], s1,
           [Read(k)] + [DropTokens(k)] + ([Save(k, now)] + [Drop(k)] + [Closed(k)]), s');
  }

  lemma TokensDropped(s: Service, k: nat) returns (s': Service)
    requires Inv(s) && k < |s.tasks| && s.tasks[k].RevokeReading? && Unrevoked(s, s.tasks[k].device)
    ensures Inv(s') && Goes(s, [Read(k)] + [DropTokens(k)], s')
    ensures var d := s.tasks[k].device;
      s' == s.(tasks := s.tasks[k := RevokeSaving(d, s.rows[d])], tokens := s.tokens - {d})
  {
    ReadEffect(s, k);
    var s1 := Go(s, Read(k));
    RevokingEffect(s1, k, 0);
    s' := Go(s1, DropTokens(k));
    GoesOn(s, [Read(k)], s1, [DropTokens(k)], s');
  }

  lemma SavedAndDropped(s: Service, k: nat, now: int) returns (s': Service)
    requires Inv(s) && k < |s.tasks| && s.tasks[k].RevokeSaving? && s.tasks[k].device in s.rows
    ensures Goes(s, [Save(k, now)] + [Drop(k)] + [Closed(k)], s')
    ensures var d, row := s.tasks[k].device, Row(s.tasks[k].row.granted, Some(now));
      s' == s.(tasks := s.tasks[k := Ended(Removed(row))], lock := None, rows := s.rows[d := row],
               settled := s.settled + {d}, hub := Commands.Apply(s.hub, Commands.Evict(d)))
  {
    var s1 := SavedAndEvicted(s, k, now);
    s' := Closes(s1, k);
    GoesOn(s, [Save(k, now)] + [Drop(k)], s1, [Closed(k)], s');
  }

  lemma SavedAndEvicted(s: Service, k: nat, now: int) returns (s': Service)
    requires Inv(s) && k < |s.tasks| && s.tasks[k].RevokeSaving? && s.tasks[k].device in s.rows
    ensures Inv(s') && Goes(s, [Save(k, now)] + [Drop(k)], s')
    ensures var d, row := s.tasks[k].device, Row(s.tasks[k].row.granted, Some(now));
      s' == s.(tasks := s.tasks[k := RevokeClosing(d, row)], rows := s.rows[d := row],
               settled := s.settled + {d}, hub := Commands.Apply(s.hub, Commands.Evict(d)))
  {
    RevokingEffect(s, k, now);
    var s1 := Go(s, Save(k, now));
    RevokingEffect(s1, k, now);
    s' := Go(s1, Drop(k));
    GoesOn(s, [Save(k, now)], s1, [Drop(k)], s');
  }
}
