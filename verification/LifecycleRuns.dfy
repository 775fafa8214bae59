/** What holds along every run of the service: revocation is final and grants are never exceeded. */
module LifecycleRuns {
  import opened Domain
  import opened Tables
  import Commands
  import HubProjection
  import opened Lifecycle

  function Initially(allow: map<Capability, set<string>>): Service {
    Service(Commands.INITIAL, map[], map[], allow, None, [], {})
  }

  ghost predicate IsRun(ss: seq<Service>, es: seq<Event>) {
    && |ss| == |es| + 1
    && Normalized(ss[0].allow)
    && ss[0] == Initially(ss[0].allow)
    && forall i :: 0 <= i < |es| ==> Step(ss[i], es[i], ss[i + 1])
  }

  lemma {:induction false} RunInv(ss: seq<Service>, es: seq<Event>, i: nat)
    requires IsRun(ss, es) && i < |ss|
    ensures Inv(ss[i])
  {
    if i > 0 {
      RunInv(ss, es, i - 1);
      StepKeeps(ss[i - 1], es[i - 1], ss[i]);
    }
  }

  lemma {:induction false} RunEvolves(ss: seq<Service>, es: seq<Event>, i: nat, j: nat)
    requires IsRun(ss, es) && i <= j < |ss|
    ensures RowsEvolve(ss[i], ss[j])
    decreases j
  {
    if i < j {
      RunEvolves(ss, es, i, j - 1);
      RunInv(ss, es, j - 1);
      StepKeeps(ss[j - 1], es[j - 1], ss[j]);
      RowsEvolveTransitive(ss[i], ss[j - 1], ss[j]);
    }
  }

  /** revoked_at never changes after it is first written. */
  lemma RevokedAtWrittenOnce(ss: seq<Service>, es: seq<Event>, i: nat, j: nat, d: Id)
    requires IsRun(ss, es) && i <= j < |ss|
    requires d in ss[i].rows && ss[i].rows[d].revokedAt.Some?
    ensures d in ss[j].rows && ss[j].rows[d].revokedAt == ss[i].rows[d].revokedAt
  {
    RunEvolves(ss, es, i, j);
  }

  /** Once revoke_device has made its disconnect step, in every later state of the run the device is
      revoked with the same time, no token authenticates as it, it has no connection and no pending
      command, no execution towards it passes the send gate, no reply for it is accepted, and every task
      that has yet to look at it is refused. */
  lemma RevocationIsFinal(ss: seq<Service>, es: seq<Event>, i: nat, j: nat, k: nat, d: Id)
    requires IsRun(ss, es) && i < j < |ss|
    requires es[i] == Drop(k) && k < |ss[i].tasks| && ss[i].tasks[k].RevokeDropping? && ss[i].tasks[k].device == d
    ensures d in ss[i].rows && d in ss[j].rows
    ensures ss[j].rows[d].revokedAt.Some? && ss[j].rows[d].revokedAt == ss[i].rows[d].revokedAt
    ensures d in ss[j].settled && Commands.Shaped(ss[j].hub) && CutOff(ss[j], d)
  {
    RunInv(ss, es, i);
    RunInv(ss, es, j);
    assert TaskInformed(ss[i], ss[i].tasks[k]);
    assert Step(ss[i], es[i], ss[i + 1]);
    RunEvolves(ss, es, i + 1, j);
    SettledIsCutOff(ss[j], d);
  }

  /** A dispatch to a settled device is refused, even one that read the row before the revocation. */
  lemma SettledDispatchRefused(ss: seq<Service>, es: seq<Event>, j: nat, h: nat, d: Id,
                               id: Id, valid: bool, issued: int, timeout: int, now: int)
    requires IsRun(ss, es) && j < |ss| && d in ss[j].settled
    requires h < |ss[j].tasks| && ss[j].tasks[h].ExecuteDispatching? && ss[j].tasks[h].device == d
    ensures Commands.Shaped(ss[j].hub)
    ensures AfterDispatch(ss[j], h, id, valid, issued, timeout, now) == End(ss[j], h, Refused)
  {
    RunInv(ss, es, j);
  }

  /** For every connected device the router's effective set is advertised ∩ granted, which is what the
      service shows as available while the device is not revoked. */
  lemma EffectiveIsGranted(ss: seq<Service>, es: seq<Event>, i: nat, d: Id)
    requires IsRun(ss, es) && i < |ss| && d in ss[i].hub.m.connections
    ensures d in ss[i].rows
    ensures var x, row := ss[i].hub.m.connections[d], ss[i].rows[d];
      && x.effective == x.advertised * row.granted
      && (row.revokedAt.None? ==> Available(WithRuntimeState(ss[i], d, row)) == x.effective)
  {
    RunInv(ss, es, i);
  }

  /** Every command that was ever filed, and so every command that is ever sent, stays within the grant
      its device was enrolled with and within the allowlist of the start of the run. */
  lemma GrantsNeverExceeded(ss: seq<Service>, es: seq<Event>, g: nat, i: nat, t: nat,
                            d: Id, token: Id, granted: set<Capability>)
    requires IsRun(ss, es) && g < i < |ss| && es[g] == Enroll(d, token, granted)
    requires t < |ss[i].hub.m.waiters| && ss[i].hub.m.waiters[t].command.device == d
    ensures var c := ss[i].hub.m.waiters[t].command;
      && c.capability in granted
      && c.capability in ss[0].allow && c.action in ss[0].allow[c.capability]
  {
    RunInv(ss, es, i);
    RunEvolves(ss, es, 0, i);
    RunEvolves(ss, es, g + 1, i);
    assert CommandGranted(ss[i], ss[i].hub.m.waiters[t].command);
  }

  /** And every such command's device was enrolled earlier in the run. */
  lemma {:induction false} CommandsHaveEnrolledDevice(ss: seq<Service>, es: seq<Event>, i: nat, d: Id) returns (g: nat)
    requires IsRun(ss, es) && i < |ss| && d in ss[i].rows
    ensures g < i && es[g].Enroll? && es[g].device == d && ss[i].rows[d].granted == es[g].granted
  {
    RunInv(ss, es, i - 1);
    assert Step(ss[i - 1], es[i - 1], ss[i]);
    if d in ss[i - 1].rows {
      g := CommandsHaveEnrolledDevice(ss, es, i - 1, d);
      StepKeeps(ss[i - 1], es[i - 1], ss[i]);
    } else {
      g := i - 1;
      OnlyEnrolmentAddsRows(ss[i - 1], es[i - 1], ss[i], d);
    }
  }

  lemma OnlyEnrolmentAddsRows(s: Service, e: Event, s': Service, d: Id)
    requires Step(s, e, s') && d in s'.rows && d !in s.rows
    ensures e.Enroll? && e.device == d && s'.rows[d].granted == e.granted
  {}

  /** The manager events inside a service step. */
  function HubEvents(s: Service, e: Event): seq<Commands.Event>
    requires Commands.Shaped(s.hub)
  {
    match e
    case Drop(k) => if k < |s.tasks| && s.tasks[k].RevokeDropping? then [Commands.Evict(s.tasks[k].device)] else []
    case Join(k, session, now) =>
      if k < |s.tasks| && s.tasks[k].ConnectJoining?
      then [Commands.Join(s.tasks[k].device, session, s.tasks[k].transport, now)] else []
    case Activate(k, now) =>
      if k < |s.tasks| && s.tasks[k].ActivateApplying?
      then [Commands.Activation(s.tasks[k].device, s.tasks[k].session, s.tasks[k].advertised,
                                s.tasks[k].advertised * s.tasks[k].granted, now)] else []
    case Dispatch(k, id, valid, issued, timeout, now) =>
      if k < |s.tasks| && s.tasks[k].ExecuteDispatching? && MayDispatch(s, s.tasks[k], valid)
      then var t := s.tasks[k];
        [Commands.Submit(Command(id, t.device, t.capability, Strip(t.action), issued, issued + timeout), timeout, now)]
      else []
    case Routing(me) => [me]
    case _ => []
  }

  /** Every service step is a sequence of manager steps. */
  lemma ServiceProjects(s: Service, e: Event, s': Service)
    requires Step(s, e, s')
    ensures Commands.Reaches(s.hub, HubEvents(s, e), s'.hub)
  {}

  /** Every service run contains a manager run through all its hubs. */
  lemma RunContained(ss: seq<Service>, es: seq<Event>)
    returns (hubs: seq<Commands.Hub>, steps: seq<seq<Commands.Event>>)
    requires IsRun(ss, es)
    ensures HubProjection.Projects(hubs, steps) && |hubs| == |ss|
    ensures forall i :: 0 <= i < |ss| ==> hubs[i] == ss[i].hub
    ensures forall i :: 0 <= i < |es| ==> Commands.Shaped(ss[i].hub) && steps[i] == HubEvents(ss[i], es[i])
  {
    hubs := seq(|ss|, i requires 0 <= i < |ss| => ss[i].hub);
    forall i | 0 <= i < |es|
      ensures Commands.Shaped(ss[i].hub)
    {
      assert Step(ss[i], es[i], ss[i + 1]);
    }
    steps := seq(|es|, i requires 0 <= i < |es| && Commands.Shaped(ss[i].hub) => HubEvents(ss[i], es[i]));
    forall i | 0 <= i < |es|
      ensures Commands.Reaches(hubs[i], steps[i], hubs[i + 1])
    {
      ServiceProjects(ss[i], es[i], ss[i + 1]);
    }
  }

  /** If execute_command returns a reply, that reply came in on the command's own session while it was current. */
  lemma ReplyAccepted(ss: seq<Service>, es: seq<Event>, t: nat, r: Reply) returns (j: nat)
    requires IsRun(ss, es)
    requires var h := ss[|es|].hub; t < |h.phases| && h.phases[t] == Commands.Finished(Commands.Returned(r))
    ensures var h := ss[|es|].hub;
      && |h.m.waiters| == |h.phases|
      && j < |es| && es[j] == Routing(Commands.Answer(Commands.DeviceOf(h, t), Commands.SessionOf(h, t), r))
      && r.command == h.m.waiters[t].command.id && r.device == Commands.DeviceOf(h, t)
      && Current(ss[j].hub.m, Commands.DeviceOf(h, t), Commands.SessionOf(h, t))
  {
    var hubs, steps := RunContained(ss, es);
    var k;
    j, k := HubProjection.ReplyAccepted(hubs, steps, t, r);
  }
}
