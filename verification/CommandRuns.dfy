/** What holds along every run of the connection manager. */
module CommandRuns {
  import opened Domain
  import opened Tables
  import opened Commands

  ghost predicate IsRun(ss: seq<Hub>, es: seq<Event>) {
    && |ss| == |es| + 1
    && ss[0] == INITIAL
    && forall i :: 0 <= i < |es| ==>
         Shaped(ss[i]) && Enabled(ss[i], es[i]) && ss[i + 1] == Apply(ss[i], es[i])
  }

  lemma {:induction false} RunInv(ss: seq<Hub>, es: seq<Event>, i: nat)
    requires IsRun(ss, es) && i < |ss|
    ensures Inv(ss[i])
  {
    if i > 0 {
      RunInv(ss, es, i - 1);
      InvPreserved(ss[i - 1], es[i - 1]);
    }
  }

  lemma {:induction false} RunEvolves(ss: seq<Hub>, es: seq<Event>, i: nat, j: nat)
    requires IsRun(ss, es) && i <= j < |ss|
    ensures Evolves(ss[i].m, ss[j].m)
    decreases j
  {
    if i < j {
      RunEvolves(ss, es, i, j - 1);
      RunInv(ss, es, j - 1);
      InvPreserved(ss[j - 1], es[j - 1]);
      EvolvesTransitive(ss[i].m, ss[j - 1].m, ss[j].m);
    }
  }

  // ---------- Waiters ----------

  /** No waiter is orphaned: an execution that has not left is listed with an open future, or unlisted
      with a done one, never a mixture; it is unlisted as soon as its connection is gone; and one that
      has left is unlisted and done. */
  lemma WaitersConserved(ss: seq<Hub>, es: seq<Event>, i: nat, t: nat)
    requires IsRun(ss, es) && i < |ss| && t < |ss[i].phases|
    ensures |ss[i].m.waiters| == |ss[i].phases|
    ensures Listed(ss[i].m, t) <==> ss[i].m.waiters[t].future.Open?
    ensures Listed(ss[i].m, t) ==> Live(ss[i], t) && StillCurrent(ss[i].m, t)
    ensures Live(ss[i], t) && !StillCurrent(ss[i].m, t) ==> !ss[i].m.waiters[t].future.Open?
  {
    RunInv(ss, es, i);
    assert CallConserved(ss[i], t) && WaiterOk(ss[i].m, t);
  }

  /** Once done, a future holds the same outcome for the rest of the run. */
  lemma FutureCompletesOnce(ss: seq<Hub>, es: seq<Event>, i: nat, j: nat, t: nat)
    requires IsRun(ss, es) && i <= j < |ss| && t < |ss[i].m.waiters|
    requires !ss[i].m.waiters[t].future.Open?
    ensures t < |ss[j].m.waiters| && ss[j].m.waiters[t].future == ss[i].m.waiters[t].future
  {
    RunEvolves(ss, es, i, j);
  }

  /** resolve never meets a done future: a matching entry is always still open. */
  lemma DoneBranchUnreachable(ss: seq<Hub>, es: seq<Event>, i: nat, d: Id, x: Id, r: Reply)
    requires IsRun(ss, es) && i < |ss|
    ensures WellFiled(ss[i].m)
    ensures Matches(ss[i].m, d, x, r) ==> Accepts(ss[i].m, d, x, r)
  {
    RunInv(ss, es, i);
    if Matches(ss[i].m, d, x, r) {
      assert WaiterOk(ss[i].m, ss[i].m.pending[r.command].ticket);
    }
  }

  /** Every pending entry's device is connected and online under the entry's session. */
  lemma EntriesCoherent(ss: seq<Hub>, es: seq<Event>, i: nat, c: Id)
    requires IsRun(ss, es) && i < |ss| && c in ss[i].m.pending
    ensures var entry := ss[i].m.pending[c];
      Current(ss[i].m, entry.device, entry.session) && ss[i].m.connections[entry.device].status == Online
  {
    RunInv(ss, es, i);
    assert WaiterOk(ss[i].m, ss[i].m.pending[c].ticket);
  }

  /** Failing futures one connected device at a time misses nobody: after close_all both tables are
      empty, no future is open, and the ones that were open hold their own device's offline error. */
  lemma ShutdownCompletesEveryone(ss: seq<Hub>, es: seq<Event>, i: nat)
    requires IsRun(ss, es) && i < |ss|
    ensures var m, m' := ss[i].m, CloseAll(ss[i].m);
      && m'.connections == map[] && m'.pending == map[]
      && |m'.waiters| == |m.waiters|
      && forall t: nat :: t < |m.waiters| ==>
           m'.waiters[t].future ==
             if m.waiters[t].future.Open? then Failed(m.waiters[t].command.device) else m.waiters[t].future
  {
    RunInv(ss, es, i);
    var m, m' := ss[i].m, CloseAll(ss[i].m);
    forall t: nat | t < |m.waiters|
      ensures m'.waiters[t].future ==
             if m.waiters[t].future.Open? then Failed(m.waiters[t].command.device) else m.waiters[t].future
    {
      assert WaiterOk(m, t);
    }
  }

  // ---------- Replies ----------

  /** Event j is a resolve that completed exactly this ticket's future. */
  ghost predicate AcceptedAt(ss: seq<Hub>, es: seq<Event>, j: nat, t: nat) {
    && j < |es| && j < |ss|
    && es[j].Answer?
    && WellFiled(ss[j].m)
    && Accepts(ss[j].m, es[j].device, es[j].session, es[j].reply)
    && ss[j].m.pending[es[j].reply.command].ticket == t
  }

  /** What is accepted for an execution comes from its own device and session. */
  lemma AcceptedFromOwnSession(ss: seq<Hub>, es: seq<Event>, j: nat, k: nat, t: nat)
    requires IsRun(ss, es) && AcceptedAt(ss, es, j, t) && k < |ss| && t < |ss[k].m.waiters|
    ensures es[j].session == SessionOf(ss[k], t) && es[j].device == DeviceOf(ss[k], t)
  {
    RunInv(ss, es, j);
    if j <= k {
      RunEvolves(ss, es, j, k);
    } else {
      RunEvolves(ss, es, k, j);
    }
  }

  /** Only an accepted answer puts a reply into a future. */
  lemma OnlyAnswerResolves(s: Hub, e: Event, t: nat)
    requires Inv(s) && Enabled(s, e)
    requires t < |Apply(s, e).m.waiters| && Apply(s, e).m.waiters[t].future.Resolved?
    ensures t < |s.m.waiters|
    ensures s.m.waiters[t].future.Open? ==>
      && e.Answer?
      && Accepts(s.m, e.device, e.session, e.reply)
      && s.m.pending[e.reply.command].ticket == t
      && Apply(s, e).m.waiters[t].future == Resolved(e.reply)
  {}

  lemma {:induction false} AcceptanceExists(ss: seq<Hub>, es: seq<Event>, i: nat, t: nat) returns (j: nat)
    requires IsRun(ss, es) && i < |ss| && t < |ss[i].m.waiters|
    requires ss[i].m.waiters[t].future.Resolved?
    ensures j < i && AcceptedAt(ss, es, j, t)
    ensures es[j].reply == ss[i].m.waiters[t].future.reply
  {
    RunInv(ss, es, i - 1);
    OnlyAnswerResolves(ss[i - 1], es[i - 1], t);
    if ss[i - 1].m.waiters[t].future.Open? {
      j := i - 1;
    } else {
      FutureCompletesOnce(ss, es, i - 1, i, t);
      j := AcceptanceExists(ss, es, i - 1, t);
    }
  }

  lemma AcceptedOnce(ss: seq<Hub>, es: seq<Event>, j: nat, k: nat, t: nat)
    requires IsRun(ss, es) && AcceptedAt(ss, es, j, t) && AcceptedAt(ss, es, k, t)
    ensures j == k
  {
    if j < k {
      RunEvolves(ss, es, j + 1, k);
    } else if k < j {
      RunEvolves(ss, es, k + 1, j);
    }
  }

  /** If execute returned r, exactly one resolve in the whole run accepted anything for that pending
      instance; it accepted r, before the return, with the command and device ids matching and the
      session that the command was filed under current at that moment. */
  lemma ReplyCorrelated(ss: seq<Hub>, es: seq<Event>, i: nat, t: nat, r: Reply) returns (j: nat)
    requires IsRun(ss, es) && i < |ss| && t < |ss[i].phases|
    requires ss[i].phases[t] == Finished(Returned(r))
    ensures j < i && AcceptedAt(ss, es, j, t)
    ensures forall k: nat :: AcceptedAt(ss, es, k, t) ==> k == j
    ensures |ss[i].m.waiters| == |ss[i].phases|
    ensures es[j] == Answer(DeviceOf(ss[i], t), SessionOf(ss[i], t), r)
    ensures r.command == ss[i].m.waiters[t].command.id && r.device == DeviceOf(ss[i], t)
    ensures Current(ss[j].m, DeviceOf(ss[i], t), SessionOf(ss[i], t))
  {
    RunInv(ss, es, i);
    assert CallConserved(ss[i], t) && WaiterOk(ss[i].m, t);
    j := AcceptanceExists(ss, es, i, t);
    RunEvolves(ss, es, j, i);
    forall k: nat | AcceptedAt(ss, es, k, t)
      ensures k == j
    {
      AcceptedOnce(ss, es, j, k, t);
    }
  }

  /** The ticket an event ends by running its finally block without a failed send. */
  predicate Leaves(s: Hub, e: Event, t: nat)
    requires Shaped(s)
  {
    match e
    case Gate(u) => u == t && t < |s.phases| && !GatePasses(s, t)
    case Wake(u) => u == t
    case TimeOut(u) => u == t
    case Cancel(u) => u == t
    case _ => false
  }

  /** Leaving never touches anybody else, even an execution that has since reused the command id. */
  lemma CleanupSparesReuse(s: Hub, e: Event, t: nat, u: nat)
    requires Inv(s) && Enabled(s, e) && Leaves(s, e, t) && t < |s.phases|
    requires u < |s.phases| && u != t
    ensures var s' := Apply(s, e);
      && !Listed(s'.m, t)
      && (Listed(s'.m, u) <==> Listed(s.m, u))
      && s'.m.waiters[u] == s.m.waiters[u] && s'.phases[u] == s.phases[u]
      && s'.m.connections == s.m.connections
  {
    CleanupCoherent(s.m, t);
    assert WaiterOk(Cleanup(s.m, t), t);
  }

  // ---------- Sessions and sends ----------

  /** A session that was replaced or removed is never current again. */
  lemma SessionFinality(ss: seq<Hub>, es: seq<Event>, i: nat, j: nat, d: Id, x: Id)
    requires IsRun(ss, es) && i <= j < |ss|
    requires x in ss[i].m.sessions && !Current(ss[i].m, d, x)
    ensures !Current(ss[j].m, d, x)
  {
    RunEvolves(ss, es, i, j);
  }

  /** Everything later done in the name of a stale session leaves both tables as they are. */
  lemma StaleSessionInert(s: Hub, d: Id, x: Id, adv: set<Capability>, eff: set<Capability>, now: int, r: Reply)
    requires Inv(s) && !Current(s.m, d, x)
    ensures Apply(s, Leave(d, x)) == s
    ensures Apply(s, Seen(d, x, now)) == s
    ensures Apply(s, Activation(d, x, adv, eff, now)) == s
    ensures ActivateOutcome(s.m, d, x, adv, eff) != Activated
    ensures Apply(s, Answer(d, x, r)) == s
  {}

  /** A send that fails on a stale connection disturbs neither the newer connection nor its commands. */
  lemma StaleSendFailureInert(s: Hub, t: nat, u: nat)
    requires Inv(s) && Enabled(s, SendFailed(t)) && !GatePasses(s, t)
    requires u < |s.phases| && u != t
    ensures var s' := Apply(s, SendFailed(t));
      && s'.m.connections == s.m.connections
      && (Listed(s'.m, u) <==> Listed(s.m, u)) && s'.m.waiters[u] == s.m.waiters[u]
  {}

  /** If the identity test passes, the connection has been current and online at every moment since the
      command was filed, and its future is still open in the table or was resolved; it has not failed. */
  lemma GateSound(ss: seq<Hub>, es: seq<Event>, i: nat, t: nat, k: nat)
    requires IsRun(ss, es) && i < |es| && es[i] == Gate(t) && GatePasses(ss[i], t)
    requires k <= i && t < |ss[k].phases|
    ensures |ss[k].m.waiters| == |ss[k].phases|
    ensures StillCurrent(ss[k].m, t) && ss[k].m.connections[DeviceOf(ss[k], t)].status == Online
    ensures ss[i].phases[t] == Queued && Apply(ss[i], es[i]).phases[t] == Sending
    ensures Listed(ss[i].m, t) ||
      exists j: nat :: AcceptedAt(ss, es, j, t) && j < i && es[j].session == SessionOf(ss[k], t)
  {
    RunInv(ss, es, k);
    RunInv(ss, es, i);
    RunEvolves(ss, es, k, i);
    assert WaiterOk(ss[i].m, t) && CallConserved(ss[i], t);
    var b := Birth(ss, es, k, t);
    RunInv(ss, es, b);
    RunEvolves(ss, es, b, k);
    assert StillCurrent(ss[b].m, t);
    if !Listed(ss[i].m, t) {
      var j := AcceptanceExists(ss, es, i, t);
      AcceptedFromOwnSession(ss, es, j, k, t);
    }
  }

  /** The state right after a ticket's registration: it is listed and its session is online. */
  lemma {:induction false} Birth(ss: seq<Hub>, es: seq<Event>, k: nat, t: nat) returns (b: nat)
    requires IsRun(ss, es) && k < |ss| && t < |ss[k].phases|
    ensures b <= k && t < |ss[b].phases| == |ss[b].m.waiters|
    ensures Listed(ss[b].m, t) && StillCurrent(ss[b].m, t)
    ensures ss[b].m.connections[DeviceOf(ss[b], t)].status == Online
  {
    RunInv(ss, es, k);
    if t < |ss[k - 1].phases| {
      b := Birth(ss, es, k - 1, t);
    } else {
      b := k;
      RunInv(ss, es, k - 1);
      assert WaiterOk(ss[k].m, t);
    }
  }

  /** Two executions are never inside a send on the same connection. */
  lemma SendsNeverOverlap(ss: seq<Hub>, es: seq<Event>, i: nat, t: nat, u: nat)
    requires IsRun(ss, es) && i < |ss| && t < |ss[i].phases| && u < |ss[i].phases|
    requires ss[i].phases[t].Sending? && ss[i].phases[u].Sending?
    ensures |ss[i].m.waiters| == |ss[i].phases|
    ensures SessionOf(ss[i], t) == SessionOf(ss[i], u) ==> t == u
  {
    RunInv(ss, es, i);
  }

  /** A reply for a waiting command is accepted exactly from that command's own device and session, which
      are then current, and completes that command alone. */
  lemma AnswerCompletesItsOwn(s: Hub, d: Id, x: Id, r: Reply, t: nat)
    requires Inv(s) && Listed(s.m, t) && s.m.waiters[t].command.id == r.command
    ensures Accepts(s.m, d, x, r) <==> d == r.device == DeviceOf(s, t) && x == SessionOf(s, t)
    ensures var s' := Apply(s, Answer(d, x, r));
      if !Accepts(s.m, d, x, r) then s' == s
      else
        && s'.m.waiters[t].future == Resolved(r) && !Listed(s'.m, t)
        && s'.m.connections == s.m.connections && s'.phases == s.phases && s'.holder == s.holder
        && |s'.m.waiters| == |s.m.waiters|
        && forall u: nat :: u < |s.m.waiters| && u != t ==>
             s'.m.waiters[u] == s.m.waiters[u] && (Listed(s'.m, u) <==> Listed(s.m, u))
  {
    assert WaiterOk(s.m, t);
  }

  /** The device whose commands an event fails, if it takes a connection away. */
  function Dropped(s: Hub, e: Event): Option<Id> {
    match e
    case Join(d, _, _, _) => Some(d)
    case Evict(d) => Some(d)
    case Leave(d, x) => if Current(s.m, d, x) then Some(d) else None
    case _ => None
  }

  /** Taking a device's connection away fails exactly the commands waiting for that device. */
  lemma DroppingFailsItsOwn(s: Hub, e: Event, d: Id, t: nat)
    requires Inv(s) && Enabled(s, e) && Dropped(s, e) == Some(d) && t < |s.m.waiters|
    ensures var s', w := Apply(s, e), s.m.waiters[t];
      && s'.phases == s.phases
      && |s'.m.waiters| == |s.m.waiters|
      && (Listed(s'.m, t) <==> Listed(s.m, t) && w.command.device != d)
      && s'.m.waiters[t] == (if Listed(s.m, t) && w.command.device == d then w.(future := Failed(d)) else w)
      && s'.m.connections - {d} == s.m.connections - {d}
      && (if e.Join? then d in s'.m.connections && s'.m.connections[d] == NewConnection(e.session, e.transport, e.now)
          else d !in s'.m.connections)
  {
    assert WaiterOk(s.m, t);
  }
}
