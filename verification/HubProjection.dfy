/** Machines that contain the command machine: their runs contain its runs, so what holds along those holds in them. */
module HubProjection {
  import opened Tables
  import opened Commands
  import opened CommandRuns

  /** The hub before and after each step of a larger machine, and the hub's own events inside the step. */
  ghost predicate Projects(hubs: seq<Hub>, steps: seq<seq<Event>>) {
    && |hubs| == |steps| + 1
    && hubs[0] == INITIAL
    && forall j :: 0 <= j < |steps| ==> Reaches(hubs[j], steps[j], hubs[j + 1])
  }

  /** Where the larger machine's states are in a run of the hub. */
  ghost predicate Placed(hubs: seq<Hub>, steps: seq<seq<Event>>, ss: seq<Hub>, es: seq<Event>, at: seq<nat>)
    requires |hubs| == |steps| + 1 && |ss| == |es| + 1
  {
    && |at| == |hubs|
    && at[0] == 0 && at[|steps|] == |es|
    && (forall j :: 0 <= j < |at| ==> at[j] < |ss| && ss[at[j]] == hubs[j])
    && (forall j :: 0 <= j < |steps| ==> at[j] + |steps[j]| == at[j + 1] && es[at[j]..at[j + 1]] == steps[j])
  }

  /** A run goes on by events that lead on. */
  lemma {:induction false} Extended(ss: seq<Hub>, es: seq<Event>, more: seq<Event>, s: Hub)
    returns (ss': seq<Hub>, es': seq<Event>)
    requires IsRun(ss, es) && Reaches(ss[|es|], more, s)
    ensures IsRun(ss', es') && es' == es + more && ss <= ss' && ss'[|es'|] == s
    decreases |more|
  {
    if more == [] {
      return ss, es + more;
    }
    var next := Apply(ss[|es|], more[0]);
    ss', es' := Extended(ss + [next], es + [more[0]], more[1..], s);
    assert es + more == es + [more[0]] + more[1..];
  }

  /** The steps of the larger machine, put one after the other, are a run of the hub. */
  lemma {:induction false} RunContained(hubs: seq<Hub>, steps: seq<seq<Event>>)
    returns (ss: seq<Hub>, es: seq<Event>, at: seq<nat>)
    requires Projects(hubs, steps)
    ensures IsRun(ss, es) && Placed(hubs, steps, ss, es, at)
    decreases |steps|
  {
    if steps == [] {
      return hubs, [], [0];
    }
    var n := |steps| - 1;
    assert Reaches(hubs[n], steps[n], hubs[n + 1]);
    var ss0, es0, at0 := RunContained(hubs[..n + 1], steps[..n]);
    ss, es := Extended(ss0, es0, steps[n], hubs[n + 1]);
    at := at0 + [|es|];
    forall j | 0 <= j < |steps|
      ensures at[j] + |steps[j]| == at[j + 1] && es[at[j]..at[j + 1]] == steps[j]
    {
      if j < n {
        assert es0[at0[j]..at0[j + 1]] == steps[..n][j];
        assert at0[j + 1] <= |es0|;
        assert es[at[j]..at[j + 1]] == es0[at0[j]..at0[j + 1]];
      }
    }
  }

  /** The step in which an event of the hub happens. */
  lemma {:induction false} Located(at: seq<nat>, n: nat, q: nat) returns (j: nat)
    requires n < |at| && at[0] <= q < at[n]
    ensures j < n && at[j] <= q < at[j + 1]
  {
    if q >= at[n - 1] {
      return n - 1;
    }
    j := Located(at, n - 1, q);
  }

  /** If an execution has returned a reply, one of the steps accepted that reply for it, from its own device and
      session, which was then current. */
  lemma ReplyAccepted(hubs: seq<Hub>, steps: seq<seq<Event>>, t: nat, r: Reply) returns (j: nat, k: nat)
    requires Projects(hubs, steps)
    requires var s := hubs[|steps|]; t < |s.phases| && s.phases[t] == Finished(Returned(r))
    ensures var s := hubs[|steps|];
      && j < |steps| && k < |steps[j]| && |s.m.waiters| == |s.phases|
      && steps[j][k] == Answer(DeviceOf(s, t), SessionOf(s, t), r)
      && r.command == s.m.waiters[t].command.id && r.device == DeviceOf(s, t)
      && (k == 0 ==> Current(hubs[j].m, DeviceOf(s, t), SessionOf(s, t)))
  {
    var ss, es, at := RunContained(hubs, steps);
    var q := ReplyCorrelated(ss, es, |es|, t, r);
    j := Located(at, |steps|, q);
    k := q - at[j];
    assert es[at[j]..at[j + 1]][k] == es[q];
  }
}
