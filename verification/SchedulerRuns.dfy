/** Whole runs of the cooperative scheduler: store locks are never seen taken, no tasks wait in a circle, and every
    task of every reachable state can still finish. */
module SchedulerRuns {
  import opened Domain
  import opened Programs
  import opened Scheduler
  import Chains

  // ---------- Whole runs ----------

  const START := State([], map[], map[], None)

  ghost predicate IsRun(s: State, es: seq<Event>)
    decreases |es|
  {
    es != [] ==> Enabled(s, es[0]) && IsRun(Next(s, es[0]), es[1..])
  }

  function After(s: State, es: seq<Event>): State
    requires IsRun(s, es)
    decreases |es|
  {
    if es == [] then s else After(Next(s, es[0]), es[1..])
  }

  lemma {:induction false} RunKeeps(s: State, es: seq<Event>)
    requires Inv(s) && IsRun(s, es)
    ensures Inv(After(s, es))
    decreases |es|
  {
    if es != [] {
      InvPreserved(s, es[0]);
      RunKeeps(Next(s, es[0]), es[1..]);
    }
  }

  lemma StartHolds()
    ensures Inv(START)
  {}

  /** In every reachable state in which tasks can be switched, every store lock is free and nobody waits for one. */
  lemma StoreLocksNeverShared(es: seq<Event>, l: Lock)
    requires IsRun(START, es) && After(START, es).running.None? && Rank(l) == 0
    ensures l !in After(START, es).owners && Queue(After(START, es).queues, l) == []
  {
    var s := After(START, es);
    StartHolds();
    RunKeeps(START, es);
    if Queue(s.queues, l) != [] {
      QueuersWait(s, Queue(s.queues, l)[0], l);
      assert false;
    }
  }

  /** A task that holds a store lock is the only one that can step, and it keeps the processor. */
  lemma StoreHolderGoesOn(s: State, e: Event, t: nat, l: Lock)
    requires Inv(s) && Enabled(s, e) && t < |s.tasks| && Holds(s.tasks[t].stack, l) && Rank(l) == 0
    ensures e.Advance? && s.running == Some(t) && Next(s, e).running == Some(t)
  {
    var k := s.tasks[t].stack;
    if k.top != Unlock(l) {
      CeilingIsLowest(k.rest, l);
    }
  }

  /** The lock is held before each of these steps. */
  ghost predicate HeldThrough(s: State, es: seq<Event>, t: nat, l: Lock)
    requires IsRun(s, es)
    decreases |es|
  {
    es != [] ==> t < |s.tasks| && Holds(s.tasks[t].stack, l) && HeldThrough(Next(s, es[0]), es[1..], t, l)
  }

  lemma {:induction false} HoldersGoOn(s: State, es: seq<Event>, t: nat, l: Lock)
    requires Inv(s) && IsRun(s, es) && HeldThrough(s, es, t, l) && Rank(l) == 0 && s.running == Some(t)
    ensures After(s, es).running == Some(t) && forall i :: 0 <= i < |es| ==> es[i].Advance?
    decreases |es|
  {
    if es != [] {
      StoreHolderGoesOn(s, es[0], t, l);
      InvPreserved(s, es[0]);
      HoldersGoOn(Next(s, es[0]), es[1..], t, l);
    }
  }

  lemma StoreTakenAtOnce(s: State, e: Event, t: nat)
    requires Inv(s) && s.running == Some(t) && Alive(s, t) && s.tasks[t].mood.Normal?
    requires s.tasks[t].stack.top.Do? && s.tasks[t].stack.top.code.With?
    requires Rank(s.tasks[t].stack.top.code.lock) == 0 && Enabled(s, e)
    ensures e.Advance? && Next(s, e).running == Some(t)
  {
    StoreLocksAreFree(s, t);
  }

  /** From asking for a store lock until it has been released no other task runs and no cancellation arrives:
      access to an in-memory store is never cut off. */
  lemma StoreAccessIsUninterrupted(s: State, es: seq<Event>, t: nat)
    requires Inv(s) && s.running == Some(t) && Alive(s, t) && s.tasks[t].mood.Normal?
    requires s.tasks[t].stack.top.Do? && s.tasks[t].stack.top.code.With?
    requires Rank(s.tasks[t].stack.top.code.lock) == 0
    requires IsRun(s, es) && es != [] && HeldThrough(Next(s, es[0]), es[1..], t, s.tasks[t].stack.top.code.lock)
    ensures After(s, es).running == Some(t) && forall i :: 0 <= i < |es| ==> es[i].Advance?
  {
    StoreTakenAtOnce(s, es[0], t);
    InvPreserved(s, es[0]);
    HoldersGoOn(Next(s, es[0]), es[1..], t, s.tasks[t].stack.top.code.lock);
  }

  /** How far a claim has come, in instructions, on its way from asking for the in-memory identity's lock to the
      protection of the compensating handler; issuing may raise, but a cancellation is not among these states. */
  predicate Issuing(k: Task, n: nat, rest: Stack) {
    var then_ := Push(Do(ADD_OR_UNDO), rest);
    match n
    case 0 => k.mood.Normal? && k.stack == Push(Do(With(Identity, MAYBE_RAISE)), then_)
    case 1 => k.mood.Normal? && k.stack == Push(Do(MAYBE_RAISE), Push(Unlock(Identity), then_))
    case 2 =>
      && k.mood.Normal?
      && (k.stack == Push(Do(Skip), Push(Unlock(Identity), then_)) ||
          k.stack == Push(Do(Raise), Push(Unlock(Identity), then_)))
    case 3 => k.mood != Raising(true) && k.stack == Push(Unlock(Identity), then_)
    case 4 => k.mood != Raising(true) && k.stack == then_
    case _ =>
      if k.mood.Normal?
      then k.stack == Push(Do(ADD_OR_UNDO.body), Push(Handler(ADD_OR_UNDO.handler, true, true), rest))
      else k.mood == Raising(false) && k.stack == rest
  }

  /** A running claim that has come so far. */
  ghost predicate IssuingAt(s: State, t: nat, n: nat, rest: Stack) {
    Inv(s) && s.running == Some(t) && Issuing(s.tasks[t], n, rest)
  }

  lemma IssueStep(s: State, e: Event, t: nat, n: nat, rest: Stack)
    requires IssuingAt(s, t, n, rest) && Enabled(s, e) && n < 5
    ensures e.Advance? && IssuingAt(Next(s, e), t, n + 1, rest)
  {
    InvPreserved(s, e);
    IssueInstruction(s, e, t, n, rest);
  }

  lemma IssueInstruction(s: State, e: Event, t: nat, n: nat, rest: Stack)
    requires IssuingAt(s, t, n, rest) && Enabled(s, e) && n < 5
    ensures e.Advance? && Next(s, e).running == Some(t) && t < |Next(s, e).tasks|
    ensures Issuing(Next(s, e).tasks[t], n + 1, rest)
  {
    if n == 0 {
      StoreTakenAtOnce(s, e, t);
    } else {
      IssueAdvances(s, e.choice, t, n, rest);
    }
  }

  lemma IssueAdvances(s: State, choice: bool, t: nat, n: nat, rest: Stack)
    requires t < |s.tasks| && 0 < n < 5 && Issuing(s.tasks[t], n, rest) && s.running == Some(t)
    ensures var s' := Advanced(s, t, choice);
      s'.running == Some(t) && t < |s'.tasks| && Issuing(s'.tasks[t], n + 1, rest)
  {}

  predicate Moves(s: State, e: Event, s': State) {
    Enabled(s, e) && s' == Next(s, e)
  }

  lemma {:induction false} RunIsChain(s: State, es: seq<Event>)
    requires IsRun(s, es)
    ensures Chains.Chain(Moves, s, es, After(s, es))
    decreases |es|
  {
    if es != [] {
      RunIsChain(Next(s, es[0]), es[1..]);
      assert Moves(s, es[0], Next(s, es[0]));
    }
  }

  /** A claim over the in-memory identity is never cut off inside issue: until the handler protects it, or issuing
      itself has raised, no other task runs and no cancellation arrives. */
  lemma IssueNeverCutOff(s: State, es: seq<Event>, t: nat, rest: Stack)
    requires IssuingAt(s, t, 0, rest) && IsRun(s, es) && |es| <= 5
    ensures forall i :: 0 <= i < |es| ==> es[i].Advance?
    ensures IssuingAt(After(s, es), t, |es|, rest)
  {
    RunIsChain(s, es);
    IssuingAlong(s, es, After(s, es), t, rest);
  }

  lemma IssuingAlong(s: State, es: seq<Event>, s': State, t: nat, rest: Stack)
    requires IssuingAt(s, t, 0, rest) && Chains.Chain(Moves, s, es, s') && |es| <= 5
    ensures forall i :: 0 <= i < |es| ==> es[i].Advance?
    ensures IssuingAt(s', t, |es|, rest)
  {
    var P := (s1: State, n: nat) => IssuingAt(s1, t, n, rest);
    forall s1, e, s2, n: nat | Moves(s1, e, s2) && n < 5 && P(s1, n)
      ensures e.Advance? && P(s2, n + 1)
    {
      IssueStep(s1, e, t, n, rest);
    }
    Chains.Along(Moves, P, (e: Event) => e.Advance?, s, es, s', 0, 5);
  }

  // ---------- No circle of waiting tasks ----------

  /** t cannot go on before u does something. */
  ghost predicate WaitsFor(s: State, t: nat, u: nat) {
    && Alive(s, t)
    && match s.tasks[t].wait
       case OnNothing => false
       case OnLock(l) => l in s.owners && s.owners[l] == u
       case OnTask(v) => u == v && Alive(s, u)
  }

  /** How high a task's wait ranks; joins rank above all locks. */
  function Height(s: State, t: nat): nat
    requires t < |s.tasks|
  {
    match s.tasks[t].wait
    case OnNothing => 0
    case OnLock(l) => 1 + Rank(l)
    case OnTask(_) => 1 + TOP
  }

  lemma WaitsDescend(s: State, t: nat, u: nat)
    requires Inv(s) && WaitsFor(s, t, u)
    ensures Alive(s, u) && Height(s, u) < Height(s, t)
  {
    var k := s.tasks[u].stack;
    if s.tasks[t].wait.OnTask? {
      assert Awaits(s.tasks[t].stack, u);
      assert JoinsChildren(s.tasks, s.tasks[t].stack);
      if s.tasks[u].wait.OnTask? {
        LoneNeverJoins(k, s.tasks[u].wait.child);
      } else if s.tasks[u].wait.OnLock? {
        assert Rank(s.tasks[u].wait.lock) < TOP;
      }
    } else {
      var l := s.tasks[t].wait.lock;
      assert Holds(k, l) && s.tasks[u].wait.OnLock? ==> Holds(k.rest, l);
      CeilingIsLowest(k, l);
      if s.tasks[u].wait.OnLock? {
        CeilingIsLowest(k.rest, l);
      } else if s.tasks[u].wait.OnTask? {
        CeilingIsLowest(k.rest, l);
        assert false;
      }
    }
  }

  ghost predicate Chain(s: State, path: seq<nat>) {
    forall i :: 0 <= i < |path| - 1 ==> WaitsFor(s, path[i], path[i + 1])
  }

  lemma {:induction false} ChainsDescend(s: State, path: seq<nat>)
    requires Inv(s) && Chain(s, path) && |path| >= 2
    ensures path[0] < |s.tasks| && path[|path| - 1] < |s.tasks|
    ensures Height(s, path[|path| - 1]) < Height(s, path[0])
  {
    WaitsDescend(s, path[0], path[1]);
    if |path| > 2 {
      var rest := path[1..];
      forall i | 0 <= i < |rest| - 1
        ensures WaitsFor(s, rest[i], rest[i + 1])
      {
        assert WaitsFor(s, path[i + 1], path[i + 1 + 1]);
      }
      ChainsDescend(s, rest);
    }
  }

  /** No reachable state has a circle of tasks each waiting for the next. */
  lemma NoWaitCycle(es: seq<Event>, path: seq<nat>)
    requires IsRun(START, es) && |path| >= 2 && Chain(After(START, es), path)
    ensures path[0] != path[|path| - 1]
  {
    StartHolds();
    RunKeeps(START, es);
    ChainsDescend(After(START, es), path);
  }

  // ---------- Everything can finish ----------

  /** Whoever t waits for, directly or not, or t itself, can go on. */
  lemma {:induction false} SomeoneRunnable(s: State, t: nat) returns (u: nat)
    requires Inv(s) && s.running.None? && Alive(s, t)
    ensures Runnable(s, u)
    decreases Height(s, t)
  {
    match s.tasks[t].wait
    case OnNothing => u := t;
    case OnTask(v) =>
      assert Awaits(s.tasks[t].stack, v);
      assert JoinsChildren(s.tasks, s.tasks[t].stack);
      if Alive(s, v) {
        WaitsDescend(s, t, v);
        u := SomeoneRunnable(s, v);
      } else {
        u := t;
      }
    case OnLock(l) =>
      if l in s.owners {
        WaitsDescend(s, t, s.owners[l]);
        u := SomeoneRunnable(s, s.owners[l]);
      } else {
        assert QueuesRight(s.tasks, s.queues, t, l);
        u := Queue(s.queues, l)[0];
        QueuersWait(s, u, l);
      }
  }

  /** Instructions left if every loop is left at once. */
  function Size(c: Code): nat {
    match c
    case Seq(a, b) => 1 + Size(a) + Size(b)
    case Choice(a, b) => 1 + Size(a) + Size(b)
    case Loop(b) => 1 + Size(b)
    case With(_, b) => 2 + Size(b)
    case Except(b, h, _, _) => 3 + Size(b) + Size(h)
    case Finally(b, f) => 3 + Size(b) + Size(f)
    case Fork(k, b) => 3 + Size(k) + Size(b)
    case _ => 1
  }

  function FrameSize(f: Frame): nat {
    match f
    case Do(c) => Size(c)
    case Handler(h, _, _) => 2 + Size(h)
    case Cleanup(c) => 2 + Size(c)
    case _ => 1
  }

  function StackSize(k: Stack): nat {
    if k.Empty? then 0 else FrameSize(k.top) + StackSize(k.rest)
  }

  function TaskSize(k: Task): nat {
    2 * StackSize(k.stack) + if k.wait.OnNothing? then 1 else 0
  }

  function Total(tasks: seq<Task>): nat {
    if tasks == [] then 0 else TaskSize(tasks[|tasks| - 1]) + Total(tasks[..|tasks| - 1])
  }

  lemma {:induction false} TotalReplaced(tasks: seq<Task>, t: nat, k: Task)
    requires t < |tasks|
    ensures Total(tasks[t := k]) == Total(tasks) - TaskSize(tasks[t]) + TaskSize(k)
  {
    var n := |tasks| - 1;
    if t == n {
      assert tasks[t := k][..n] == tasks[..n];
    } else {
      assert tasks[t := k][..n] == tasks[..n][t := k];
      TotalReplaced(tasks[..n], t, k);
    }
  }

  /** About to decide whether to go round a loop once more. */
  predicate AtLoop(k: Task) {
    k.mood.Normal? && k.stack.Push? && k.stack.top.Do? && k.stack.top.code.Loop?
  }

  lemma LocalShrinks(k: Task, choice: bool)
    requires IsLocal(k) && !(choice && AtLoop(k))
    ensures StackSize(Local(k, choice).stack) < StackSize(k.stack) && Local(k, choice).wait == k.wait
  {}

  lemma TakenShrinks(s: State, t: nat)
    requires Alive(s, t) && s.tasks[t].stack.top.Do? && s.tasks[t].stack.top.code.With?
    ensures Total(Taken(s, t).tasks) < Total(s.tasks)
  {
    var k' := Taken(s, t).tasks[t];
    assert StackSize(k'.stack) < StackSize(s.tasks[t].stack);
    TotalReplaced(s.tasks, t, k');
  }

  lemma ForkedShrinks(s: State, t: nat)
    requires Alive(s, t) && s.tasks[t].stack.top.Do? && s.tasks[t].stack.top.code.Fork?
    ensures Total(Forked(s, t).tasks) < Total(s.tasks)
  {
    var tasks := Forked(s, t).tasks;
    var n := |s.tasks|;
    var k, k', born := s.tasks[t], tasks[t], tasks[n];
    assert tasks[..n] == s.tasks[t := k'];
    TotalReplaced(s.tasks, t, k');
    assert StackSize(Push(Do(k.stack.top.code.child), Empty)) == Size(k.stack.top.code.child);
    assert StackSize(k'.stack) == Size(k.stack.top.code.body) + 1 + StackSize(k.stack.rest);
  }

  lemma AdvancingShrinks(s: State, choice: bool)
    requires Inv(s) && s.running.Some? && Alive(s, s.running.value) && !(choice && AtLoop(s.tasks[s.running.value]))
    ensures Total(Next(s, Advance(choice)).tasks) < Total(s.tasks)
  {
    var t := s.running.value;
    var k, s' := s.tasks[t], Advanced(s, t, choice);
    if IsLocal(k) {
      LocalShrinks(k, choice);
      TotalReplaced(s.tasks, t, Local(k, choice));
    } else if k.stack.top.Do? && k.stack.top.code.Fork? {
      ForkedShrinks(s, t);
    } else if k.stack.top.Do? && k.stack.top.code.With? && s'.running.Some? {
      TakenShrinks(s, t);
    } else {
      TotalReplaced(s.tasks, t, s'.tasks[t]);
      assert s'.tasks == s.tasks[t := s'.tasks[t]];
    }
  }

  lemma ResumingShrinks(s: State, t: nat, how: Mood)
    requires Inv(s) && Enabled(s, Resume(t, how))
    ensures var s' := Next(s, Resume(t, how));
      Total(s'.tasks) < Total(s.tasks) || (Total(s'.tasks) == Total(s.tasks) && Alive(s', t) && s'.running == Some(t))
  {
    if how == Raising(true) {
      InterruptedShrinks(s, t);
    } else if s.tasks[t].wait.OnLock? {
      TakenShrinks(s, t);
    } else {
      TotalReplaced(s.tasks, t, Resumed(s, t, how).tasks[t]);
    }
  }

  lemma InterruptedShrinks(s: State, t: nat)
    requires Alive(s, t)
    ensures var s' := Interrupted(s, t);
      Total(s'.tasks) < Total(s.tasks) || (Total(s'.tasks) == Total(s.tasks) && Alive(s', t) && s'.running == Some(t))
  {
    TotalReplaced(s.tasks, t, Interrupted(s, t).tasks[t]);
  }

  ghost predicate AllFinished(s: State) {
    forall t: nat :: !Alive(s, t)
  }

  /** Starts nothing, cancels nothing, fails nothing. */
  ghost predicate Undisturbed(es: seq<Event>) {
    forall i :: 0 <= i < |es| ==> !es[i].Start? && (es[i].Resume? ==> es[i].how.Normal?)
  }

  /** Is a running task done, is none running, or has one instructions left? */
  function Phase(s: State): nat {
    if s.running.None? then 1 else if Alive(s, s.running.value) then 0 else 2
  }

  /** How many more steps there can be without new tasks and further rounds of loops. */
  function Budget(s: State): nat {
    3 * Total(s.tasks) + Phase(s)
  }

  /** Starts nothing and goes round no loop again; it may fail or cancel whatever it likes. */
  predicate Settling(s: State, e: Event)
    requires Enabled(s, e)
  {
    !e.Start? && (e.Advance? && e.choice ==> !AtLoop(s.tasks[s.running.value]))
  }

  ghost predicate SettlingRun(s: State, es: seq<Event>)
    requires IsRun(s, es)
    decreases |es|
  {
    es != [] ==> Settling(s, es[0]) && SettlingRun(Next(s, es[0]), es[1..])
  }

  lemma SettlingShrinks(s: State, e: Event)
    requires Inv(s) && Enabled(s, e) && Settling(s, e)
    ensures Budget(Next(s, e)) < Budget(s)
  {
    if e.Resume? {
      ResumingShrinks(s, e.task, e.how);
    } else if Alive(s, s.running.value) {
      AdvancingShrinks(s, e.choice);
    }
  }

  /** However tasks are scheduled, failed and cancelled, they run out of steps: no schedule goes on for ever. */
  lemma {:induction false} SchedulesEnd(s: State, es: seq<Event>)
    requires Inv(s) && IsRun(s, es) && SettlingRun(s, es)
    ensures |es| + Budget(After(s, es)) <= Budget(s)
    decreases |es|
  {
    if es != [] {
      SettlingShrinks(s, es[0]);
      InvPreserved(s, es[0]);
      SchedulesEnd(Next(s, es[0]), es[1..]);
    }
  }

  /** A step that disturbs nothing, unless all tasks have come to their end. */
  lemma NextStep(s: State) returns (e: Event)
    requires Inv(s) && !(AllFinished(s) && s.running.None?)
    ensures Enabled(s, e) && Settling(s, e) && Undisturbed([e])
  {
    if s.running.Some? {
      e := Advance(false);
    } else {
      var t: nat :| Alive(s, t);
      var u := SomeoneRunnable(s, t);
      e := Resume(u, Normal);
    }
  }

  /** From every reachable state, every schedule comes to an end within its budget, and one that can only go on
      with new tasks, more rounds of loops, failures or cancellations has finished every task. */
  lemma EveryScheduleFinishes(es: seq<Event>, more: seq<Event>)
    requires IsRun(START, es) && IsRun(After(START, es), more) && SettlingRun(After(START, es), more)
    ensures var s := After(START, es);
      && |more| <= Budget(s)
      && ((forall e :: Enabled(After(s, more), e) && Settling(After(s, more), e) ==> !Undisturbed([e])) ==>
            AllFinished(After(s, more)))
  {
    StartHolds();
    RunKeeps(START, es);
    var s := After(START, es);
    SchedulesEnd(s, more);
    RunKeeps(s, more);
    if !AllFinished(After(s, more)) {
      var e := NextStep(After(s, more));
    }
  }

  /** From a state that satisfies the invariant, every task can be brought to its end without a cancellation. */
  lemma {:induction false} CanFinish(s: State) returns (es: seq<Event>)
    requires Inv(s)
    ensures IsRun(s, es) && Undisturbed(es) && AllFinished(After(s, es))
    decreases Budget(s)
  {
    if AllFinished(s) {
      return [];
    }
    var e := NextStep(s);
    SettlingShrinks(s, e);
    InvPreserved(s, e);
    var rest := CanFinish(Next(s, e));
    es := [e] + rest;
    assert es[1..] == rest;
    assert [e][0] == e;
  }

  /** No reachable state leaves any task stuck: all of them can still finish. */
  lemma NothingGetsStuck(es: seq<Event>)
    requires IsRun(START, es)
    ensures var s := After(START, es);
      exists more :: IsRun(s, more) && Undisturbed(more) && AllFinished(After(s, more))
  {
    StartHolds();
    RunKeeps(START, es);
    var more := CanFinish(After(START, es));
  }

  // ---------- Locks are exclusive and served in turn ----------

  /** No two tasks hold a lock. */
  lemma MutualExclusion(es: seq<Event>, t: nat, u: nat, l: Lock)
    requires IsRun(START, es)
    requires var s := After(START, es);
      t < |s.tasks| && u < |s.tasks| && Holds(s.tasks[t].stack, l) && Holds(s.tasks[u].stack, l)
    ensures t == u
  {
    StartHolds();
    RunKeeps(START, es);
    OneOwner(After(START, es), t, u, l);
  }

  lemma OneOwner(s: State, t: nat, u: nat, l: Lock)
    requires Inv(s) && t < |s.tasks| && u < |s.tasks| && Holds(s.tasks[t].stack, l) && Holds(s.tasks[u].stack, l)
    ensures t == u
  {
    assert s.owners[l] == t;
  }

  /** Where a task first stands in a queue; past the end if it does not. */
  function Place(q: seq<nat>, t: nat): nat {
    if q == [] || q[0] == t then 0 else 1 + Place(q[1..], t)
  }

  lemma PlaceFound(q: seq<nat>, t: nat)
    ensures Place(q, t) <= |q| && (t in q <==> Place(q, t) < |q|)
  {}

  lemma {:induction false} PlaceAppended(q: seq<nat>, t: nat, x: nat)
    ensures t in q ==> Place(q + [x], t) == Place(q, t)
    ensures t !in q ==> Place(q + [x], t) >= |q|
  {
    if q != [] {
      PlaceAppended(q[1..], t, x);
      assert (q + [x])[1..] == q[1..] + [x];
    }
  }

  lemma {:induction false} PlaceWithout(q: seq<nat>, x: nat, t: nat, u: nat)
    requires t != x && u != x && Place(q, t) < Place(q, u)
    ensures Place(Without(q, x), t) < Place(Without(q, x), u)
  {
    if q != [] && q[0] != t {
      PlaceWithout(q[1..], x, t, u);
      assert q[0] != x ==> Without(q, x)[1..] == Without(q[1..], x);
    } else if q != [] {
      assert Without(q, x)[0] == t && t != u;
    }
  }

  /** First come, first served: of two waiting tasks the later one is not given the lock in any step, and as long as
      both wait they keep their order. */
  lemma FirstComeFirstServed(s: State, e: Event, l: Lock, t: nat, u: nat)
    requires Inv(s) && Enabled(s, e) && t in Queue(s.queues, l) && u in Queue(s.queues, l)
    requires Place(Queue(s.queues, l), t) < Place(Queue(s.queues, l), u)
    ensures var s' := Next(s, e);
      && (l in s'.owners && s'.owners[l] == u ==> l in s.owners && s.owners[l] == u)
      && (t in Queue(s'.queues, l) && u in Queue(s'.queues, l) ==>
            Place(Queue(s'.queues, l), t) < Place(Queue(s'.queues, l), u))
  {
    QueuersWait(s, t, l);
    QueuersWait(s, u, l);
    if e.Resume? {
      ResumedInTurn(s, e.task, e.how, l, t, u);
    } else if e.Advance? {
      AdvancedInTurn(s, s.running.value, e.choice, l, t, u);
    }
  }

  lemma ResumedInTurn(s: State, x: nat, how: Mood, l: Lock, t: nat, u: nat)
    requires Inv(s) && Enabled(s, Resume(x, how)) && t in Queue(s.queues, l) && u in Queue(s.queues, l)
    requires Place(Queue(s.queues, l), t) < Place(Queue(s.queues, l), u)
    requires t < |s.tasks| && u < |s.tasks| && s.tasks[t].wait == OnLock(l) == s.tasks[u].wait
    ensures var s' := Next(s, Resume(x, how));
      && (l in s'.owners && s'.owners[l] == u ==> l in s.owners && s.owners[l] == u)
      && (t in Queue(s'.queues, l) && u in Queue(s'.queues, l) ==>
            Place(Queue(s'.queues, l), t) < Place(Queue(s'.queues, l), u))
  {
    if s.tasks[x].wait == OnLock(l) {
      if x != t && x != u {
        PlaceWithout(Queue(s.queues, l), x, t, u);
      }
    } else {
      ResumedElsewhere(s, x, how, l);
    }
  }

  /** Resuming a task that did not wait for a lock leaves its owner and its queue alone. */
  lemma ResumedElsewhere(s: State, x: nat, how: Mood, l: Lock)
    requires Inv(s) && Enabled(s, Resume(x, how)) && s.tasks[x].wait != OnLock(l)
    ensures var s' := Next(s, Resume(x, how));
      Queue(s'.queues, l) == Queue(s.queues, l) && (l in s'.owners ==> l in s.owners && s'.owners[l] == s.owners[l])
  {}

  lemma AdvancedInTurn(s: State, x: nat, choice: bool, l: Lock, t: nat, u: nat)
    requires Inv(s) && s.running == Some(x) && t in Queue(s.queues, l) && u in Queue(s.queues, l)
    requires Place(Queue(s.queues, l), t) < Place(Queue(s.queues, l), u)
    requires t < |s.tasks| && u < |s.tasks| && s.tasks[t].wait == OnLock(l) == s.tasks[u].wait
    ensures var s' := Next(s, Advance(choice));
      && (l in s'.owners && s'.owners[l] == u ==> l in s.owners && s.owners[l] == u)
      && (t in Queue(s'.queues, l) && u in Queue(s'.queues, l) ==>
            Place(Queue(s'.queues, l), t) < Place(Queue(s'.queues, l), u))
  {
    QueueOnlyGrows(s, x, choice, l);
    PlaceAppended(Queue(s.queues, l), t, x);
    PlaceAppended(Queue(s.queues, l), u, x);
  }

  /** The running task joins at most the end of a queue in which others wait, and takes no lock that they wait for. */
  lemma QueueOnlyGrows(s: State, x: nat, choice: bool, l: Lock)
    requires Inv(s) && s.running == Some(x) && Queue(s.queues, l) != []
    ensures var s', q := Next(s, Advance(choice)), Queue(s.queues, l);
      && (Queue(s'.queues, l) == q || Queue(s'.queues, l) == q + [x])
      && (l in s'.owners ==> l in s.owners && s'.owners[l] == s.owners[l])
  {
    var k := s.tasks[x];
    if k.stack.Push? && k.mood.Normal? && k.stack.top.Do? && k.stack.top.code.With? {
      AcquireOnlyGrows(s, x, l);
    } else {
      assert Next(s, Advance(choice)).queues == s.queues;
    }
  }

  lemma AcquireOnlyGrows(s: State, x: nat, l: Lock)
    requires Alive(s, x) && s.tasks[x].stack.top.Do? && s.tasks[x].stack.top.code.With? && Queue(s.queues, l) != []
    ensures var s', q := Acquire(s, x), Queue(s.queues, l);
      && (Queue(s'.queues, l) == q || Queue(s'.queues, l) == q + [x])
      && (l in s'.owners ==> l in s.owners && s'.owners[l] == s.owners[l])
  {}
}
