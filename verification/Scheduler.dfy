/** Cooperative tasks running the hub's programs over first-come first-served locks: no run gets stuck, nothing
    waits in a circle, and no store lock is ever held, or waited for, where a task can be switched. */
module Scheduler {
  import opened Domain
  import opened Programs

  datatype Frame =
    | Do(code: Code)
    | Unlock(lock: Lock)
    | Handler(handler: Code, cancelled: bool, again: bool)
    | Cleanup(cleanup: Code)
    | Rethrow(cancelled: bool)
    | Join(child: nat)

  datatype Stack = Empty | Push(top: Frame, rest: Stack)

  datatype Mood = Normal | Raising(cancelled: bool)

  datatype Wait = OnNothing | OnLock(lock: Lock) | OnTask(child: nat)

  datatype Task = Task(stack: Stack, mood: Mood, wait: Wait, child: bool)

  /** The tasks so far, who holds each lock, who queues for it, and which task has the processor. */
  datatype State = State(tasks: seq<Task>, owners: map<Lock, nat>, queues: map<Lock, seq<nat>>, running: Option<nat>)

  datatype Event =
    | Start(op: Operation)
    | Resume(task: nat, how: Mood)    // normally, with an error of what it waited for, or cancelled
    | Advance(choice: bool)           // one instruction of the running task

  function Queue(queues: map<Lock, seq<nat>>, l: Lock): seq<nat> {
    if l in queues then queues[l] else []
  }

  function Without(q: seq<nat>, t: nat): (r: seq<nat>)
    ensures forall u :: u in r <==> u in q && u != t
  {
    if q == [] then [] else if q[0] == t then Without(q[1..], t) else [q[0]] + Without(q[1..], t)
  }

  // ---------- Steps ----------

  /** Instructions that neither touch a lock nor another task nor wait. */
  predicate IsLocal(k: Task) {
    && k.stack.Push?
    && !k.stack.top.Unlock? && !k.stack.top.Join?
    && (k.mood.Normal? && k.stack.top.Do? ==>
          !k.stack.top.code.Await? && !k.stack.top.code.With? && !k.stack.top.code.Fork?)
  }

  function Local(k: Task, choice: bool): Task
    requires IsLocal(k)
  {
    if k.mood.Normal? then Calm(k, choice) else Unwind(k)
  }

  function Calm(k: Task, choice: bool): Task
    requires IsLocal(k) && k.mood.Normal?
  {
    var rest := k.stack.rest;
    match k.stack.top
    case Do(Raise) => k.(stack := rest, mood := Raising(false))
    case Do(Seq(a, b)) => k.(stack := Push(Do(a), Push(Do(b), rest)))
    case Do(Choice(a, b)) => k.(stack := Push(Do(if choice then a else b), rest))
    case Do(Loop(c)) => k.(stack := if choice then Push(Do(c), k.stack) else rest)
    case Do(Except(c, h, cancelled, again)) => k.(stack := Push(Do(c), Push(Handler(h, cancelled, again), rest)))
    case Do(Finally(c, f)) => k.(stack := Push(Do(c), Push(Cleanup(f), rest)))
    case Cleanup(f) => k.(stack := Push(Do(f), rest))
    case Rethrow(e) => k.(stack := rest, mood := Raising(e))
    case _ => k.(stack := rest)
  }

  function Unwind(k: Task): Task
    requires IsLocal(k) && k.mood.Raising?
  {
    var rest := k.stack.rest;
    match k.stack.top
    case Handler(h, cancelled, again) =>
      if cancelled || !k.mood.cancelled then
        k.(stack := Push(Do(h), if again then Push(Rethrow(k.mood.cancelled), rest) else rest), mood := Normal)
      else
        k.(stack := rest)
    case Cleanup(f) => k.(stack := Push(Do(f), Push(Rethrow(k.mood.cancelled), rest)), mood := Normal)
    case _ => k.(stack := rest)
  }

  function Taken(s: State, t: nat): State
    requires t < |s.tasks| && s.tasks[t].stack.Push? && s.tasks[t].stack.top.Do? && s.tasks[t].stack.top.code.With?
  {
    var k := s.tasks[t];
    var l, c := k.stack.top.code.lock, k.stack.top.code.body;
    State(s.tasks[t := k.(stack := Push(Do(c), Push(Unlock(l), k.stack.rest)), wait := OnNothing)],
          s.owners[l := t], s.queues[l := Without(Queue(s.queues, l), t)], Some(t))
  }

  /** async with: at once if the lock is free and nobody queues for it. */
  function Acquire(s: State, t: nat): State
    requires t < |s.tasks| && s.tasks[t].stack.Push? && s.tasks[t].stack.top.Do? && s.tasks[t].stack.top.code.With?
  {
    var k := s.tasks[t];
    var l := k.stack.top.code.lock;
    if l !in s.owners && Queue(s.queues, l) == [] then Taken(s, t)
    else State(s.tasks[t := k.(wait := OnLock(l))], s.owners, s.queues[l := Queue(s.queues, l) + [t]], None)
  }

  function Forked(s: State, t: nat): State
    requires t < |s.tasks| && s.tasks[t].stack.Push? && s.tasks[t].stack.top.Do? && s.tasks[t].stack.top.code.Fork?
  {
    var k := s.tasks[t];
    var c := k.stack.top.code;
    s.(tasks := s.tasks[t := k.(stack := Push(Do(c.body), Push(Join(|s.tasks|), k.stack.rest)))]
                + [Task(Push(Do(c.child), Empty), Normal, OnNothing, true)])
  }

  /** The running task's next instruction; a task whose stack is empty gives the processor up for good. */
  function Advanced(s: State, t: nat, choice: bool): State
    requires t < |s.tasks|
  {
    var k := s.tasks[t];
    match k.stack
    case Empty => s.(running := None)
    case Push(top, rest) =>
      if IsLocal(k) then s.(tasks := s.tasks[t := Local(k, choice)])
      else if top.Unlock? then s.(tasks := s.tasks[t := k.(stack := rest)], owners := s.owners - {top.lock})
      else if top.Join? then s.(tasks := s.tasks[t := k.(wait := OnTask(top.child))], running := None)
      else if top.code.Await? then s.(tasks := s.tasks[t := k.(stack := rest)], running := None)
      else if top.code.With? then Acquire(s, t)
      else Forked(s, t)
  }

  predicate Alive(s: State, t: nat) {
    t < |s.tasks| && s.tasks[t].stack.Push?
  }

  /** What t waits for has happened: sockets and timers always answer. */
  predicate Runnable(s: State, t: nat) {
    && Alive(s, t)
    && match s.tasks[t].wait
       case OnNothing => true
       case OnLock(l) =>
         && l !in s.owners && Queue(s.queues, l) != [] && Queue(s.queues, l)[0] == t
         && s.tasks[t].stack.top.Do? && s.tasks[t].stack.top.code.With? && s.tasks[t].stack.top.code.lock == l
       case OnTask(u) => u < |s.tasks| && s.tasks[u].stack.Empty?
  }

  /** A cancelled waiter leaves the queue; a cancelled join leaves its child behind. */
  function Interrupted(s: State, t: nat): State
    requires Alive(s, t)
  {
    var k := s.tasks[t];
    match k.wait
    case OnNothing => State(s.tasks[t := k.(mood := Raising(true))], s.owners, s.queues, Some(t))
    case OnLock(l) =>
      State(s.tasks[t := k.(stack := k.stack.rest, mood := Raising(true), wait := OnNothing)], s.owners,
            s.queues[l := Without(Queue(s.queues, l), t)], Some(t))
    case OnTask(_) =>
      State(s.tasks[t := k.(stack := k.stack.rest, mood := Raising(true), wait := OnNothing)],
            s.owners, s.queues, Some(t))
  }

  function Resumed(s: State, t: nat, how: Mood): State
    requires Runnable(s, t)
  {
    var k := s.tasks[t];
    match k.wait
    case OnNothing => State(s.tasks[t := k.(mood := how)], s.owners, s.queues, Some(t))
    case OnLock(_) => Taken(s, t)
    case OnTask(_) => State(s.tasks[t := k.(stack := k.stack.rest, wait := OnNothing)], s.owners, s.queues, Some(t))
  }

  predicate Enabled(s: State, e: Event) {
    match e
    case Start(_) => s.running.None?
    case Resume(t, how) => s.running.None? && Alive(s, t) && (how == Raising(true) || Runnable(s, t))
    case Advance(_) => s.running.Some? && s.running.value < |s.tasks|
  }

  function Next(s: State, e: Event): State
    requires Enabled(s, e)
  {
    match e
    case Start(op) => s.(tasks := s.tasks + [Task(Push(Do(Program(op)), Empty), Normal, OnNothing, false)])
    case Resume(t, how) => if how == Raising(true) then Interrupted(s, t) else Resumed(s, t, how)
    case Advance(choice) => Advanced(s, s.running.value, choice)
  }

  // ---------- What every step keeps ----------

  predicate Holds(k: Stack, l: Lock) {
    k.Push? && (k.top == Unlock(l) || Holds(k.rest, l))
  }

  predicate Awaits(k: Stack, u: nat) {
    k.Push? && (k.top == Join(u) || Awaits(k.rest, u))
  }

  /** The rank of the lock taken last. */
  function Ceiling(k: Stack): nat {
    match k
    case Empty => TOP
    case Push(Unlock(l), _) => Rank(l)
    case Push(_, rest) => Ceiling(rest)
  }

  predicate Fits(f: Frame, below: nat) {
    match f
    case Do(c) => Ordered(c, below)
    case Unlock(l) => Rank(l) < below
    case Handler(h, _, _) => Ordered(h, below)
    case Cleanup(c) => Ordered(c, below)
    case Rethrow(_) => true
    case Join(_) => below == TOP
  }

  /** Every frame keeps to the order under the locks beneath it. */
  predicate Tidy(k: Stack) {
    k.Push? ==> Fits(k.top, Ceiling(k.rest)) && Tidy(k.rest)
  }

  predicate LoneFrame(f: Frame) {
    match f
    case Do(c) => Lone(c)
    case Handler(h, _, _) => Lone(h)
    case Cleanup(c) => Lone(c)
    case Join(_) => false
    case _ => true
  }

  predicate LoneStack(k: Stack) {
    k.Push? ==> LoneFrame(k.top) && LoneStack(k.rest)
  }

  lemma CeilingIsLowest(k: Stack, l: Lock)
    requires Tidy(k) && Holds(k, l)
    ensures Ceiling(k) <= Rank(l) < TOP
  {}

  lemma LoneNeverJoins(k: Stack, u: nat)
    requires LoneStack(k)
    ensures !Awaits(k, u)
  {}

  /** What a task waits for is what its next instruction says. */
  predicate Waiting(k: Task) {
    match k.wait
    case OnNothing => true
    case OnLock(l) =>
      && k.mood.Normal? && k.stack.Push?
      && k.stack.top.Do? && k.stack.top.code.With? && k.stack.top.code.lock == l
    case OnTask(u) => k.stack.Push? && k.stack.top == Join(u)
  }

  predicate Neat(k: Task) {
    Tidy(k.stack) && Waiting(k) && (k.child ==> LoneStack(k.stack))
  }

  /** Only tasks that join nothing themselves are joined. */
  ghost predicate JoinsChildren(tasks: seq<Task>, k: Stack) {
    forall u: nat :: Awaits(k, u) ==> u < |tasks| && tasks[u].child
  }

  ghost predicate Tasks(tasks: seq<Task>) {
    forall t: nat :: t < |tasks| ==> Neat(tasks[t]) && JoinsChildren(tasks, tasks[t].stack)
  }

  ghost predicate Owned(tasks: seq<Task>, owners: map<Lock, nat>) {
    && (forall l <- owners :: owners[l] < |tasks| && Holds(tasks[owners[l]].stack, l))
    && (forall t: nat, l :: t < |tasks| && Holds(tasks[t].stack, l) ==> l in owners && owners[l] == t)
  }

  predicate QueuesRight(tasks: seq<Task>, queues: map<Lock, seq<nat>>, t: nat, l: Lock) {
    t in Queue(queues, l) <==> t < |tasks| && tasks[t].wait == OnLock(l)
  }

  ghost predicate Queued(tasks: seq<Task>, queues: map<Lock, seq<nat>>) {
    forall t: nat, l :: QueuesRight(tasks, queues, t, l)
  }

  /** Only the running task may hold a store lock, and it waits for nothing. */
  ghost predicate Switchable(tasks: seq<Task>, running: Option<nat>) {
    && (running.Some? ==> running.value < |tasks| && tasks[running.value].wait.OnNothing?)
    && (forall t: nat, l :: t < |tasks| && running != Some(t) && Holds(tasks[t].stack, l) ==> Rank(l) > 0)
    && (forall t: nat :: t < |tasks| && tasks[t].wait.OnLock? ==> Rank(tasks[t].wait.lock) > 0)
  }

  ghost predicate Inv(s: State) {
    Tasks(s.tasks) && Owned(s.tasks, s.owners) && Queued(s.tasks, s.queues) && Switchable(s.tasks, s.running)
  }

  lemma LocalKeepsNeat(k: Task, choice: bool)
    requires Neat(k) && IsLocal(k) && k.wait.OnNothing?
    ensures var k' := Local(k, choice); Neat(k') && k'.wait == k.wait && k'.child == k.child
    ensures forall l :: Holds(Local(k, choice).stack, l) <==> Holds(k.stack, l)
    ensures forall u :: Awaits(Local(k, choice).stack, u) <==> Awaits(k.stack, u)
  {}

  lemma ReplacedTasks(tasks: seq<Task>, t: nat, k: Task)
    requires Tasks(tasks) && t < |tasks| && Neat(k) && k.child == tasks[t].child
    requires JoinsChildren(tasks, k.stack)
    ensures Tasks(tasks[t := k])
  {}

  lemma ReplacedOwned(tasks: seq<Task>, owners: map<Lock, nat>, t: nat, k: Task)
    requires Owned(tasks, owners) && t < |tasks|
    requires forall l :: Holds(k.stack, l) <==> Holds(tasks[t].stack, l)
    ensures Owned(tasks[t := k], owners)
  {}

  lemma ReleasedOwned(tasks: seq<Task>, owners: map<Lock, nat>, t: nat, k: Task, l: Lock)
    requires Owned(tasks, owners) && t < |tasks| && Holds(tasks[t].stack, l)
    requires forall m :: Holds(k.stack, m) <==> Holds(tasks[t].stack, m) && m != l
    ensures Owned(tasks[t := k], owners - {l})
  {
    var tasks', owners' := tasks[t := k], owners - {l};
    forall m | m in owners'
      ensures owners'[m] < |tasks'| && Holds(tasks'[owners'[m]].stack, m)
    {
      assert Holds(tasks[owners[m]].stack, m);
    }
    forall u: nat, m | u < |tasks'| && Holds(tasks'[u].stack, m)
      ensures m in owners' && owners'[m] == u
    {
      assert Holds(tasks[u].stack, m);
      assert owners[l] == t;
      assert u == t ==> Holds(k.stack, m);
    }
  }

  lemma GrantedOwned(tasks: seq<Task>, owners: map<Lock, nat>, t: nat, k: Task, l: Lock)
    requires Owned(tasks, owners) && t < |tasks| && l !in owners
    requires forall m :: Holds(k.stack, m) <==> Holds(tasks[t].stack, m) || m == l
    ensures Owned(tasks[t := k], owners[l := t])
  {}

  lemma ReplacedQueued(tasks: seq<Task>, queues: map<Lock, seq<nat>>, t: nat, k: Task)
    requires Queued(tasks, queues) && t < |tasks|
    requires !k.wait.OnLock? && !tasks[t].wait.OnLock?
    ensures Queued(tasks[t := k], queues)
  {
    var tasks' := tasks[t := k];
    forall u: nat, l
      ensures QueuesRight(tasks', queues, u, l)
    {
      assert QueuesRight(tasks, queues, u, l);
    }
  }

  lemma JoinedQueued(tasks: seq<Task>, queues: map<Lock, seq<nat>>, t: nat, k: Task, l: Lock)
    requires Queued(tasks, queues) && t < |tasks| && k.wait == OnLock(l) && !tasks[t].wait.OnLock?
    ensures Queued(tasks[t := k], queues[l := Queue(queues, l) + [t]])
  {
    var tasks', queues' := tasks[t := k], queues[l := Queue(queues, l) + [t]];
    forall u: nat, m
      ensures QueuesRight(tasks', queues', u, m)
    {
      assert QueuesRight(tasks, queues, u, m);
    }
  }

  lemma LeftQueued(tasks: seq<Task>, queues: map<Lock, seq<nat>>, t: nat, k: Task, l: Lock)
    requires Queued(tasks, queues) && t < |tasks| && !k.wait.OnLock? && tasks[t].wait in {OnNothing, OnLock(l)}
    ensures Queued(tasks[t := k], queues[l := Without(Queue(queues, l), t)])
  {
    var tasks', queues' := tasks[t := k], queues[l := Without(Queue(queues, l), t)];
    forall u: nat, m
      ensures QueuesRight(tasks', queues', u, m)
    {
      assert QueuesRight(tasks, queues, u, m);
    }
  }

  lemma ReplacedSwitchable(tasks: seq<Task>, running: Option<nat>, t: nat, k: Task, next: Option<nat>)
    requires Switchable(tasks, running) && running in {None, Some(t)} && t < |tasks|
    requires (next == Some(t) && k.wait.OnNothing?) || (next == None && forall l :: Holds(k.stack, l) ==> Rank(l) > 0)
    requires k.wait.OnLock? ==> Rank(k.wait.lock) > 0
    ensures Switchable(tasks[t := k], next)
  {}

  lemma PopKeepsNeat(k: Task, mood: Mood)
    requires Neat(k) && k.stack.Push?
    ensures Neat(k.(stack := k.stack.rest, mood := mood, wait := OnNothing))
  {}

  lemma LocalKeeps(s: State, t: nat, choice: bool)
    requires Inv(s) && s.running == Some(t) && IsLocal(s.tasks[t])
    ensures Inv(Advanced(s, t, choice))
  {
    var k := Local(s.tasks[t], choice);
    LocalKeepsNeat(s.tasks[t], choice);
    assert JoinsChildren(s.tasks, s.tasks[t].stack);
    ReplacedTasks(s.tasks, t, k);
    ReplacedOwned(s.tasks, s.owners, t, k);
    ReplacedQueued(s.tasks, s.queues, t, k);
    ReplacedSwitchable(s.tasks, s.running, t, k, s.running);
  }

  lemma UnlockKeeps(s: State, t: nat, l: Lock)
    requires Inv(s) && s.running == Some(t) && Alive(s, t) && s.tasks[t].stack.top == Unlock(l)
    ensures Inv(Advanced(s, t, false))
  {
    var rest := s.tasks[t].stack.rest;
    var k := s.tasks[t].(stack := rest);
    PopKeepsNeat(s.tasks[t], s.tasks[t].mood);
    assert JoinsChildren(s.tasks, s.tasks[t].stack);
    ReplacedTasks(s.tasks, t, k);
    ReplacedQueued(s.tasks, s.queues, t, k);
    ReplacedSwitchable(s.tasks, s.running, t, k, s.running);
    if Holds(rest, l) {
      CeilingIsLowest(rest, l);
    }
    assert Holds(s.tasks[t].stack, l);
    assert forall m :: Holds(s.tasks[t].stack, m) <==> m == l || Holds(rest, m);
    ReleasedOwned(s.tasks, s.owners, t, k, l);
  }

  /** Whatever it may hold, a task that waits holds no store lock. */
  lemma ParksLightly(k: Stack, l: Lock)
    requires Tidy(k) && k.Push? && Holds(k, l)
    requires k.top == Do(Await) || k.top.Join? || (k.top.Do? && k.top.code.With?)
    ensures Rank(l) > 0
  {
    CeilingIsLowest(k.rest, l);
  }

  lemma ParkKeeps(s: State, t: nat)
    requires Inv(s) && s.running == Some(t) && Alive(s, t) && !IsLocal(s.tasks[t])
    requires s.tasks[t].stack.top.Join? || s.tasks[t].stack.top == Do(Await)
    ensures Inv(Advanced(s, t, false))
  {
    var k := s.tasks[t];
    var k' := if k.stack.top.Join? then k.(wait := OnTask(k.stack.top.child)) else k.(stack := k.stack.rest);
    PopKeepsNeat(k, k.mood);
    assert JoinsChildren(s.tasks, k.stack);
    ReplacedTasks(s.tasks, t, k');
    ReplacedOwned(s.tasks, s.owners, t, k');
    ReplacedQueued(s.tasks, s.queues, t, k');
    forall l | Holds(k.stack, l)
      ensures Rank(l) > 0
    {
      ParksLightly(k.stack, l);
    }
    ReplacedSwitchable(s.tasks, s.running, t, k', None);
  }

  lemma EnqueueKeeps(s: State, t: nat)
    requires Inv(s) && s.running == Some(t) && Alive(s, t) && !IsLocal(s.tasks[t])
    requires s.tasks[t].stack.top.Do? && s.tasks[t].stack.top.code.With?
    requires Advanced(s, t, false).running.None?
    ensures Inv(Advanced(s, t, false))
  {
    var k := s.tasks[t];
    var l := k.stack.top.code.lock;
    var k' := k.(wait := OnLock(l));
    assert JoinsChildren(s.tasks, k.stack);
    ReplacedTasks(s.tasks, t, k');
    ReplacedOwned(s.tasks, s.owners, t, k');
    JoinedQueued(s.tasks, s.queues, t, k', l);
    forall m | Holds(k.stack, m)
      ensures Rank(m) > 0
    {
      ParksLightly(k.stack, m);
    }
    if Rank(l) == 0 {
      StoreLocksAreFree(s, t);
    }
    ReplacedSwitchable(s.tasks, s.running, t, k', None);
  }

  lemma QueuersWait(s: State, u: nat, l: Lock)
    requires Inv(s) && u in Queue(s.queues, l)
    ensures u < |s.tasks| && s.tasks[u].wait == OnLock(l)
  {
    assert QueuesRight(s.tasks, s.queues, u, l);
  }

  /** A running task finds any store lock it wants free, with nobody queueing: taking it never suspends. */
  lemma StoreLocksAreFree(s: State, t: nat)
    requires Inv(s) && s.running == Some(t) && Alive(s, t)
    requires s.tasks[t].stack.top.Do? && s.tasks[t].stack.top.code.With? && Rank(s.tasks[t].stack.top.code.lock) == 0
    ensures var l := s.tasks[t].stack.top.code.lock; l !in s.owners && Queue(s.queues, l) == []
  {
    var k, l := s.tasks[t].stack, s.tasks[t].stack.top.code.lock;
    if l in s.owners {
      assert s.owners[l] == t;
      CeilingIsLowest(k.rest, l);
    }
    if Queue(s.queues, l) != [] {
      QueuersWait(s, Queue(s.queues, l)[0], l);
      assert false;
    }
  }

  lemma TakenKeeps(s: State, t: nat)
    requires Tasks(s.tasks) && Owned(s.tasks, s.owners) && Queued(s.tasks, s.queues)
    requires Switchable(s.tasks, s.running) && (s.running.None? || s.running == Some(t))
    requires Alive(s, t) && s.tasks[t].mood.Normal? && s.tasks[t].stack.top.Do? && s.tasks[t].stack.top.code.With?
    requires s.tasks[t].wait in {OnNothing, OnLock(s.tasks[t].stack.top.code.lock)}
    requires s.tasks[t].stack.top.code.lock !in s.owners
    ensures Inv(Taken(s, t))
  {
    var k := s.tasks[t];
    var l, c := k.stack.top.code.lock, k.stack.top.code.body;
    var k' := k.(stack := Push(Do(c), Push(Unlock(l), k.stack.rest)), wait := OnNothing);
    assert JoinsChildren(s.tasks, k.stack);
    assert forall u: nat :: Awaits(k'.stack, u) ==> Awaits(k.stack, u);
    ReplacedTasks(s.tasks, t, k');
    ReplacedSwitchable(s.tasks, s.running, t, k', Some(t));
    LeftQueued(s.tasks, s.queues, t, k', l);
    assert forall m :: Holds(k'.stack, m) <==> Holds(k.stack, m) || m == l;
    GrantedOwned(s.tasks, s.owners, t, k', l);
  }

  lemma ForkKeeps(s: State, t: nat)
    requires Inv(s) && s.running == Some(t) && Alive(s, t) && s.tasks[t].mood.Normal?
    requires s.tasks[t].stack.top.Do? && s.tasks[t].stack.top.code.Fork?
    ensures Inv(Forked(s, t))
  {
    var k, c := s.tasks[t], s.tasks[t].stack.top.code;
    var born := Task(Push(Do(c.child), Empty), Normal, OnNothing, true);
    var k' := k.(stack := Push(Do(c.body), Push(Join(|s.tasks|), k.stack.rest)));
    BornKeeps(s, born);
    var tasks := s.tasks + [born];
    assert JoinsChildren(tasks, tasks[t].stack);
    assert forall u: nat :: Awaits(k'.stack, u) ==> u == |s.tasks| || Awaits(k.stack, u);
    assert forall m :: Holds(k'.stack, m) <==> Holds(k.stack, m);
    ReplacedTasks(tasks, t, k');
    ReplacedOwned(tasks, s.owners, t, k');
    ReplacedQueued(tasks, s.queues, t, k');
    ReplacedSwitchable(tasks, s.running, t, k', s.running);
    assert Forked(s, t).tasks == tasks[t := k'];
  }

  lemma BornKeeps(s: State, born: Task)
    requires Inv(s) && Neat(born) && born.wait.OnNothing?
    requires born.stack.Push? && born.stack.top.Do? && born.stack.rest.Empty?
    ensures Inv(s.(tasks := s.tasks + [born]))
  {
    var tasks := s.tasks + [born];
    assert forall l :: !Holds(born.stack, l);
    assert forall u: nat :: !Awaits(born.stack, u);
    forall u: nat | u < |tasks|
      ensures JoinsChildren(tasks, tasks[u].stack)
    {
      assert u < |s.tasks| ==> JoinsChildren(s.tasks, s.tasks[u].stack);
    }
    forall u: nat, l
      ensures QueuesRight(tasks, s.queues, u, l)
    {
      assert QueuesRight(s.tasks, s.queues, u, l);
    }
  }

  lemma InterruptedKeeps(s: State, t: nat)
    requires Inv(s) && s.running.None? && Alive(s, t)
    ensures Inv(Interrupted(s, t))
  {
    var k := s.tasks[t];
    var k' := Interrupted(s, t).tasks[t];
    PopKeepsNeat(k, Raising(true));
    assert JoinsChildren(s.tasks, k.stack);
    ReplacedTasks(s.tasks, t, k');
    ReplacedOwned(s.tasks, s.owners, t, k');
    if k.wait.OnLock? {
      LeftQueued(s.tasks, s.queues, t, k', k.wait.lock);
    } else {
      ReplacedQueued(s.tasks, s.queues, t, k');
    }
    ReplacedSwitchable(s.tasks, s.running, t, k', Some(t));
  }

  lemma ResumedKeeps(s: State, t: nat, how: Mood)
    requires Inv(s) && s.running.None? && Runnable(s, t)
    ensures Inv(Resumed(s, t, how))
  {
    var k := s.tasks[t];
    if k.wait.OnLock? {
      TakenKeeps(s, t);
    } else {
      var k' := Resumed(s, t, how).tasks[t];
      PopKeepsNeat(k, k.mood);
      assert JoinsChildren(s.tasks, k.stack);
      ReplacedTasks(s.tasks, t, k');
      ReplacedOwned(s.tasks, s.owners, t, k');
      ReplacedQueued(s.tasks, s.queues, t, k');
      ReplacedSwitchable(s.tasks, s.running, t, k', Some(t));
    }
  }

  lemma AdvancedKeeps(s: State, t: nat, choice: bool)
    requires Inv(s) && s.running == Some(t)
    ensures Inv(Advanced(s, t, choice))
  {
    var k := s.tasks[t];
    if k.stack.Push? {
      if IsLocal(k) {
        LocalKeeps(s, t, choice);
      } else if k.stack.top.Unlock? {
        UnlockKeeps(s, t, k.stack.top.lock);
      } else if k.stack.top.Join? || k.stack.top.code.Await? {
        ParkKeeps(s, t);
      } else if k.stack.top.code.Fork? {
        ForkKeeps(s, t);
      } else if Advanced(s, t, false).running.None? {
        EnqueueKeeps(s, t);
      } else {
        TakenKeeps(s, t);
      }
    }
  }

  lemma InvPreserved(s: State, e: Event)
    requires Inv(s) && Enabled(s, e)
    ensures Inv(Next(s, e))
  {
    match e
    case Start(op) =>
      ProgramsOrdered(op);
      BornKeeps(s, Task(Push(Do(Program(op)), Empty), Normal, OnNothing, false));
    case Resume(t, how) =>
      if how == Raising(true) {
        InterruptedKeeps(s, t);
      } else {
        ResumedKeeps(s, t, how);
      }
    case Advance(choice) => AdvancedKeeps(s, s.running.value, choice);
  }

  // ---------- Errors, handlers and waits ----------

  /** An error goes up the stack: plain code is left; a handler runs if it catches this kind, and raises again if it
      says so; a cleanup always runs, and the error goes on after it. */
  lemma UnwindExactly(k: Task, choice: bool)
    requires IsLocal(k) && k.mood.Raising?
    ensures var k', f, rest, e := Local(k, choice), k.stack.top, k.stack.rest, k.mood.cancelled;
      match f
      case Handler(h, cancelled, again) =>
        if e && !cancelled then k' == Task(rest, Raising(e), k.wait, k.child)
        else k' == Task(Push(Do(h), if again then Push(Rethrow(e), rest) else rest), Normal, k.wait, k.child)
      case Cleanup(c) => k' == Task(Push(Do(c), Push(Rethrow(e), rest)), Normal, k.wait, k.child)
      case _ => k' == Task(rest, Raising(e), k.wait, k.child)
  {}

  /** Code that ends well runs its cleanup, skips its handler, and goes on after an error that was put off. */
  lemma CalmExactly(k: Task, choice: bool)
    requires IsLocal(k) && k.mood.Normal?
    ensures var k', f, rest := Local(k, choice), k.stack.top, k.stack.rest;
      && (f.Handler? ==> k' == k.(stack := rest))
      && (f.Cleanup? ==> k' == k.(stack := Push(Do(f.cleanup), rest)))
      && (f.Rethrow? ==> k' == k.(stack := rest, mood := Raising(f.cancelled)))
      && (f == Do(Skip) ==> k' == k.(stack := rest))
      && (f == Do(Raise) ==> k' == k.(stack := rest, mood := Raising(false)))
      && (f.Do? && f.code.Seq? ==> k' == k.(stack := Push(Do(f.code.first), Push(Do(f.code.second), rest))))
      && (f.Do? && f.code.Choice? ==> k' == k.(stack := Push(Do(if choice then f.code.one else f.code.other), rest)))
      && (f.Do? && f.code.Loop? ==> k' == k.(stack := if choice then Push(Do(f.code.body), k.stack) else rest))
      && (f.Do? && f.code.Except? ==>
            k' == k.(stack :=
              Push(Do(f.code.body), Push(Handler(f.code.handler, f.code.cancelled, f.code.again), rest))))
      && (f.Do? && f.code.Finally? ==> k' == k.(stack := Push(Do(f.code.body), Push(Cleanup(f.code.cleanup), rest))))
  {}

  /** Leaving async with gives the lock back, in calm and in error. */
  lemma UnlockExactly(s: State, t: nat, choice: bool)
    requires Inv(s) && s.running == Some(t) && Alive(s, t) && s.tasks[t].stack.top.Unlock?
    ensures var s', k := Next(s, Advance(choice)), s.tasks[t];
      s' == State(s.tasks[t := k.(stack := k.stack.rest)], s.owners - {k.stack.top.lock}, s.queues, s.running)
  {}

  /** Entering async with takes the lock if it is free and nobody waits, and otherwise waits at the end of the queue. */
  lemma LockExactly(s: State, t: nat, choice: bool)
    requires Inv(s) && s.running == Some(t) && Alive(s, t) && s.tasks[t].mood.Normal?
    requires s.tasks[t].stack.top.Do? && s.tasks[t].stack.top.code.With?
    ensures var s', k := Next(s, Advance(choice)), s.tasks[t];
      var l := k.stack.top.code.lock;
      if l !in s.owners && Queue(s.queues, l) == [] then
        && s'.running == Some(t) && s'.owners == s.owners[l := t]
        && s'.tasks[t].stack == Push(Do(k.stack.top.code.body), Push(Unlock(l), k.stack.rest))
      else
        && s'.running == None && s'.owners == s.owners
        && s'.tasks[t] == k.(wait := OnLock(l)) && Queue(s'.queues, l) == Queue(s.queues, l) + [t]
  {}

  /** A wait gives the processor up; a task with nothing left gives it up for good; a new task starts on its own. */
  lemma SwitchExactly(s: State, t: nat, choice: bool)
    requires Inv(s) && s.running == Some(t)
    ensures var s', k := Next(s, Advance(choice)), s.tasks[t];
      && (k.stack.Empty? ==> s' == s.(running := None))
      && (k.stack.Push? && k.stack.top.Join? ==>
            s' == s.(tasks := s.tasks[t := k.(wait := OnTask(k.stack.top.child))], running := None))
      && (k.stack.Push? && k.mood.Normal? && k.stack.top == Do(Await) ==>
            s' == s.(tasks := s.tasks[t := k.(stack := k.stack.rest)], running := None))
      && (k.stack.Push? && k.mood.Normal? && k.stack.top.Do? && k.stack.top.code.Fork? ==>
            var c, n := k.stack.top.code, |s.tasks|;
            s' == s.(tasks := s.tasks[t := k.(stack := Push(Do(c.body), Push(Join(n), k.stack.rest)))]
                             + [Task(Push(Do(c.child), Empty), Normal, OnNothing, true)]))
  {}

  /** A task starts with its operation's program and nothing else. */
  lemma StartExactly(s: State, op: Operation)
    requires Enabled(s, Start(op))
    ensures Next(s, Start(op)) ==
      State(s.tasks + [Task(Push(Do(Program(op)), Empty), Normal, OnNothing, false)], s.owners, s.queues, s.running)
  {}

  /** A task goes on with what its wait gave it: a value or an error, the lock it was first in line for, or the end of
      its child. */
  lemma ResumeExactly(s: State, t: nat, how: Mood)
    requires Inv(s) && Runnable(s, t) && s.running == None && how != Raising(true)
    ensures var s', k := Next(s, Resume(t, how)), s.tasks[t];
      && s'.running == Some(t)
      && (k.wait == OnNothing ==> s' == State(s.tasks[t := k.(mood := how)], s.owners, s.queues, Some(t)))
      && (k.wait.OnLock? ==>
            && s'.owners == s.owners[k.wait.lock := t]
            && s'.tasks == s.tasks[t := k.(wait := OnNothing,
                 stack := Push(Do(k.stack.top.code.body), Push(Unlock(k.wait.lock), k.stack.rest)))])
      && (k.wait.OnTask? ==>
            s' == State(s.tasks[t := k.(stack := k.stack.rest, wait := OnNothing)], s.owners, s.queues, Some(t)))
  {}

  /** A cancelled task raises a cancellation where it stands, out of any queue and without its child. */
  lemma CancelExactly(s: State, t: nat)
    requires Inv(s) && Alive(s, t) && s.running == None
    ensures var s', k := Next(s, Resume(t, Raising(true))), s.tasks[t];
      && s'.running == Some(t) && s'.owners == s.owners
      && s'.tasks == s.tasks[t := k.(mood := Raising(true), wait := OnNothing,
           stack := if k.wait == OnNothing then k.stack else k.stack.rest)]
      && (k.wait.OnLock? ==> t !in Queue(s'.queues, k.wait.lock))
  {}
}
