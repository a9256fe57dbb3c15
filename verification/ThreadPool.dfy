/** The thread pool: workers that take batches of tasks from the blocking queue until the pool is stopped,
    as a step machine built on module BlockingQueue.

    Threads below `workers` are the pool's; the others schedule, and so do the tasks that a worker runs.  A
    task is a value; starting one appends it to `executed`, and the worker goes on when it is over.  Tasks run
    to completion without throwing. */
module ThreadPool {
  import opened Bags
  import opened Wrappers
  import BlockingQueue
  import Semaphore

  /** A worker tests the flag, fetches a batch with a timed bulk dequeue, and executes it in order; the first
      i tasks of the batch have been started. */
  datatype Worker<T> =
    | Test
    | Fetching
    | Running(batch: seq<Option<T>>, available: nat, i: nat)
    | Exited

  datatype State<T> = State(q: BlockingQueue.State<T>, workers: seq<Worker<T>>, max: nat, done: bool,
                            executed: seq<T>)

  datatype Action<T> =
    | Schedule(t: nat, p: nat, xs: seq<T>, ok: bool)       // schedule or schedule_bulk, called by thread t
    | Inside(a: BlockingQueue.Action<T>)                   // a step within a call of the queue
    | Work(w: nat)
    | Stop

  function Set<T>(s: State<T>, w: nat, worker: Worker<T>): State<T>
    requires w < |s.workers|
  {
    s.(workers := s.workers[w := worker])
  }

  predicate InsideCall<T>(a: BlockingQueue.Action<T>) { a.Sem? || a.Take? || a.EndInner? }

  /** Thread t has no call of the queue under way. */
  predicate InNoCall<T>(q: BlockingQueue.State<T>, t: nat) { t < |q.threads| && q.threads[t].Idle? }

  /** Thread t is not the pool's, or is running a task. */
  predicate MaySchedule<T>(s: State<T>, t: nat) {
    t < |s.workers| ==> s.workers[t].Running? && s.workers[t].i > 0
  }

  function WorkStep<T>(s: State<T>, w: nat): State<T>
    requires w < |s.workers|
  {
    match s.workers[w]
    case Test =>
      if s.done then Set(s, w, Exited)
      else
        var q := BlockingQueue.Step(s.q, BlockingQueue.Dequeue(w, s.max, Semaphore.Timed, false));
        Set(s, w, Fetching).(q := q)
    case Fetching =>
      if w < |s.q.threads| && s.q.threads[w].Done? then
        var th := s.q.threads[w];
        Set(s, w, Running(th.out, th.count, 0)).(q := BlockingQueue.Step(s.q, BlockingQueue.Return(w)))
      else s
    case Running(batch, available, i) =>
      if !InNoCall(s.q, w) then s
      else if i < available && i < |batch| && batch[i].Some? then
        Set(s, w, Running(batch, available, i + 1)).(executed := s.executed + [batch[i].value])
      else if i >= available then Set(s, w, Test)
      else s
    case Exited => s
  }

  function Step<T>(s: State<T>, a: Action<T>): State<T> {
    match a
    case Schedule(t, p, xs, ok) =>
      if MaySchedule(s, t) then s.(q := BlockingQueue.Step(s.q, BlockingQueue.Enqueue(t, p, xs, ok))) else s
    case Inside(b) => if InsideCall(b) then s.(q := BlockingQueue.Step(s.q, b)) else s
    case Work(w) => if w < |s.workers| then WorkStep(s, w) else s
    case Stop => s.(done := true)
  }

  function Run<T>(s: State<T>, schedule: seq<Action<T>>): State<T>
    decreases |schedule|
  {
    if schedule == [] then s else Run(Step(s, schedule[0]), schedule[1..])
  }

  ghost predicate Init<T>(s: State<T>) {
    && BlockingQueue.Init(s.q) && |s.workers| <= |s.q.threads| && !s.done && s.executed == []
    && forall w :: 0 <= w < |s.workers| ==> s.workers[w] == Test
  }

  // ---------------------------------------------------------------- the invariant

  /** The tasks of a batch from position i on. */
  function Rest<T>(batch: seq<Option<T>>, available: nat, i: nat): (r: seq<T>)
    requires available <= |batch| && forall j :: 0 <= j < available ==> batch[j].Some?
    ensures |r| == if i <= available then available - i else 0
    decreases if i < available then available - i else 0
  {
    if i >= available then [] else [batch[i].value] + Rest(batch, available, i + 1)
  }

  predicate BatchOk<T>(worker: Worker<T>) {
    worker.Running? ==>
      && worker.i <= worker.available <= |worker.batch|
      && forall j :: 0 <= j < worker.available ==> worker.batch[j].Some?
  }

  /** Tasks a worker has in its batch and has not executed. */
  function Held<T>(worker: Worker<T>): seq<T> {
    if worker.Running? && BatchOk(worker) then Rest(worker.batch, worker.available, worker.i) else []
  }

  function HeldRows<T>(workers: seq<Worker<T>>): (rows: seq<seq<T>>)
    ensures |rows| == |workers| && forall w :: 0 <= w < |workers| ==> rows[w] == Held(workers[w])
  {
    seq(|workers|, w requires 0 <= w < |workers| => Held(workers[w]))
  }

  /** A thread's call of the queue: none, an insertion, or a removal. */
  function Kind<T>(th: BlockingQueue.Thread<T>): nat {
    if th.Idle? then 0 else if th.Signalling? || th.Posting? then 1 else 2
  }

  /** A worker dequeues when it fetches, and only inserts when it runs tasks. */
  predicate KindOk<T>(worker: Worker<T>, kind: nat) {
    if worker.Fetching? then kind == 2 else if worker.Running? then kind <= 1 else kind == 0
  }

  /** A worker's call of the queue is where the worker has it, and the other threads only insert. */
  ghost predicate CallsInv<T>(workers: seq<Worker<T>>, threads: seq<BlockingQueue.Thread<T>>) {
    && |workers| <= |threads|
    && (forall w {:trigger workers[w]} :: 0 <= w < |workers| ==> KindOk(workers[w], Kind(threads[w])))
    && (forall t {:trigger threads[t]} :: |workers| <= t < |threads| ==> Kind(threads[t]) <= 1)
  }

  ghost predicate BatchesInv<T>(workers: seq<Worker<T>>) {
    forall w :: 0 <= w < |workers| ==> BatchOk(workers[w])
  }

  /** What the queue has delivered is executed or in some worker's batch. */
  ghost predicate DeliveredInv<T>(s: State<T>) {
    multiset(s.q.delivered) == multiset(s.executed) + Bag(HeldRows(s.workers))
  }

  ghost predicate Inv<T>(s: State<T>) {
    BlockingQueue.Inv(s.q) && CallsInv(s.workers, s.q.threads) && BatchesInv(s.workers) && DeliveredInv(s)
  }

  lemma SumsAfter<T>(workers: seq<Worker<T>>, w: nat, worker: Worker<T>)
    requires w < |workers|
    ensures Bag(HeldRows(workers[w := worker])) + multiset(Held(workers[w]))
         == Bag(HeldRows(workers)) + multiset(Held(worker))
  {
    BagUpdate(HeldRows(workers), w, Held(worker));
    assert HeldRows(workers[w := worker]) == HeldRows(workers)[w := Held(worker)];
  }

  lemma SemKind<T>(q: BlockingQueue.State<T>, t: nat, choice: bool)
    requires t < |q.threads| == |q.sem.pcs| && (q.threads[t].Waiting? || Kind(q.threads[t]) == 1)
    ensures var q' := BlockingQueue.SemStep(q, t, choice);
      && |q'.threads| == |q.threads| && q'.delivered == q.delivered
      && (forall v :: 0 <= v < |q.threads| && v != t ==> q'.threads[v] == q.threads[v])
      && (Kind(q'.threads[t]) == Kind(q.threads[t]) || (Kind(q.threads[t]) == 1 && Kind(q'.threads[t]) == 0))
  {
    hide Semaphore.Step;
  }

  lemma SemThreads<T>(q: BlockingQueue.State<T>)
    requires BlockingQueue.Inv(q)
    ensures |q.sem.pcs| == |q.threads|
  {}

  /** Steps within calls neither begin one nor turn one into another. */
  lemma InsideStep<T>(q: BlockingQueue.State<T>, a: BlockingQueue.Action<T>, t: nat)
    requires t < |q.threads| && InsideCall(a) && BlockingQueue.Inv(q)
    ensures var q' := BlockingQueue.Step(q, a);
      && |q'.threads| == |q.threads| && q'.delivered == q.delivered
      && (Kind(q'.threads[t]) == Kind(q.threads[t]) || (Kind(q.threads[t]) == 1 && Kind(q'.threads[t]) == 0))
  {
    hide BlockingQueue.Inv, BlockingQueue.SemStep, BlockingQueue.Written, BlockingQueue.Linked, BlockingQueue.BufferOk;
    SemThreads(q);
    if a.Sem? && a.t < |q.threads| && (q.threads[a.t].Waiting? || Kind(q.threads[a.t]) == 1) {
      SemKind(q, a.t, a.choice);
    }
  }

  lemma InsideThreads<T>(q: BlockingQueue.State<T>, a: BlockingQueue.Action<T>)
    requires InsideCall(a) && BlockingQueue.Inv(q)
    ensures var q' := BlockingQueue.Step(q, a);
      && |q'.threads| == |q.threads| && q'.delivered == q.delivered
      && forall t :: 0 <= t < |q.threads| ==>
           Kind(q'.threads[t]) == Kind(q.threads[t]) || (Kind(q.threads[t]) == 1 && Kind(q'.threads[t]) == 0)
  {
    if q.threads == [] { NoThreads(q, a); }
    hide BlockingQueue.Step;
    forall t | 0 <= t < |q.threads|
      ensures var q' := BlockingQueue.Step(q, a);
        && |q'.threads| == |q.threads| && q'.delivered == q.delivered
        && (Kind(q'.threads[t]) == Kind(q.threads[t]) || (Kind(q.threads[t]) == 1 && Kind(q'.threads[t]) == 0))
    {
      InsideStep(q, a, t);
    }
  }

  lemma NoThreads<T>(q: BlockingQueue.State<T>, a: BlockingQueue.Action<T>)
    requires q.threads == []
    ensures BlockingQueue.Step(q, a) == q
  {}

  lemma InsideKeeps<T>(s: State<T>, a: BlockingQueue.Action<T>)
    requires Inv(s) && InsideCall(a)
    ensures Inv(Step(s, Inside(a)))
  {
    hide BlockingQueue.Inv, BlockingQueue.Step, Kind;
    BlockingQueue.StepKeeps(s.q, a);
    InsideThreads(s.q, a);
  }

  lemma EnqueueThreads<T>(q: BlockingQueue.State<T>, t: nat, p: nat, xs: seq<T>, ok: bool)
    ensures var q' := BlockingQueue.Step(q, BlockingQueue.Enqueue(t, p, xs, ok));
      && |q'.threads| == |q.threads| && q'.delivered == q.delivered
      && (forall v :: 0 <= v < |q.threads| ==>
            q'.threads[v] == q.threads[v] || (v == t && Kind(q'.threads[v]) == 1))
      && (t < |q.threads| && !q.threads[t].Idle? ==> q'.threads[t] == q.threads[t])
  {}

  lemma ScheduleKeeps<T>(s: State<T>, t: nat, p: nat, xs: seq<T>, ok: bool)
    requires Inv(s)
    ensures Inv(Step(s, Schedule(t, p, xs, ok)))
  {
    hide BlockingQueue.Inv, BlockingQueue.Step, Kind;
    BlockingQueue.StepKeeps(s.q, BlockingQueue.Enqueue(t, p, xs, ok));
    EnqueueThreads(s.q, t, p, xs, ok);
  }

  // ---- workers

  /** One worker, and with it its thread of the queue, moves on. */
  lemma WorkerMoves<T>(s: State<T>, s': State<T>, w: nat)
    requires CallsInv(s.workers, s.q.threads) && BatchesInv(s.workers) && w < |s.workers| == |s'.workers|
    requires s'.workers == s.workers[w := s'.workers[w]] && |s'.q.threads| == |s.q.threads|
    requires forall v :: 0 <= v < |s.q.threads| && v != w ==> s'.q.threads[v] == s.q.threads[v]
    requires KindOk(s'.workers[w], Kind(s'.q.threads[w])) && BatchOk(s'.workers[w])
    ensures CallsInv(s'.workers, s'.q.threads) && BatchesInv(s'.workers)
  {}

  lemma DeliveredMoves<T>(s: State<T>, s': State<T>, w: nat)
    requires DeliveredInv(s) && w < |s.workers| == |s'.workers| && s'.workers == s.workers[w := s'.workers[w]]
    requires multiset(s'.q.delivered) + multiset(s.executed) + multiset(Held(s.workers[w]))
          == multiset(s.q.delivered) + multiset(s'.executed) + multiset(Held(s'.workers[w]))
    ensures DeliveredInv(s')
  {
    SumsAfter(s.workers, w, s'.workers[w]);
    hide Bag;
    BalancePair(multiset(s.q.delivered), Bag(HeldRows(s.workers)), multiset(s.executed),
                multiset(s'.q.delivered), Bag(HeldRows(s'.workers)), multiset(s'.executed),
                multiset(Held(s.workers[w])), multiset(Held(s'.workers[w])));
  }

  lemma DequeueThread<T>(q: BlockingQueue.State<T>, w: nat, max: nat)
    requires w < |q.threads| && Kind(q.threads[w]) == 0
    ensures var q' := BlockingQueue.Step(q, BlockingQueue.Dequeue(w, max, Semaphore.Timed, false));
      && |q'.threads| == |q.threads| && q'.delivered == q.delivered && Kind(q'.threads[w]) == 2
      && (forall v :: 0 <= v < |q.threads| && v != w ==> q'.threads[v] == q.threads[v])
  {}

  lemma FetchKeeps<T>(s: State<T>, w: nat)
    requires Inv(s) && w < |s.workers| && s.workers[w].Test?
    ensures Inv(WorkStep(s, w))
  {
    hide BlockingQueue.Inv, BlockingQueue.Step, Kind;
    var s' := WorkStep(s, w);
    if !s.done {
      BlockingQueue.StepKeeps(s.q, BlockingQueue.Dequeue(w, s.max, Semaphore.Timed, false));
      DequeueThread(s.q, w, s.max);
    }
    hide CallsInv, BatchesInv, DeliveredInv;
    WorkerMoves(s, s', w);
    DeliveredMoves(s, s', w);
  }

  /** A fetched batch is what the queue delivered. */
  lemma {:induction false} RestIsGot<T>(out: seq<Option<T>>, got: seq<T>, i: nat)
    requires BlockingQueue.Filled(out, got) && i <= |got|
    ensures forall j :: 0 <= j < |got| ==> out[j].Some?
    ensures Rest(out, |got|, i) == got[i..]
    decreases |got| - i
  {
    if i < |got| {
      RestIsGot(out, got, i + 1);
    }
  }

  lemma ReturnThread<T>(q: BlockingQueue.State<T>, w: nat)
    requires BlockingQueue.Inv(q) && w < |q.threads| && q.threads[w].Done?
    ensures var q' := BlockingQueue.Step(q, BlockingQueue.Return(w));
      && |q'.threads| == |q.threads| && Kind(q'.threads[w]) == 0
      && (forall v :: 0 <= v < |q.threads| && v != w ==> q'.threads[v] == q.threads[v])
      && multiset(q'.delivered) == multiset(q.delivered) + multiset(q.threads[w].got)
    ensures var th := q.threads[w];
      BatchOk(Running(th.out, th.count, 0)) && Held(Running(th.out, th.count, 0)) == th.got
  {
    var th := q.threads[w];
    RestIsGot(th.out, th.got, 0);
    assert th.got[0..] == th.got;
    hide BlockingQueue.Inv, BlockingQueue.Filled;
  }

  lemma DeliverKeeps<T>(s: State<T>, w: nat)
    requires Inv(s) && w < |s.workers| && s.workers[w].Fetching? && w < |s.q.threads| && s.q.threads[w].Done?
    ensures Inv(WorkStep(s, w))
  {
    hide BlockingQueue.Inv, BlockingQueue.Step, Kind, Held, BatchOk, CallsInv, BatchesInv, DeliveredInv;
    var s' := WorkStep(s, w);
    BlockingQueue.StepKeeps(s.q, BlockingQueue.Return(w));
    ReturnThread(s.q, w);
    NothingHeld<T>();
    WorkerMoves(s, s', w);
    DeliveredMoves(s, s', w);
  }

  lemma NothingHeld<T>()
    ensures Held<T>(Fetching) == []
  {}

  lemma TaskMoves<T>(worker: Worker<T>, worker': Worker<T>)
    requires BatchOk(worker) && worker.Running? && worker.i < worker.available
    requires worker' == Running(worker.batch, worker.available, worker.i + 1)
    ensures BatchOk(worker')
        && multiset(Held(worker)) == multiset([worker.batch[worker.i].value]) + multiset(Held(worker'))
  {}

  lemma NoCall<T>(q: BlockingQueue.State<T>, t: nat)
    requires InNoCall(q, t)
    ensures Kind(q.threads[t]) == 0
  {}

  lemma TaskKeeps<T>(s: State<T>, w: nat)
    requires Inv(s) && w < |s.workers| && s.workers[w].Running? && InNoCall(s.q, w)
    ensures Inv(WorkStep(s, w))
  {
    hide BlockingQueue.Inv, BlockingQueue.Step, Kind, InNoCall;
    var s' := WorkStep(s, w);
    var worker := s.workers[w];
    NoCall(s.q, w);
    assert BatchOk(worker);
    if worker.i < worker.available {
      var x := worker.batch[worker.i].value;
      TaskMoves(worker, s'.workers[w]);
      assert multiset(s.executed + [x]) == multiset(s.executed) + multiset([x]);
    }
    WorkerMoves(s, s', w);
    hide CallsInv, BatchesInv, DeliveredInv;
    DeliveredMoves(s, s', w);
  }

  lemma StepKeeps<T>(s: State<T>, a: Action<T>)
    requires Inv(s)
    ensures Inv(Step(s, a))
  {
    hide Inv;
    match a
    case Schedule(t, p, xs, ok) => ScheduleKeeps(s, t, p, xs, ok);
    case Inside(b) => if InsideCall(b) { InsideKeeps(s, b); }
    case Work(w) => if w < |s.workers| { WorkKeeps(s, w); }
    case Stop => StopKeeps(s);
  }

  lemma StopKeeps<T>(s: State<T>)
    requires Inv(s)
    ensures Inv(s.(done := true))
  {
    hide BlockingQueue.Inv, CallsInv, BatchesInv;
  }

  lemma WorkKeeps<T>(s: State<T>, w: nat)
    requires Inv(s) && w < |s.workers|
    ensures Inv(WorkStep(s, w))
  {
    hide Inv;
    match s.workers[w]
    case Test => FetchKeeps(s, w);
    case Fetching => if w < |s.q.threads| && s.q.threads[w].Done? { DeliverKeeps(s, w); }
    case Running(_, _, _) => if InNoCall(s.q, w) { TaskKeeps(s, w); }
    case Exited =>
  }

  lemma {:induction false} RunKeeps<T>(s: State<T>, schedule: seq<Action<T>>)
    requires Inv(s)
    ensures Inv(Run(s, schedule))
    decreases |schedule|
  {
    hide Inv;
    if schedule != [] {
      StepKeeps(s, schedule[0]);
      RunKeeps(Step(s, schedule[0]), schedule[1..]);
    }
  }

  lemma StartInv<T>(s: State<T>)
    requires Init(s)
    ensures CallsInv(s.workers, s.q.threads) && BatchesInv(s.workers) && DeliveredInv(s)
  {
    BagEmpty(HeldRows(s.workers));
  }

  lemma ReachableInv<T>(s0: State<T>, schedule: seq<Action<T>>)
    requires Init(s0)
    ensures Inv(Run(s0, schedule))
  {
    hide BlockingQueue.Inv, BlockingQueue.Init, CallsInv, BatchesInv, DeliveredInv;
    BlockingQueue.InitInv(s0.q);
    StartInv(s0);
    RunKeeps(s0, schedule);
  }

  // ---------------------------------------------------------------- what holds in every run

  lemma QueueBags<T>(q: BlockingQueue.State<T>)
    requires BlockingQueue.Inv(q)
    ensures multiset(q.enqueued) == Bag(q.queues) + Bag(BlockingQueue.HeldRows(q.threads)) + multiset(q.delivered)
  {}

  lemma DeliveredIs<T>(s: State<T>)
    requires DeliveredInv(s)
    ensures multiset(s.q.delivered) == multiset(s.executed) + Bag(HeldRows(s.workers))
  {}

  /** Every task scheduled successfully is executed, queued, or in the hands of a worker: none is lost, and
      none is executed more often than it was scheduled.  A worker finds a task wherever it looks for one. */
  lemma TasksConserved<T>(s0: State<T>, schedule: seq<Action<T>>)
    requires Init(s0)
    ensures var s := Run(s0, schedule);
      multiset(s.q.enqueued) == Bag(s.q.queues) + Bag(BlockingQueue.HeldRows(s.q.threads))
                                + (multiset(s.executed) + Bag(HeldRows(s.workers)))
      && (forall w :: 0 <= w < |s.workers| ==> BatchOk(s.workers[w]))
  {
    hide BlockingQueue.Inv, CallsInv;
    ReachableInv(s0, schedule);
    QueueBags(Run(s0, schedule).q);
  }

  lemma NothingInHands<T>(workers: seq<Worker<T>>, threads: seq<BlockingQueue.Thread<T>>)
    requires CallsInv(workers, threads) && forall w :: 0 <= w < |workers| ==> workers[w].Exited?
    ensures Bag(BlockingQueue.HeldRows(threads)) == multiset{} && Bag(HeldRows(workers)) == multiset{}
  {
    forall t | 0 <= t < |threads| ensures BlockingQueue.Held(threads[t]) == [] {
      if t < |workers| {
        assert KindOk(workers[t], Kind(threads[t]));
      }
    }
    BagEmpty(BlockingQueue.HeldRows(threads));
    BagEmpty(HeldRows(workers));
  }

  /** Once all workers have left, which they only do after a stop, every task taken from the queue has been
      executed. */
  lemma StoppedPoolIsDrained<T>(s0: State<T>, schedule: seq<Action<T>>)
    requires Init(s0)
    requires forall w :: 0 <= w < |Run(s0, schedule).workers| ==> Run(s0, schedule).workers[w].Exited?
    ensures var s := Run(s0, schedule);
      && multiset(s.q.enqueued) == Bag(s.q.queues) + multiset(s.executed)
      && (s.workers != [] ==> s.done)
  {
    hide BlockingQueue.Inv, BlockingQueue.Init, BatchesInv, DeliveredInv, CallsInv, Bag;
    var s := Run(s0, schedule);
    ReachableInv(s0, schedule);
    QueueBags(s.q);
    DeliveredIs(s);
    NothingInHands(s.workers, s.q.threads);
    LeavesOnlyWhenStopped(s0, schedule, 0);
  }

  /** A worker only leaves once the pool has been stopped. */
  lemma {:induction false} LeavesOnlyWhenStopped<T>(s0: State<T>, schedule: seq<Action<T>>, w: nat)
    requires (w < |s0.workers| && s0.workers[w].Exited? ==> s0.done)
    ensures var s := Run(s0, schedule); w < |s.workers| && s.workers[w].Exited? ==> s.done
    decreases |schedule|
  {
    if schedule != [] {
      LeavesOnlyWhenStopped(Step(s0, schedule[0]), schedule[1..], w);
    }
  }

  // ---------------------------------------------------------------- a batch

  /** Worker w takes n steps in a row. */
  function Solo<T>(s: State<T>, w: nat, n: nat): State<T>
    decreases n
  {
    if n == 0 then s else Solo(Step(s, Work(w)), w, n - 1)
  }

  lemma {:induction false} BatchRuns<T>(s: State<T>, w: nat)
    requires w < |s.workers| && s.workers[w].Running? && BatchOk(s.workers[w]) && InNoCall(s.q, w)
    ensures var worker := s.workers[w];
      var s' := Solo(s, w, worker.available - worker.i + 1);
      s' == s.(executed := s.executed + Held(worker), workers := s.workers[w := Test])
    decreases s.workers[w].available - s.workers[w].i
  {
    var worker := s.workers[w];
    var s1 := Step(s, Work(w));
    if worker.i < worker.available {
      BatchNext(worker);
      TaskHeld(worker);
      var x, worker1 := worker.batch[worker.i].value, Running(worker.batch, worker.available, worker.i + 1);
      assert s1 == s.(executed := s.executed + [x], workers := s.workers[w := worker1]);
      BatchRuns(s1, w);
      assert s.executed + [x] + Held(worker1) == s.executed + Held(worker);
      assert s.workers[w := worker1][w := Test] == s.workers[w := Test];
    } else {
      BatchDone(worker);
      assert s.executed + [] == s.executed;
      assert Solo(s1, w, 0) == s1;
    }
  }

  /** From every reachable state, a worker whose tasks do not call the queue executes the rest of its batch in order,
      one task a step, and goes back to its test. */
  lemma BatchRunsOut<T>(s0: State<T>, schedule: seq<Action<T>>, w: nat)
    requires Init(s0) && w < |Run(s0, schedule).workers| && Run(s0, schedule).workers[w].Running?
    requires InNoCall(Run(s0, schedule).q, w)
    ensures var s := Run(s0, schedule);
      var worker := s.workers[w];
      && worker.i <= worker.available
      && Solo(s, w, worker.available - worker.i + 1)
         == s.(executed := s.executed + Held(worker), workers := s.workers[w := Test])
  {
    hide Run, Init, Held, InNoCall, Solo;
    ReachableInv(s0, schedule);
    WorkerOk(Run(s0, schedule), w);
    BatchRuns(Run(s0, schedule), w);
  }

  lemma WorkerOk<T>(s: State<T>, w: nat)
    requires Inv(s) && w < |s.workers|
    ensures BatchOk(s.workers[w])
  {
    hide BlockingQueue.Inv, CallsInv, DeliveredInv;
  }

  // ---------------------------------------------------------------- batches and leaving

  /** A worker's batch has room for s.max tasks, from its call of the queue on. */
  predicate BatchFits<T>(worker: Worker<T>, th: BlockingQueue.Thread<T>, max: nat) {
    match worker
    case Fetching => (
      match th
      case Waiting(m, mode, single) => m == max && mode == Semaphore.Timed && !single
      case Redeeming(want, _, _, out, _) => |out| == max
      case Done(_, out, _) => |out| == max
      case _ => true)
    case Running(batch, _, _) => |batch| == max
    case _ => true
  }

  ghost predicate BatchesFit<T>(s: State<T>) {
    |s.workers| <= |s.q.threads| && forall w :: 0 <= w < |s.workers| ==> BatchFits(s.workers[w], s.q.threads[w], s.max)
  }

  lemma InsideFits<T>(q: BlockingQueue.State<T>, a: BlockingQueue.Action<T>, worker: Worker<T>, t: nat, max: nat)
    requires t < |q.threads| && InsideCall(a) && BatchFits(worker, q.threads[t], max)
    ensures var q' := BlockingQueue.Step(q, a); t < |q'.threads| && BatchFits(worker, q'.threads[t], max)
  {
    hide Semaphore.Step, BlockingQueue.Written;
  }

  lemma InsideSize<T>(q: BlockingQueue.State<T>, a: BlockingQueue.Action<T>)
    requires InsideCall(a)
    ensures |BlockingQueue.Step(q, a).threads| == |q.threads|
  {
    hide Semaphore.Step, BlockingQueue.Written, BlockingQueue.AfterSem;
  }

  lemma ScheduleFits<T>(q: BlockingQueue.State<T>, t: nat, p: nat, xs: seq<T>, ok: bool, worker: Worker<T>, w: nat,
                        max: nat)
    requires w < |q.threads| && BatchFits(worker, q.threads[w], max)
    ensures var q' := BlockingQueue.Step(q, BlockingQueue.Enqueue(t, p, xs, ok));
      |q'.threads| == |q.threads| && BatchFits(worker, q'.threads[w], max)
  {
    hide Semaphore.Step;
  }

  lemma FetchThread<T>(q: BlockingQueue.State<T>, w: nat, max: nat)
    requires w < |q.threads| && Kind(q.threads[w]) == 0
    ensures var q' := BlockingQueue.Step(q, BlockingQueue.Dequeue(w, max, Semaphore.Timed, false));
      && |q'.threads| == |q.threads| && q'.threads[w] == BlockingQueue.Waiting(max, Semaphore.Timed, false)
      && (forall v :: 0 <= v < |q.threads| && v != w ==> q'.threads[v] == q.threads[v])
  {
    hide Semaphore.Step;
  }

  /** A worker that finds the flag set leaves; one that does not asks for s.max tasks. */
  lemma TestFits<T>(s: State<T>, w: nat)
    requires BatchesFit(s) && CallsInv(s.workers, s.q.threads) && w < |s.workers| && s.workers[w].Test?
    ensures var s' := WorkStep(s, w);
      && BatchesFit(s')
      && (if s.done then s'.workers[w].Exited? && s'.q == s.q
          else s'.workers[w].Fetching? && w < |s'.q.threads|
               && s'.q.threads[w] == BlockingQueue.Waiting(s.max, Semaphore.Timed, false))
  {
    assert KindOk(s.workers[w], Kind(s.q.threads[w]));
    if !s.done { FetchThread(s.q, w, s.max); }
    hide BlockingQueue.Step, CallsInv, Kind;
  }

  lemma FetchedFits<T>(s: State<T>, w: nat)
    requires BatchesFit(s) && w < |s.workers| && s.workers[w].Fetching?
    ensures BatchesFit(WorkStep(s, w))
  {}

  lemma WorkFits<T>(s: State<T>, w: nat)
    requires BatchesFit(s) && CallsInv(s.workers, s.q.threads) && w < |s.workers|
    ensures BatchesFit(WorkStep(s, w))
  {
    if s.workers[w].Test? { TestFits(s, w); }
    else if s.workers[w].Fetching? { FetchedFits(s, w); }
    hide BlockingQueue.Step, CallsInv;
  }

  lemma StepFits<T>(s: State<T>, a: Action<T>)
    requires BatchesFit(s) && CallsInv(s.workers, s.q.threads)
    ensures BatchesFit(Step(s, a)) && Step(s, a).max == s.max
  {
    hide WorkStep, BlockingQueue.Step, BatchFits, CallsInv;
    var s' := Step(s, a);
    match a
    case Schedule(t, p, xs, ok) =>
      EnqueueThreads(s.q, t, p, xs, ok);
      forall w | 0 <= w < |s.workers| ensures BatchFits(s'.workers[w], s'.q.threads[w], s.max) {
        ScheduleFits(s.q, t, p, xs, ok, s.workers[w], w, s.max);
      }
    case Inside(b) =>
      if InsideCall(b) {
        InsideSize(s.q, b);
        forall w | 0 <= w < |s.workers| ensures BatchFits(s'.workers[w], s'.q.threads[w], s.max) {
          InsideFits(s.q, b, s.workers[w], w, s.max);
        }
      }
    case Work(w) => if w < |s.workers| { WorkFits(s, w); MaxStays(s, w); }
    case Stop =>
  }

  lemma MaxStays<T>(s: State<T>, w: nat)
    requires w < |s.workers|
    ensures WorkStep(s, w).max == s.max && |WorkStep(s, w).workers| == |s.workers|
  {}

  lemma CallsOf<T>(s: State<T>)
    requires Inv(s)
    ensures CallsInv(s.workers, s.q.threads)
  {}

  lemma {:induction false} RunFits<T>(s: State<T>, schedule: seq<Action<T>>)
    requires Inv(s) && BatchesFit(s)
    ensures BatchesFit(Run(s, schedule)) && Run(s, schedule).max == s.max
    decreases |schedule|
  {
    hide Inv, BatchesFit, Step, CallsInv;
    if schedule != [] {
      CallsOf(s);
      StepFits(s, schedule[0]);
      StepKeeps(s, schedule[0]);
      RunFits(Step(s, schedule[0]), schedule[1..]);
    }
  }

  lemma StartFits<T>(s: State<T>)
    requires Init(s)
    ensures BatchesFit(s)
  {}

  /** In every run a worker that tests the flag asks the queue for the pool's maximum of tasks at once, in a timed
      call, or leaves if the pool has been stopped; and its batch is an array of that many. */
  lemma FetchesUpToMax<T>(s0: State<T>, schedule: seq<Action<T>>, w: nat)
    requires Init(s0) && w < |Run(s0, schedule).workers|
    ensures var s, s' := Run(s0, schedule), Step(Run(s0, schedule), Work(w));
      && s.max == s0.max
      && (s.workers[w].Running? ==> s.workers[w].available <= |s.workers[w].batch| == s0.max)
      && (s.workers[w].Test? && s.done ==> w < |s'.workers| && s'.workers[w].Exited? && s'.q == s.q)
      && (s.workers[w].Test? && !s.done ==>
            && w < |s'.workers| && s'.workers[w].Fetching? && w < |s'.q.threads|
            && s'.q.threads[w] == BlockingQueue.Waiting(s0.max, Semaphore.Timed, false))
  {
    hide Inv, Init, Run, Step, BatchesFit;
    StartsInv(s0);
    ReachableInv(s0, schedule);
    StartFits(s0);
    RunFits(s0, schedule);
    FetchesHere(Run(s0, schedule), w);
  }

  lemma StartsInv<T>(s: State<T>)
    requires Init(s)
    ensures Inv(s)
  {
    hide Inv, Init;
    ReachableInv(s, []);
  }

  lemma FetchesHere<T>(s: State<T>, w: nat)
    requires Inv(s) && BatchesFit(s) && w < |s.workers|
    ensures var s' := Step(s, Work(w));
      && (s.workers[w].Running? ==> s.workers[w].available <= |s.workers[w].batch| == s.max)
      && (s.workers[w].Test? && s.done ==> w < |s'.workers| && s'.workers[w].Exited? && s'.q == s.q)
      && (s.workers[w].Test? && !s.done ==>
            && w < |s'.workers| && s'.workers[w].Fetching? && w < |s'.q.threads|
            && s'.q.threads[w] == BlockingQueue.Waiting(s.max, Semaphore.Timed, false))
  {
    CallsOf(s);
    if s.workers[w].Test? { TestFits(s, w); }
    assert BatchOk(s.workers[w]);
    hide WorkStep, CallsInv, BlockingQueue.Inv, DeliveredInv;
  }

  /** After a stop no worker begins to fetch: each leaves at its next test. */
  lemma {:induction false} StopEndsFetching<T>(s: State<T>, schedule: seq<Action<T>>, w: nat)
    requires s.done && w < |s.workers| && !s.workers[w].Fetching?
    ensures var s' := Run(s, schedule); s'.done && |s'.workers| == |s.workers| && !s'.workers[w].Fetching?
    decreases |schedule|
  {
    if schedule != [] {
      StopStep(s, schedule[0], w);
      hide Step;
      StopEndsFetching(Step(s, schedule[0]), schedule[1..], w);
    }
  }

  lemma StopStep<T>(s: State<T>, a: Action<T>, w: nat)
    requires s.done && w < |s.workers| && !s.workers[w].Fetching?
    ensures var s' := Step(s, a); s'.done && |s'.workers| == |s.workers| && !s'.workers[w].Fetching?
  {
    hide BlockingQueue.Step;
  }

  // ---------------------------------------------------------------- order

  /** With one worker and one sub-queue: what is delivered is executed or in the batch, and what has been taken is
      delivered or on its way to the worker. */
  ghost predicate Serial<T>(s: State<T>) {
    && |s.workers| == 1 && |s.q.queues| == 1 && |s.q.threads| >= 1
    && s.q.delivered == s.executed + Held(s.workers[0])
    && BlockingQueue.TakenFrom(s.q.log, 0) == s.q.delivered + BlockingQueue.Held(s.q.threads[0])
  }

  lemma SerialInside<T>(s: State<T>, a: BlockingQueue.Action<T>)
    requires Inv(s) && Serial(s) && InsideCall(a)
    ensures Serial(Step(s, Inside(a)))
  {
    InsideThreads(s.q, a);
    CallsOf(s);
    InsideTakes(s.q, a);
    hide BlockingQueue.Inv, BlockingQueue.Step, DeliveredInv, BatchesInv;
  }

  lemma SemLeaves<T>(q: BlockingQueue.State<T>, t: nat, choice: bool)
    requires t < |q.threads| == |q.sem.pcs|
    requires q.threads[t].Waiting? || q.threads[t].Signalling? || q.threads[t].Posting?
    ensures var q' := BlockingQueue.SemStep(q, t, choice);
      && q'.log == q.log && q'.queues == q.queues && q'.delivered == q.delivered
      && |q'.threads| == |q.threads| && q'.threads == q.threads[t := q'.threads[t]]
      && BlockingQueue.Held(q'.threads[t]) == BlockingQueue.Held(q.threads[t])
  {
    hide Semaphore.Step;
  }

  lemma SemTakes<T>(q: BlockingQueue.State<T>, a: BlockingQueue.Action<T>)
    requires a.Sem? && |q.queues| == 1 && |q.threads| >= 1
    requires forall t :: 1 <= t < |q.threads| ==> Kind(q.threads[t]) <= 1
    requires BlockingQueue.TakenFrom(q.log, 0) == q.delivered + BlockingQueue.Held(q.threads[0])
    ensures var q' := BlockingQueue.Step(q, a);
      && |q'.queues| == 1 && |q'.threads| >= 1 && q'.delivered == q.delivered
      && BlockingQueue.TakenFrom(q'.log, 0) == q'.delivered + BlockingQueue.Held(q'.threads[0])
  {
    hide BlockingQueue.SemStep, BlockingQueue.TakenFrom;
    if BlockingQueue.Step(q, a) != q { SemLeaves(q, a.t, a.choice); }
  }

  lemma TakeEffect<T>(q: BlockingQueue.State<T>, t: nat, p: nat, n: nat)
    requires BlockingQueue.Step(q, BlockingQueue.Take(t, p, n)) != q
    ensures var q' := BlockingQueue.Step(q, BlockingQueue.Take(t, p, n));
      && t < |q.threads| == |q'.threads| && q.threads[t].Redeeming? && p < |q.queues| == |q'.queues|
      && n <= |q.queues[p]| && q'.threads == q.threads[t := q'.threads[t]] && q'.delivered == q.delivered
      && q'.log == q.log + [BlockingQueue.Took(t, p, q.queues[p][..n])]
      && BlockingQueue.Held(q'.threads[t]) == q.threads[t].got + q.queues[p][..n]
  {
    hide BlockingQueue.Written;
  }

  lemma RunTakes<T>(q: BlockingQueue.State<T>, a: BlockingQueue.Action<T>)
    requires a.Take? && |q.queues| == 1 && |q.threads| >= 1
    requires forall t :: 1 <= t < |q.threads| ==> Kind(q.threads[t]) <= 1
    requires BlockingQueue.TakenFrom(q.log, 0) == q.delivered + BlockingQueue.Held(q.threads[0])
    ensures var q' := BlockingQueue.Step(q, a);
      && |q'.queues| == 1 && |q'.threads| >= 1 && q'.delivered == q.delivered
      && BlockingQueue.TakenFrom(q'.log, 0) == q'.delivered + BlockingQueue.Held(q'.threads[0])
  {
    hide BlockingQueue.Step, BlockingQueue.TakenFrom;
    if BlockingQueue.Step(q, a) != q {
      TakeEffect(q, a.t, a.p, a.n);
      assert Kind(q.threads[a.t]) == 2 && a.t == 0 && a.p == 0;
      BlockingQueue.Logged(q.log, BlockingQueue.Took(a.t, a.p, q.queues[a.p][..a.n]), 0, 0);
      var got, xs := q.threads[0].got, q.queues[0][..a.n];
      assert (q.delivered + got) + xs == q.delivered + (got + xs);
    }
  }

  lemma EndTakes<T>(q: BlockingQueue.State<T>, a: BlockingQueue.Action<T>)
    requires a.EndInner? && |q.queues| == 1 && |q.threads| >= 1
    requires forall t :: 1 <= t < |q.threads| ==> Kind(q.threads[t]) <= 1
    requires BlockingQueue.TakenFrom(q.log, 0) == q.delivered + BlockingQueue.Held(q.threads[0])
    ensures var q' := BlockingQueue.Step(q, a);
      && |q'.queues| == 1 && |q'.threads| >= 1 && q'.delivered == q.delivered
      && BlockingQueue.TakenFrom(q'.log, 0) == q'.delivered + BlockingQueue.Held(q'.threads[0])
  {
  }

  lemma InsideTakes<T>(q: BlockingQueue.State<T>, a: BlockingQueue.Action<T>)
    requires InsideCall(a) && |q.queues| == 1 && |q.threads| >= 1
    requires forall t :: 1 <= t < |q.threads| ==> Kind(q.threads[t]) <= 1
    requires BlockingQueue.TakenFrom(q.log, 0) == q.delivered + BlockingQueue.Held(q.threads[0])
    ensures var q' := BlockingQueue.Step(q, a);
      && |q'.queues| == 1 && |q'.threads| >= 1 && q'.delivered == q.delivered
      && BlockingQueue.TakenFrom(q'.log, 0) == q'.delivered + BlockingQueue.Held(q'.threads[0])
  {
    hide BlockingQueue.Step, Kind;
    if a.Sem? { SemTakes(q, a); } else if a.Take? { RunTakes(q, a); } else { EndTakes(q, a); }
  }

  lemma SerialSchedule<T>(s: State<T>, t: nat, p: nat, xs: seq<T>, ok: bool)
    requires Serial(s)
    ensures Serial(Step(s, Schedule(t, p, xs, ok)))
  {
    hide Semaphore.Step;
    BlockingQueue.Logged(s.q.log, BlockingQueue.Put(p, xs), 0, 0);
  }

  lemma SerialFetch<T>(s: State<T>, w: nat)
    requires Serial(s) && CallsInv(s.workers, s.q.threads) && w < |s.workers| && s.workers[w].Test?
    ensures Serial(WorkStep(s, w))
  {
    assert KindOk(s.workers[w], Kind(s.q.threads[w]));
    hide Semaphore.Step, CallsInv;
  }

  lemma ReturnLog<T>(q: BlockingQueue.State<T>, w: nat)
    requires w < |q.threads| && q.threads[w].Done?
    ensures BlockingQueue.Step(q, BlockingQueue.Return(w))
         == q.(delivered := q.delivered + q.threads[w].got, log := q.log + [BlockingQueue.Handed(w)],
               threads := q.threads[w := BlockingQueue.Idle])
  {}

  lemma SerialReturn<T>(s: State<T>, w: nat)
    requires BlockingQueue.Inv(s.q) && Serial(s) && w < |s.workers| && s.workers[w].Fetching?
    ensures Serial(WorkStep(s, w))
  {
    hide BlockingQueue.Inv, BlockingQueue.Step, BlockingQueue.TakenFrom, Held, BatchOk, Kind;
    if s.q.threads[w].Done? {
      var got := s.q.threads[w].got;
      ReturnThread(s.q, w);
      ReturnLog(s.q, w);
      NothingHeld<T>();
      BlockingQueue.Logged(s.q.log, BlockingQueue.Handed(w), 0, 0);
      assert s.q.delivered == s.executed;
    }
  }

  lemma TaskHeld<T>(worker: Worker<T>)
    requires BatchOk(worker) && worker.Running? && worker.i < worker.available
    ensures var worker' := Running(worker.batch, worker.available, worker.i + 1);
      BatchOk(worker') && Held(worker) == [worker.batch[worker.i].value] + Held(worker')
  {}

  lemma BatchDone<T>(worker: Worker<T>)
    requires worker.Running? && worker.i >= worker.available
    ensures Held(worker) == [] && Held<T>(Test) == []
  {}

  lemma SerialTask<T>(s: State<T>, w: nat)
    requires BatchesInv(s.workers) && Serial(s) && w < |s.workers| && s.workers[w].Running?
    ensures Serial(WorkStep(s, w))
  {
    hide BlockingQueue.TakenFrom, BlockingQueue.Held, Held, InNoCall, BatchOk;
    var worker := s.workers[w];
    assert BatchOk(worker);
    if worker.i >= worker.available {
      BatchDone(worker);
    } else {
      TaskHeld(worker);
      BatchNext(worker);
      var x := worker.batch[worker.i].value;
      var rest := Held(Running(worker.batch, worker.available, worker.i + 1));
      assert s.executed + ([x] + rest) == (s.executed + [x]) + rest;
    }
  }

  lemma BatchNext<T>(worker: Worker<T>)
    requires BatchOk(worker) && worker.Running? && worker.i < worker.available
    ensures worker.i < |worker.batch| && worker.batch[worker.i].Some?
  {}

  lemma SerialWork<T>(s: State<T>, w: nat)
    requires Inv(s) && Serial(s) && w < |s.workers|
    ensures Serial(WorkStep(s, w))
  {
    hide Serial, CallsInv, BatchesInv, DeliveredInv, BlockingQueue.Inv;
    match s.workers[w]
    case Test => SerialFetch(s, w);
    case Fetching => SerialReturn(s, w);
    case Running(_, _, _) => SerialTask(s, w);
    case Exited =>
  }

  lemma SerialStep<T>(s: State<T>, a: Action<T>)
    requires Inv(s) && Serial(s)
    ensures Serial(Step(s, a))
  {
    hide Inv, Serial, WorkStep, BlockingQueue.Step;
    match a
    case Schedule(t, p, xs, ok) => SerialSchedule(s, t, p, xs, ok);
    case Inside(b) => if InsideCall(b) { SerialInside(s, b); }
    case Work(w) => if w < |s.workers| { SerialWork(s, w); }
    case Stop => SerialStop(s);
  }

  lemma SerialStop<T>(s: State<T>)
    requires Serial(s)
    ensures Serial(s.(done := true))
  {}

  lemma {:induction false} SerialRun<T>(s: State<T>, schedule: seq<Action<T>>)
    requires Inv(s) && Serial(s) && BlockingQueue.OrderInv(s.q)
    ensures Serial(Run(s, schedule)) && BlockingQueue.OrderInv(Run(s, schedule).q)
    decreases |schedule|
  {
    hide Inv, Serial, Step, BlockingQueue.OrderInv;
    if schedule != [] {
      SerialStep(s, schedule[0]);
      OrderStep(s, schedule[0]);
      StepKeeps(s, schedule[0]);
      SerialRun(Step(s, schedule[0]), schedule[1..]);
    }
  }

  /** Each step of the pool is at most one of its queue. */
  lemma OrderStep<T>(s: State<T>, a: Action<T>)
    requires BlockingQueue.OrderInv(s.q)
    ensures BlockingQueue.OrderInv(Step(s, a).q)
  {
    hide BlockingQueue.OrderInv, BlockingQueue.Step;
    match a
    case Schedule(t, p, xs, ok) => BlockingQueue.StepOrder(s.q, BlockingQueue.Enqueue(t, p, xs, ok));
    case Inside(b) => BlockingQueue.StepOrder(s.q, b);
    case Work(w) =>
      BlockingQueue.StepOrder(s.q, BlockingQueue.Dequeue(w, s.max, Semaphore.Timed, false));
      BlockingQueue.StepOrder(s.q, BlockingQueue.Return(w));
    case Stop =>
  }

  lemma StartSerial<T>(s: State<T>)
    requires Init(s) && |s.workers| == 1 && |s.q.queues| == 1
    ensures Serial(s) && BlockingQueue.OrderInv(s.q)
  {}

  /** A pool of one worker, fed through one sub-queue, executes the tasks in the order in which they were scheduled:
      what has been put in is what is executed, in the batch, on its way to the worker and queued, in this order. */
  lemma OneWorkerInOrder<T>(s0: State<T>, schedule: seq<Action<T>>)
    requires Init(s0) && |s0.workers| == 1 && |s0.q.queues| == 1
    ensures var s := Run(s0, schedule);
      && |s.workers| == 1 && |s.q.queues| == 1 && |s.q.threads| >= 1
      && BlockingQueue.PutInto(s.q.log, 0)
         == s.executed + Held(s.workers[0]) + BlockingQueue.Held(s.q.threads[0]) + s.q.queues[0]
  {
    hide Inv, Init;
    StartsInv(s0);
    StartSerial(s0);
    SerialRun(s0, schedule);
    hide Run;
  }
}
