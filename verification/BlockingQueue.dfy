/** The blocking queue: permits of the semaphore paired with elements of the inner queue, as a step
    machine built on module Semaphore.

    Enqueuing appends to a producer's sub-queue and then signals; dequeuing takes permits and then calls
    the inner queue until it has an element for each.  The inner queue is one sequence per producer;
    taking the first n elements of one is one step, which modules Tickets, StableLookup and
    ImplicitIndex justify, and an inner call may come back with fewer elements than there are.  A thread's
    semaphore calls are the machine of module Semaphore, step by step.  The single-element operations take
    the same steps as the bulk ones with a buffer of one, except that a blocking single wait is repeated
    until it has its permit.

    `enqueued`, `redeemed`, `delivered` and `log` are bookkeeping. */
module BlockingQueue {
  import opened Arith
  import opened Sums
  import opened Wrappers
  import opened Bags
  import Semaphore

  /** `out` is the caller's buffer, `got` its elements so far (bookkeeping).  A redeeming thread has
      `count` elements from finished inner calls and `inner` from the current one. */
  datatype Thread<T> =
    | Idle
    | Signalling(n: nat)
    | Posting
    | Waiting(max: nat, mode: Semaphore.Mode, single: bool)
    | Redeeming(want: nat, count: nat, inner: nat, out: seq<Option<T>>, got: seq<T>)
    | Done(count: nat, out: seq<Option<T>>, got: seq<T>)

  /** What has happened to elements: put into sub-queue p, taken from it by thread t, handed to t's caller. */
  datatype Event<T> = Put(p: nat, xs: seq<T>) | Took(t: nat, p: nat, xs: seq<T>) | Handed(t: nat)

  /** `enqueued` and `delivered` list the elements put in and handed to callers so far; `redeemed` counts
      the elements taken out of the sub-queues. */
  datatype State<T> = State(sem: Semaphore.State, queues: seq<seq<T>>, threads: seq<Thread<T>>,
                            enqueued: seq<T>, redeemed: nat, delivered: seq<T>, log: seq<Event<T>>)

  /** Enqueue puts xs into sub-queue p if the inner queue can (`ok`); Sem is a semaphore step of thread t;
      Take hands thread t the first n elements of sub-queue p; EndInner ends its inner call; Return hands
      the buffer to the caller. */
  datatype Action<T> =
    | Enqueue(t: nat, p: nat, xs: seq<T>, ok: bool)
    | Dequeue(t: nat, max: nat, mode: Semaphore.Mode, single: bool)
    | Sem(t: nat, choice: bool)
    | Take(t: nat, p: nat, n: nat)
    | EndInner(t: nat)
    | Return(t: nat)

  function Blank<T>(n: nat): seq<Option<T>> { seq(n, _ => None) }

  /** Elements xs written through the advancing iterator, from position `at` on. */
  function Written<T>(out: seq<Option<T>>, at: nat, xs: seq<T>): (r: seq<Option<T>>)
    requires at + |xs| <= |out|
    ensures |r| == |out|
    ensures forall j :: 0 <= j < |out| ==> r[j] == if at <= j < at + |xs| then Some(xs[j - at]) else out[j]
    decreases |xs|
  {
    if xs == [] then out else Written(out[at := Some(xs[0])], at + 1, xs[1..])
  }

  function Set<T>(s: State<T>, t: nat, th: Thread<T>): State<T>
    requires t < |s.threads|
  {
    s.(threads := s.threads[t := th])
  }

  /** The thread stands at the test of its retry loop. */
  function Loop<T>(want: nat, count: nat, out: seq<Option<T>>, got: seq<T>): Thread<T> {
    if count == want then Done(count, out, got) else Redeeming(want, count, 0, out, got)
  }

  /** A semaphore call of thread t has come back: with permits, or without. */
  function AfterSem<T>(s: State<T>, t: nat): Thread<T>
    requires t < |s.threads|
  {
    match s.threads[t]
    case Waiting(max, mode, single) =>
      if s.sem.results == [] then s.threads[t]
      else
        var taken := s.sem.results[|s.sem.results| - 1].taken;
        if single && mode == Semaphore.Forever && taken == 0 then Waiting(max, mode, single)
        else Loop(taken, 0, Blank(max), [])
    case _ => Idle
  }

  function SemStep<T>(s: State<T>, t: nat, choice: bool): State<T>
    requires t < |s.threads| == |s.sem.pcs|
  {
    var s1 := s.(sem := Semaphore.Step(s.sem, Semaphore.Go(t, choice)));
    if !(t < |s1.sem.pcs|) then s1
    else if s.threads[t].Waiting? then
      if s1.sem.pcs[t] != Semaphore.Idle then s1
      else
        var th := AfterSem(s1, t);
        var s2 := Set(s1, t, th);
        // a blocking single wait without a permit starts over
        if th.Waiting? then s2.(sem := Semaphore.Step(s1.sem, Semaphore.Wait(t, th.max, th.mode))) else s2
    else if s1.sem.pcs[t] == Semaphore.Idle then Set(s1, t, Idle)
    else if s.threads[t].Signalling? then Set(s1, t, Posting)
    else s1
  }

  function Step<T>(s: State<T>, a: Action<T>): State<T> {
    match a
    case Enqueue(t, p, xs, ok) =>
      if t < |s.threads| && s.threads[t] == Idle && p < |s.queues| && ok then
        s.(queues := s.queues[p := s.queues[p] + xs], enqueued := s.enqueued + xs, log := s.log + [Put(p, xs)],
           sem := Semaphore.Step(s.sem, Semaphore.Signal(t, |xs|)), threads := s.threads[t := Signalling(|xs|)])
      else s
    case Dequeue(t, max, mode, single) =>
      if t < |s.threads| && s.threads[t] == Idle && (single ==> max == 1) then
        Set(s, t, Waiting(max, mode, single)).(sem := Semaphore.Step(s.sem, Semaphore.Wait(t, max, mode)))
      else s
    case Sem(t, choice) =>
      if t < |s.threads| == |s.sem.pcs| && (s.threads[t].Waiting? || s.threads[t].Signalling? || s.threads[t].Posting?)
      then SemStep(s, t, choice) else s
    case Take(t, p, n) =>
      if t < |s.threads| && p < |s.queues| && s.threads[t].Redeeming? then
        var th := s.threads[t];
        if n <= |s.queues[p]| && th.count + th.inner + n <= th.want <= |th.out| then
          var xs := s.queues[p][..n];
          Set(s, t, th.(inner := th.inner + n, out := Written(th.out, th.count + th.inner, xs), got := th.got + xs))
            .(queues := s.queues[p := s.queues[p][n..]], redeemed := s.redeemed + n, log := s.log + [Took(t, p, xs)])
        else s
      else s
    case EndInner(t) =>
      if t < |s.threads| && s.threads[t].Redeeming? then
        var th := s.threads[t];
        Set(s, t, Loop(th.want, th.count + th.inner, th.out, th.got))
      else s
    case Return(t) =>
      if t < |s.threads| && s.threads[t].Done? then
        Set(s.(delivered := s.delivered + s.threads[t].got, log := s.log + [Handed(t)]), t, Idle)
      else s
  }

  function Run<T>(s: State<T>, schedule: seq<Action<T>>): State<T>
    decreases |schedule|
  {
    if schedule == [] then s else Run(Step(s, schedule[0]), schedule[1..])
  }

  ghost predicate Init<T>(s: State<T>) {
    && Semaphore.Init(s.sem) && s.sem.count == 0 && |s.sem.pcs| == |s.threads|
    && (forall p :: 0 <= p < |s.queues| ==> s.queues[p] == [])
    && (forall t :: 0 <= t < |s.threads| ==> s.threads[t] == Idle)
    && s.enqueued == [] && s.redeemed == 0 && s.delivered == [] && s.log == []
  }

  // ---------------------------------------------------------------- the invariant

  predicate IsWait(pc: Semaphore.Pc) { !pc.Idle? && !pc.SignalAdd? && !pc.Post? }

  /** How many permits a wait asked for. */
  function Asked(pc: Semaphore.Pc): nat
    requires IsWait(pc)
  {
    if pc.TryLoad? || pc.TryCas? then pc.max + pc.got else pc.max
  }

  /** A thread's semaphore call is where its queue call has it. */
  predicate Linked<T>(th: Thread<T>, pc: Semaphore.Pc) {
    match th
    case Waiting(max, _, _) => IsWait(pc) && Asked(pc) == max
    case Signalling(n) => pc == Semaphore.SignalAdd(n)
    case Posting => pc.Post?
    case _ => pc == Semaphore.Idle
  }

  /** Every position below the number of elements so far is filled, with them in order, and no other. */
  ghost predicate Filled<T>(out: seq<Option<T>>, got: seq<T>) {
    && |got| <= |out|
    && forall j :: 0 <= j < |out| ==> out[j] == if j < |got| then Some(got[j]) else None
  }

  ghost predicate BufferOk<T>(th: Thread<T>) {
    match th
    case Redeeming(want, count, inner, out, got) =>
      count < want <= |out| && |got| == count + inner <= want && Filled(out, got)
    case Done(count, out, got) => |got| == count <= |out| && Filled(out, got)
    case _ => true
  }

  function Outstanding<T>(th: Thread<T>): nat {
    if th.Redeeming? && th.want >= th.count + th.inner then th.want - (th.count + th.inner) else 0
  }

  function Unsignalled<T>(th: Thread<T>): nat { if th.Signalling? then th.n else 0 }

  function OutstandingW<T>(): Thread<T> -> nat { (th: Thread<T>) => Outstanding(th) }
  function UnsignalledW<T>(): Thread<T> -> nat { (th: Thread<T>) => Unsignalled(th) }
  function SizeW<T>(): seq<T> -> nat { (q: seq<T>) => |q| }

  /** Elements not claimed yet, over all producers. */
  function Elements<T>(s: State<T>): nat { Total(s.queues, SizeW()) }

  /** Permits a thread has taken and not redeemed yet. */
  function Unredeemed<T>(s: State<T>): nat { Total(s.threads, OutstandingW()) }

  function Held<T>(th: Thread<T>): seq<T> { if th.Redeeming? || th.Done? then th.got else [] }

  function HeldRows<T>(threads: seq<Thread<T>>): (rows: seq<seq<T>>)
    ensures |rows| == |threads| && forall t :: 0 <= t < |threads| ==> rows[t] == Held(threads[t])
  {
    seq(|threads|, t requires 0 <= t < |threads| => Held(threads[t]))
  }

  ghost predicate PermitInv<T>(s: State<T>) {
    && Semaphore.Inv(s.sem, 0) && |s.sem.pcs| == |s.threads|
    && Total(s.sem.results, Semaphore.TakenW()) == s.redeemed + Unredeemed(s)
    && Elements(s) + s.redeemed == s.sem.signalled + Total(s.threads, UnsignalledW())
  }

  ghost predicate ThreadInv<T>(s: State<T>) {
    |s.sem.pcs| == |s.threads| && forall t {:trigger s.threads[t]} :: 0 <= t < |s.threads| ==>
      Linked(s.threads[t], s.sem.pcs[t]) && BufferOk(s.threads[t])
  }

  ghost predicate BagInv<T>(s: State<T>) {
    multiset(s.enqueued) == Bag(s.queues) + Bag(HeldRows(s.threads)) + multiset(s.delivered)
  }

  ghost predicate Inv<T>(s: State<T>) { PermitInv(s) && ThreadInv(s) && BagInv(s) }

  // ---------------------------------------------------------------- the semaphore underneath

  ghost predicate SameElsewhere<T>(before: seq<T>, after: seq<T>, t: nat) {
    |after| == |before| && t < |before| && forall u :: 0 <= u < |before| && u != t ==> after[u] == before[u]
  }

  /** A wait goes on asking for the same number of permits until it returns that many at most. */
  lemma WaitGoes(m: Semaphore.State, t: nat, choice: bool)
    requires t < |m.pcs| && Semaphore.PcOk(m.pcs[t]) && IsWait(m.pcs[t])
    ensures var m' := Semaphore.Step(m, Semaphore.Go(t, choice));
      && SameElsewhere(m.pcs, m'.pcs, t) && m'.signalled == m.signalled
      && (if m'.pcs[t].Idle?
          then |m'.results| == |m.results| + 1 && m'.results == m.results + [m'.results[|m.results|]]
               && m'.results[|m.results|].max == Asked(m.pcs[t])
          else IsWait(m'.pcs[t]) && Asked(m'.pcs[t]) == Asked(m.pcs[t]) && m'.results == m.results)
  {}

  lemma SignalGoes(m: Semaphore.State, t: nat, choice: bool)
    requires t < |m.pcs| == |m.calls| && Semaphore.PcOk(m.pcs[t]) && (m.pcs[t].SignalAdd? || m.pcs[t].Post?)
    ensures var m' := Semaphore.Step(m, Semaphore.Go(t, choice));
      && SameElsewhere(m.pcs, m'.pcs, t) && m'.results == m.results
      && m'.signalled == m.signalled + (if m.pcs[t].SignalAdd? then m.pcs[t].n else 0)
      && (m'.pcs[t].Idle? || m'.pcs[t].Post?)
  {}

  lemma WaitStarts(m: Semaphore.State, t: nat, max: nat, mode: Semaphore.Mode)
    requires t < |m.pcs| && m.pcs[t] == Semaphore.Idle
    ensures var m' := Semaphore.Step(m, Semaphore.Wait(t, max, mode));
      && SameElsewhere(m.pcs, m'.pcs, t) && IsWait(m'.pcs[t]) && Asked(m'.pcs[t]) == max
      && m'.results == m.results && m'.signalled == m.signalled
  {}

  lemma SignalStarts(m: Semaphore.State, t: nat, n: nat)
    requires t < |m.pcs| && m.pcs[t] == Semaphore.Idle
    ensures var m' := Semaphore.Step(m, Semaphore.Signal(t, n));
      && SameElsewhere(m.pcs, m'.pcs, t) && m'.pcs[t] == Semaphore.SignalAdd(n)
      && m'.results == m.results && m'.signalled == m.signalled
  {}

  // ---------------------------------------------------------------- sums

  lemma SumsAfter<T>(threads: seq<Thread<T>>, t: nat, th: Thread<T>)
    requires t < |threads|
    ensures Total(threads[t := th], OutstandingW()) + Outstanding(threads[t])
         == Total(threads, OutstandingW()) + Outstanding(th)
    ensures Total(threads[t := th], UnsignalledW()) + Unsignalled(threads[t])
         == Total(threads, UnsignalledW()) + Unsignalled(th)
    ensures Bag(HeldRows(threads[t := th])) + multiset(Held(threads[t])) == Bag(HeldRows(threads)) + multiset(Held(th))
  {
    TotalUpdate(threads, OutstandingW(), t, th);
    TotalUpdate(threads, UnsignalledW(), t, th);
    BagUpdate(HeldRows(threads), t, Held(th));
    assert HeldRows(threads[t := th]) == HeldRows(threads)[t := Held(th)];
  }

  /** What a step of thread t has to show about its own thread and the totals. */
  ghost predicate StepOk<T>(s: State<T>, s': State<T>, t: nat) {
    && t < |s.threads| == |s'.threads| == |s.sem.pcs| == |s'.sem.pcs|
    && SameElsewhere(s.threads, s'.threads, t) && SameElsewhere(s.sem.pcs, s'.sem.pcs, t)
    && Semaphore.Inv(s'.sem, 0)
    && Linked(s'.threads[t], s'.sem.pcs[t]) && BufferOk(s'.threads[t])
    && Total(s'.sem.results, Semaphore.TakenW()) - Total(s.sem.results, Semaphore.TakenW())
         == s'.redeemed - s.redeemed + Outstanding(s'.threads[t]) - Outstanding(s.threads[t])
    && Elements(s') + s'.redeemed - Elements(s) - s.redeemed
         == s'.sem.signalled - s.sem.signalled + Unsignalled(s'.threads[t]) - Unsignalled(s.threads[t])
  }

  lemma StepOkKeeps<T>(s: State<T>, s': State<T>, t: nat)
    requires PermitInv(s) && ThreadInv(s) && StepOk(s, s', t)
    ensures PermitInv(s') && ThreadInv(s') && s'.threads == s.threads[t := s'.threads[t]]
  {
    assert s'.threads == s.threads[t := s'.threads[t]];
    SumsAfter(s.threads, t, s'.threads[t]);
  }

  /** What a step of thread t has to show about the elements. */
  ghost predicate BagOk<T>(s: State<T>, s': State<T>, t: nat)
    requires t < |s.threads| == |s'.threads|
  {
    multiset(s'.enqueued) + Bag(s.queues) + multiset(Held(s.threads[t])) + multiset(s.delivered)
      == multiset(s.enqueued) + Bag(s'.queues) + multiset(Held(s'.threads[t])) + multiset(s'.delivered)
  }

  lemma BagOkKeeps<T>(s: State<T>, s': State<T>, t: nat)
    requires BagInv(s) && t < |s.threads| == |s'.threads| && s'.threads == s.threads[t := s'.threads[t]]
    requires BagOk(s, s', t)
    ensures BagInv(s')
  {
    SumsAfter(s.threads, t, s'.threads[t]);
    Balance(multiset(s.enqueued), Bag(s.queues), Bag(HeldRows(s.threads)), multiset(s.delivered),
            multiset(s'.enqueued), Bag(s'.queues), Bag(HeldRows(s'.threads)), multiset(s'.delivered),
            multiset(Held(s.threads[t])), multiset(Held(s'.threads[t])));
  }

  lemma Conclude<T>(s: State<T>, s': State<T>, t: nat)
    requires Inv(s) && StepOk(s, s', t) && BagOk(s, s', t)
    ensures Inv(s')
  {
    hide PermitInv, ThreadInv, BagInv, BagOk;
    StepOkKeeps(s, s', t);
    BagOkKeeps(s, s', t);
  }

  lemma EnqueueSum<T>(queues: seq<seq<T>>, p: nat, q: seq<T>)
    requires p < |queues|
    ensures Total(queues[p := q], SizeW()) + |queues[p]| == Total(queues, SizeW()) + |q|
  {
    TotalUpdate(queues, SizeW(), p, q);
  }

  // ---------------------------------------------------------------- steps

  lemma Own<T>(s: State<T>, t: nat)
    requires PermitInv(s) && ThreadInv(s) && t < |s.threads|
    ensures t < |s.sem.pcs| == |s.threads| && Linked(s.threads[t], s.sem.pcs[t]) && BufferOk(s.threads[t])
    ensures Semaphore.Inv(s.sem, 0) && |s.sem.calls| == |s.sem.pcs| && Semaphore.PcOk(s.sem.pcs[t])
  {}

  /** A step that moves no elements. */
  lemma SameBags<T>(s: State<T>, s': State<T>, t: nat)
    requires t < |s.threads| == |s'.threads| && Held(s'.threads[t]) == Held(s.threads[t])
    requires s'.queues == s.queues && s'.enqueued == s.enqueued && s'.delivered == s.delivered
    ensures BagOk(s, s', t)
  {}

  lemma EnqueueBag<T>(s: State<T>, t: nat, p: nat, xs: seq<T>)
    requires t < |s.threads| && s.threads[t] == Idle && p < |s.queues|
    ensures BagOk(s, Step(s, Enqueue(t, p, xs, true)), t)
  {
    var q := s.queues[p];
    BagUpdate(s.queues, p, q + xs);
    Moved(Bag(s.queues), Bag(s.queues[p := q + xs]), multiset(q), multiset(q + xs), multiset(xs));
    hide Bag;
  }

  lemma EnqueueOk<T>(s: State<T>, t: nat, p: nat, xs: seq<T>)
    requires PermitInv(s) && ThreadInv(s) && t < |s.threads| && s.threads[t] == Idle && p < |s.queues|
    ensures var s' := Step(s, Enqueue(t, p, xs, true)); StepOk(s, s', t) && BagOk(s, s', t)
  {
    hide PermitInv, ThreadInv, Semaphore.Inv, Semaphore.Step, BagOk;
    Own(s, t);
    SignalStarts(s.sem, t, |xs|);
    Semaphore.StepKeeps(s.sem, Semaphore.Signal(t, |xs|), 0);
    EnqueueSum(s.queues, p, s.queues[p] + xs);
    EnqueueBag(s, t, p, xs);
  }

  lemma DequeueOk<T>(s: State<T>, t: nat, max: nat, mode: Semaphore.Mode, single: bool)
    requires PermitInv(s) && ThreadInv(s) && t < |s.threads| && s.threads[t] == Idle && (single ==> max == 1)
    ensures var s' := Step(s, Dequeue(t, max, mode, single)); StepOk(s, s', t) && BagOk(s, s', t)
  {
    hide PermitInv, ThreadInv, Semaphore.Inv, Semaphore.Step, BagOk;
    Own(s, t);
    WaitStarts(s.sem, t, max, mode);
    Semaphore.StepKeeps(s.sem, Semaphore.Wait(t, max, mode), 0);
    SameBags(s, Step(s, Dequeue(t, max, mode, single)), t);
  }

  lemma TakeBag<T>(s: State<T>, t: nat, p: nat, n: nat)
    requires Step(s, Take(t, p, n)) != s
    ensures t < |s.threads| && BagOk(s, Step(s, Take(t, p, n)), t)
  {
    hide Written;
    var q := s.queues[p];
    BagUpdate(s.queues, p, q[n..]);
    SplitBag(q, n);
    Moved(Bag(s.queues[p := q[n..]]), Bag(s.queues), multiset(q[n..]), multiset(q), multiset(q[..n]));
    hide Bag;
  }

  /** The buffer goes on being filled in order. */
  lemma FilledMore<T>(out: seq<Option<T>>, got: seq<T>, xs: seq<T>)
    requires Filled(out, got) && |got| + |xs| <= |out|
    ensures Filled(Written(out, |got|, xs), got + xs)
  {}

  lemma TakeOk<T>(s: State<T>, t: nat, p: nat, n: nat)
    requires PermitInv(s) && ThreadInv(s) && Step(s, Take(t, p, n)) != s
    ensures t < |s.threads|
    ensures var s' := Step(s, Take(t, p, n)); StepOk(s, s', t) && BagOk(s, s', t)
  {
    hide PermitInv, ThreadInv, Semaphore.Inv, BagOk, Filled, Written;
    Own(s, t);
    var th := s.threads[t];
    EnqueueSum(s.queues, p, s.queues[p][n..]);
    FilledMore(th.out, th.got, s.queues[p][..n]);
    TakeBag(s, t, p, n);
  }

  lemma EndInnerOk<T>(s: State<T>, t: nat)
    requires PermitInv(s) && ThreadInv(s) && t < |s.threads| && s.threads[t].Redeeming?
    ensures var s' := Step(s, EndInner(t)); StepOk(s, s', t) && BagOk(s, s', t)
  {
    hide PermitInv, ThreadInv, Semaphore.Inv, Filled, BagOk;
    Own(s, t);
    SameBags(s, Step(s, EndInner(t)), t);
  }

  lemma ReturnOk<T>(s: State<T>, t: nat)
    requires PermitInv(s) && ThreadInv(s) && t < |s.threads| && s.threads[t].Done?
    ensures var s' := Step(s, Return(t)); StepOk(s, s', t) && BagOk(s, s', t)
  {
    hide PermitInv, ThreadInv, Semaphore.Inv;
    Own(s, t);
  }

  lemma ResultTaken(m: Semaphore.State, o: Semaphore.Outcome)
    requires Semaphore.Inv(m, 0) && m.results != [] && o == m.results[|m.results| - 1]
    ensures o.taken <= o.max
  {}

  lemma NothingFilled<T>(max: nat, taken: nat)
    requires taken <= max
    ensures BufferOk(Loop(taken, 0, Blank<T>(max), [])) && !Loop(taken, 0, Blank<T>(max), []).Waiting?
    ensures Linked(Loop(taken, 0, Blank<T>(max), []), Semaphore.Idle)
        && Unsignalled(Loop(taken, 0, Blank<T>(max), [])) == 0
    ensures Outstanding(Loop(taken, 0, Blank<T>(max), [])) == taken && Held(Loop(taken, 0, Blank<T>(max), [])) == []
  {}

  /** The semaphore call of a dequeue comes back. */
  lemma WaitEnds<T>(s: State<T>, t: nat, m: Semaphore.State)
    requires PermitInv(s) && ThreadInv(s) && t < |s.threads| && s.threads[t].Waiting?
    requires Semaphore.Inv(m, 0) && SameElsewhere(s.sem.pcs, m.pcs, t) && m.pcs[t] == Semaphore.Idle
    requires m.signalled == s.sem.signalled && |m.results| == |s.sem.results| + 1
    requires m.results == s.sem.results + [m.results[|s.sem.results|]]
    requires m.results[|s.sem.results|].max == s.threads[t].max
    ensures var s1 := s.(sem := m);
      var th := AfterSem(s1, t);
      var s' := Set(s1, t, th);
      && (if th.Waiting?
          then th == s.threads[t]
               && StepOk(s, s'.(sem := Semaphore.Step(m, Semaphore.Wait(t, th.max, th.mode))), t)
          else StepOk(s, s', t))
      && Held(th) == []
  {
    hide PermitInv, ThreadInv, Semaphore.Inv, Semaphore.Step, BufferOk, Loop, IsWait, Asked, Filled;
    var th := s.threads[t];
    var o := m.results[|s.sem.results|];
    Own(s, t);
    ResultTaken(m, o);
    TotalAppend(s.sem.results, Semaphore.TakenW(), o);
    WaitStarts(m, t, th.max, th.mode);
    Semaphore.StepKeeps(m, Semaphore.Wait(t, th.max, th.mode), 0);
    NothingFilled<T>(th.max, o.taken);
  }

  lemma WaitGoesOn<T>(s: State<T>, t: nat, m: Semaphore.State)
    requires PermitInv(s) && ThreadInv(s) && t < |s.threads| && s.threads[t].Waiting?
    requires Semaphore.Inv(m, 0) && SameElsewhere(s.sem.pcs, m.pcs, t)
    requires IsWait(m.pcs[t]) && Asked(m.pcs[t]) == s.threads[t].max
    requires m.signalled == s.sem.signalled && m.results == s.sem.results
    ensures StepOk(s, s.(sem := m), t)
  {
    hide PermitInv, ThreadInv, Semaphore.Inv;
    Own(s, t);
  }

  lemma WaitOk<T>(s: State<T>, t: nat, choice: bool)
    requires PermitInv(s) && ThreadInv(s) && t < |s.threads| && s.threads[t].Waiting? && |s.sem.pcs| == |s.threads|
    ensures var s' := SemStep(s, t, choice);
      && StepOk(s, s', t) && Held(s'.threads[t]) == Held(s.threads[t])
      && s'.queues == s.queues && s'.enqueued == s.enqueued && s'.delivered == s.delivered
  {
    hide PermitInv, ThreadInv, Semaphore.Inv, Semaphore.Step, StepOk;
    Own(s, t);
    WaitGoes(s.sem, t, choice);
    Semaphore.StepKeeps(s.sem, Semaphore.Go(t, choice), 0);
    var m := Semaphore.Step(s.sem, Semaphore.Go(t, choice));
    if m.pcs[t].Idle? { WaitEnds(s, t, m); } else { WaitGoesOn(s, t, m); }
    hide AfterSem;
  }

  lemma SignalOk<T>(s: State<T>, t: nat, choice: bool)
    requires PermitInv(s) && ThreadInv(s) && t < |s.threads| && (s.threads[t].Signalling? || s.threads[t].Posting?)
    requires |s.sem.pcs| == |s.threads|
    ensures var s' := SemStep(s, t, choice);
      && StepOk(s, s', t) && Held(s'.threads[t]) == Held(s.threads[t])
      && s'.queues == s.queues && s'.enqueued == s.enqueued && s'.delivered == s.delivered
  {
    hide PermitInv, ThreadInv, Semaphore.Inv, Semaphore.Step;
    Own(s, t);
    SignalGoes(s.sem, t, choice);
    Semaphore.StepKeeps(s.sem, Semaphore.Go(t, choice), 0);
  }

  lemma SemKeeps<T>(s: State<T>, t: nat, choice: bool)
    requires Inv(s) && t < |s.threads| == |s.sem.pcs|
    requires s.threads[t].Waiting? || s.threads[t].Signalling? || s.threads[t].Posting?
    ensures Inv(SemStep(s, t, choice))
  {
    hide SemStep, PermitInv, ThreadInv, BagInv;
    if s.threads[t].Waiting? { WaitOk(s, t, choice); } else { SignalOk(s, t, choice); }
    Conclude(s, SemStep(s, t, choice), t);
  }

  lemma StepKeeps<T>(s: State<T>, a: Action<T>)
    requires Inv(s)
    ensures Inv(Step(s, a))
  {
    hide SemStep, PermitInv, ThreadInv, BagInv, StepOk, BagOk;
    var s' := Step(s, a);
    if s' != s {
      match a
      case Enqueue(t, p, xs, ok) => EnqueueOk(s, t, p, xs); Conclude(s, s', t);
      case Dequeue(t, max, mode, single) => DequeueOk(s, t, max, mode, single); Conclude(s, s', t);
      case Sem(t, choice) => SemKeeps(s, t, choice);
      case Take(t, p, n) => TakeOk(s, t, p, n); Conclude(s, s', t);
      case EndInner(t) => EndInnerOk(s, t); Conclude(s, s', t);
      case Return(t) => ReturnOk(s, t); Conclude(s, s', t);
    }
  }

  lemma {:induction false} RunKeeps<T>(s: State<T>, schedule: seq<Action<T>>)
    requires Inv(s)
    ensures Inv(Run(s, schedule))
    decreases |schedule|
  {
    hide Inv;
    if schedule != [] {
      StepKeeps(s, schedule[0]);
      RunKeeps(Step(s, schedule[0]), schedule[1..]);
    }
  }

  lemma SemStart(m: Semaphore.State)
    requires Semaphore.Init(m) && m.count == 0
    ensures Semaphore.Inv(m, 0) && m.results == [] && m.signalled == 0
    ensures forall t :: 0 <= t < |m.pcs| ==> m.pcs[t] == Semaphore.Idle
  {
    Semaphore.ReachableInv(m, []);
  }

  lemma InitInv<T>(s: State<T>)
    requires Init(s)
    ensures Inv(s)
  {
    hide Semaphore.Inv, Semaphore.Init;
    SemStart(s.sem);
    TotalZero(s.threads, OutstandingW());
    TotalZero(s.threads, UnsignalledW());
    TotalZero(s.queues, SizeW());
    BagEmpty(s.queues);
    BagEmpty(HeldRows(s.threads));
  }

  lemma ReachableInv<T>(s0: State<T>, schedule: seq<Action<T>>)
    requires Init(s0)
    ensures Inv(Run(s0, schedule))
  {
    InitInv(s0);
    RunKeeps(s0, schedule);
  }

  // ---------------------------------------------------------------- what holds in every run

  /** Permits that a wait could still take: available, or posted, or owed. */
  function Available<T>(s: State<T>): nat {
    Max0(s.sem.count) + s.sem.os + Semaphore.OwedPosts(s.sem)
  }

  /** Every permit, available or taken and not redeemed yet, is backed by an element of its own that nobody
      has claimed. */
  lemma PermitsAreBacked<T>(s0: State<T>, schedule: seq<Action<T>>)
    requires Init(s0)
    ensures var s := Run(s0, schedule);
      Elements(s) == Available(s) + Total(s.sem.pcs, Semaphore.GotW()) + Unredeemed(s)
                     + Total(s.threads, UnsignalledW())
  {
    ReachableInv(s0, schedule);
  }

  /** A retry loop that is still short of elements never faces an empty queue: as many elements as it and
      all the others lack together are still there. */
  lemma RetryFindsElements<T>(s0: State<T>, schedule: seq<Action<T>>, t: nat) returns (p: nat)
    requires Init(s0) && t < |Run(s0, schedule).threads| && Outstanding(Run(s0, schedule).threads[t]) > 0
    ensures var s := Run(s0, schedule);
      && Outstanding(s.threads[t]) <= Unredeemed(s) <= Elements(s)
      && p < |s.queues| && s.queues[p] != []
  {
    var s := Run(s0, schedule);
    ReachableInv(s0, schedule);
    TotalMember(s.threads, OutstandingW(), t);
    p := TotalPositive(s.queues, SizeW());
  }

  /** A dequeue returns with positions 0, ..., count - 1 of its buffer filled, each once and in the order
      taken, and the others untouched; it never takes more elements than it has permits. */
  lemma BufferFilledOnce<T>(s0: State<T>, schedule: seq<Action<T>>, t: nat)
    requires Init(s0) && t < |Run(s0, schedule).threads|
    ensures var th := Run(s0, schedule).threads[t];
      && (th.Redeeming? ==> |th.got| == th.count + th.inner <= th.want <= |th.out| && Filled(th.out, th.got))
      && (th.Done? ==> |th.got| == th.count <= |th.out| && Filled(th.out, th.got))
  {
    ReachableInv(s0, schedule);
  }

  /** Elements are neither lost nor duplicated. */
  lemma ElementsConserved<T>(s0: State<T>, schedule: seq<Action<T>>)
    requires Init(s0)
    ensures var s := Run(s0, schedule);
      multiset(s.enqueued) == Bag(s.queues) + Bag(HeldRows(s.threads)) + multiset(s.delivered)
  {
    ReachableInv(s0, schedule);
  }

  /** With no call in flight the semaphore's count is exactly the number of elements. */
  lemma SettledCountIsSize<T>(s0: State<T>, schedule: seq<Action<T>>)
    requires Init(s0)
    requires forall t :: 0 <= t < |Run(s0, schedule).threads| ==> Run(s0, schedule).threads[t] == Idle
    ensures var s := Run(s0, schedule);
      && s.sem.count == Elements(s) && s.sem.os == 0
      && multiset(s.enqueued) == Bag(s.queues) + multiset(s.delivered)
  {
    hide Inv, Run, Init;
    ReachableInv(s0, schedule);
    Settled(Run(s0, schedule));
  }

  lemma Settled<T>(s: State<T>)
    requires Inv(s) && forall t :: 0 <= t < |s.threads| ==> s.threads[t] == Idle
    ensures s.sem.count == Elements(s) && s.sem.os == 0
    ensures multiset(s.enqueued) == Bag(s.queues) + multiset(s.delivered)
  {
    forall t | 0 <= t < |s.sem.pcs| ensures s.sem.pcs[t] == Semaphore.Idle {
      assert Linked(s.threads[t], s.sem.pcs[t]);
    }
    TotalZero(s.sem.pcs, Semaphore.WaitingW());
    TotalZero(s.sem.pcs, Semaphore.GotW());
    TotalZero(s.threads, OutstandingW());
    TotalZero(s.threads, UnsignalledW());
    BagEmpty(HeldRows(s.threads));
    hide Linked, BufferOk, Bag, ThreadInv;
  }

  /** Where a waiting thread is when its semaphore call has come back with p permits: it redeems exactly p, or is
      done if p is zero; but a blocking call for one element starts over until it has its permit. */
  function Granted<T>(th: Thread<T>, p: nat): Thread<T>
    requires th.Waiting?
  {
    if p > 0 then Redeeming(p, 0, 0, Blank(th.max), [])
    else if th.single && th.mode == Semaphore.Forever then th
    else Done(0, Blank(th.max), [])
  }

  lemma AfterIsGranted<T>(s: State<T>, t: nat)
    requires t < |s.threads| && s.threads[t].Waiting? && s.sem.results != []
    ensures AfterSem(s, t) == Granted(s.threads[t], s.sem.results[|s.sem.results| - 1].taken)
  {}

  lemma SemGrants<T>(s: State<T>, t: nat, choice: bool)
    requires t < |s.threads| == |s.sem.pcs| && s.threads[t].Waiting?
    requires var m := Semaphore.Step(s.sem, Semaphore.Go(t, choice));
      && t < |m.pcs|
      && (if m.pcs[t] == Semaphore.Idle then |m.results| == |s.sem.results| + 1 else m.results == s.sem.results)
    requires var m := Semaphore.Step(s.sem, Semaphore.Go(t, choice));
      var m' := Semaphore.Step(m, Semaphore.Wait(t, s.threads[t].max, s.threads[t].mode));
      m.pcs[t] == Semaphore.Idle ==> m'.results == m.results
    ensures var s' := SemStep(s, t, choice);
      && |s'.threads| == |s.threads|
      && s'.sem.results == Semaphore.Step(s.sem, Semaphore.Go(t, choice)).results
      && s'.threads[t] == (if |s'.sem.results| == |s.sem.results| then s.threads[t]
                           else Granted(s.threads[t], s'.sem.results[|s'.sem.results| - 1].taken))
  {
    hide Semaphore.Step, AfterSem, Granted;
    var s1 := s.(sem := Semaphore.Step(s.sem, Semaphore.Go(t, choice)));
    if s1.sem.pcs[t] == Semaphore.Idle {
      AfterIsGranted(s1, t);
      GrantedAgain(s.threads[t], s1.sem.results[|s1.sem.results| - 1].taken);
    }
  }

  lemma GrantedAgain<T>(th: Thread<T>, p: nat)
    requires th.Waiting?
    ensures Granted(th, p).Waiting? ==> Granted(th, p) == th
  {}

  /** In every run a waiting call goes on as its semaphore call grants, with no more permits than it asked for. */
  lemma GrantedPermits<T>(s0: State<T>, schedule: seq<Action<T>>, t: nat, choice: bool)
    requires Init(s0) && t < |Run(s0, schedule).threads| && Run(s0, schedule).threads[t].Waiting?
    ensures var s, s' := Run(s0, schedule), Step(Run(s0, schedule), Sem(t, choice));
      var th := s.threads[t];
      && |s'.threads| == |s.threads| && |s.sem.results| <= |s'.sem.results| <= |s.sem.results| + 1
      && (if |s'.sem.results| == |s.sem.results| then s'.threads[t] == th
          else
            var p := s'.sem.results[|s.sem.results|].taken;
            p <= th.max && s'.threads[t] == Granted(th, p))
  {
    hide PermitInv, ThreadInv, BagInv, Run, Init, Granted, SemStep, Step;
    var s := Run(s0, schedule);
    ReachableInv(s0, schedule);
    Own(s, t);
    SemIs(s, t, choice);
    GrantedHere(s, t, choice);
  }

  lemma SemIs<T>(s: State<T>, t: nat, choice: bool)
    requires t < |s.threads| == |s.sem.pcs| && s.threads[t].Waiting?
    ensures Step(s, Sem(t, choice)) == SemStep(s, t, choice)
  {
    hide SemStep;
  }

  lemma GrantedHere<T>(s: State<T>, t: nat, choice: bool)
    requires PermitInv(s) && ThreadInv(s) && t < |s.threads| == |s.sem.pcs| && s.threads[t].Waiting?
    ensures var s' := SemStep(s, t, choice);
      var th := s.threads[t];
      && |s'.threads| == |s.threads| && |s.sem.results| <= |s'.sem.results| <= |s.sem.results| + 1
      && (if |s'.sem.results| == |s.sem.results| then s'.threads[t] == th
          else
            var p := s'.sem.results[|s.sem.results|].taken;
            p <= th.max && s'.threads[t] == Granted(th, p))
  {
    hide PermitInv, ThreadInv, Semaphore.Inv, Semaphore.Step, Granted, SemStep, Filled;
    Own(s, t);
    WaitGoes(s.sem, t, choice);
    Semaphore.StepKeeps(s.sem, Semaphore.Go(t, choice), 0);
    var m := Semaphore.Step(s.sem, Semaphore.Go(t, choice));
    if m.pcs[t].Idle? {
      ResultTaken(m, m.results[|s.sem.results|]);
      WaitStarts(m, t, s.threads[t].max, s.threads[t].mode);
    }
    SemGrants(s, t, choice);
  }

  /** A call that redeems is done exactly when it has an element for each permit it was granted. */
  lemma DoneWhenRedeemed<T>(s0: State<T>, schedule: seq<Action<T>>, t: nat)
    requires Init(s0) && t < |Run(s0, schedule).threads| && Run(s0, schedule).threads[t].Redeeming?
    ensures var s, s' := Run(s0, schedule), Step(Run(s0, schedule), EndInner(t));
      var th := s.threads[t];
      && |s'.threads| == |s.threads| && |th.got| == th.count + th.inner <= th.want
      && s'.threads[t] == (if |th.got| == th.want then Done(th.want, th.out, th.got)
                           else Redeeming(th.want, |th.got|, 0, th.out, th.got))
  {
    hide Filled, Run;
    BufferFilledOnce(s0, schedule, t);
  }

  // ---------------------------------------------------------------- order

  /** All that has been put into sub-queue p, in order. */
  function PutInto<T>(log: seq<Event<T>>, p: nat): seq<T> {
    if log == [] then []
    else
      var before, e := PutInto(log[..|log| - 1], p), log[|log| - 1];
      if e.Put? && e.p == p then before + e.xs else before
  }

  /** All that has been taken from sub-queue p, by whomever, in order. */
  function TakenFrom<T>(log: seq<Event<T>>, p: nat): seq<T> {
    if log == [] then []
    else
      var before, e := TakenFrom(log[..|log| - 1], p), log[|log| - 1];
      if e.Took? && e.p == p then before + e.xs else before
  }

  /** What thread t has taken in its present call, run after run. */
  function GotBy<T>(log: seq<Event<T>>, t: nat): seq<T> {
    if log == [] then []
    else
      var before, e := GotBy(log[..|log| - 1], t), log[|log| - 1];
      if e.Took? && e.t == t then before + e.xs else if e.Handed? && e.t == t then [] else before
  }

  /** The elements taken by event i are, among all that is put into their sub-queue, the next ones after those
      taken before. */
  ghost predicate NextInLine<T>(log: seq<Event<T>>, i: nat)
    requires i < |log| && log[i].Took?
  {
    var put, k, xs := PutInto(log, log[i].p), |TakenFrom(log[..i], log[i].p)|, log[i].xs;
    k + |xs| <= |put| && xs == put[k..k + |xs|]
  }

  ghost predicate AllInLine<T>(log: seq<Event<T>>) { forall i :: 0 <= i < |log| && log[i].Took? ==> NextInLine(log, i) }

  ghost predicate QueuesOk<T>(log: seq<Event<T>>, queues: seq<seq<T>>) {
    forall p :: 0 <= p < |queues| ==> PutInto(log, p) == TakenFrom(log, p) + queues[p]
  }

  ghost predicate GotOk<T>(log: seq<Event<T>>, threads: seq<Thread<T>>) {
    forall t :: 0 <= t < |threads| ==> GotBy(log, t) == Held(threads[t])
  }

  ghost predicate OrderInv<T>(s: State<T>) { QueuesOk(s.log, s.queues) && GotOk(s.log, s.threads) && AllInLine(s.log) }

  lemma Logged<T>(log: seq<Event<T>>, e: Event<T>, p: nat, t: nat)
    ensures PutInto(log + [e], p) == PutInto(log, p) + (if e.Put? && e.p == p then e.xs else [])
    ensures TakenFrom(log + [e], p) == TakenFrom(log, p) + (if e.Took? && e.p == p then e.xs else [])
    ensures GotBy(log + [e], t)
         == if e.Handed? && e.t == t then [] else GotBy(log, t) + (if e.Took? && e.t == t then e.xs else [])
  {
    assert (log + [e])[..|log|] == log;
  }

  lemma StillInLine<T>(log: seq<Event<T>>, e: Event<T>)
    requires AllInLine(log)
    requires e.Took? ==>
      var put, taken := PutInto(log, e.p), TakenFrom(log, e.p); taken + e.xs <= put
    ensures AllInLine(log + [e])
  {
    var log' := log + [e];
    forall i | 0 <= i < |log'| && log'[i].Took? ensures NextInLine(log', i) {
      Logged(log, e, log'[i].p, 0);
      if i < |log| {
        assert NextInLine(log, i) && log'[..i] == log[..i];
      } else {
        assert log'[..i] == log;
      }
    }
  }

  lemma PutOrder<T>(s: State<T>, t: nat, p: nat, xs: seq<T>)
    requires OrderInv(s) && t < |s.threads| && s.threads[t] == Idle && p < |s.queues|
    ensures OrderInv(Step(s, Enqueue(t, p, xs, true)))
  {
    hide AllInLine, Semaphore.Step, PutInto, TakenFrom, GotBy;
    var e := Put(p, xs);
    var s' := Step(s, Enqueue(t, p, xs, true));
    StillInLine(s.log, e);
    assert (TakenFrom(s.log, p) + s.queues[p]) + xs == TakenFrom(s.log, p) + (s.queues[p] + xs);
    forall q | 0 <= q < |s'.queues| ensures PutInto(s'.log, q) == TakenFrom(s'.log, q) + s'.queues[q] {
      Logged(s.log, e, q, 0);
    }
    forall u | 0 <= u < |s'.threads| ensures GotBy(s'.log, u) == Held(s'.threads[u]) { Logged(s.log, e, 0, u); }
  }

  lemma TakeOrder<T>(s: State<T>, t: nat, p: nat, n: nat)
    requires OrderInv(s) && Step(s, Take(t, p, n)) != s
    ensures OrderInv(Step(s, Take(t, p, n)))
  {
    hide AllInLine, Written, PutInto, TakenFrom, GotBy;
    var xs := s.queues[p][..n];
    var e := Took(t, p, xs);
    var s' := Step(s, Take(t, p, n));
    assert TakenFrom(s.log, p) + s.queues[p] == TakenFrom(s.log, p) + xs + s.queues[p][n..];
    StillInLine(s.log, e);
    forall q | 0 <= q < |s'.queues| ensures PutInto(s'.log, q) == TakenFrom(s'.log, q) + s'.queues[q] {
      Logged(s.log, e, q, 0);
    }
    forall u | 0 <= u < |s'.threads| ensures GotBy(s'.log, u) == Held(s'.threads[u]) { Logged(s.log, e, 0, u); }
  }

  lemma ReturnOrder<T>(s: State<T>, t: nat)
    requires OrderInv(s) && t < |s.threads| && s.threads[t].Done?
    ensures OrderInv(Step(s, Return(t)))
  {
    hide AllInLine, PutInto, TakenFrom, GotBy;
    var e, s' := Handed(t), Step(s, Return(t));
    StillInLine(s.log, e);
    forall q | 0 <= q < |s'.queues| ensures PutInto(s'.log, q) == TakenFrom(s'.log, q) + s'.queues[q] {
      Logged(s.log, e, q, 0);
    }
    forall u | 0 <= u < |s'.threads| ensures GotBy(s'.log, u) == Held(s'.threads[u]) { Logged(s.log, e, 0, u); }
  }

  lemma SemOrder<T>(s: State<T>, t: nat, choice: bool)
    requires OrderInv(s) && t < |s.threads| == |s.sem.pcs|
    requires s.threads[t].Waiting? || s.threads[t].Signalling? || s.threads[t].Posting?
    ensures OrderInv(SemStep(s, t, choice))
  {
    hide AllInLine, QueuesOk, Semaphore.Step;
  }

  lemma QuietOrder<T>(s: State<T>, a: Action<T>)
    requires OrderInv(s) && (a.Dequeue? || a.EndInner?)
    ensures OrderInv(Step(s, a))
  {
    hide AllInLine, QueuesOk, Semaphore.Step;
  }

  lemma StepOrder<T>(s: State<T>, a: Action<T>)
    requires OrderInv(s)
    ensures OrderInv(Step(s, a))
  {
    hide OrderInv, SemStep, Written, Semaphore.Step;
    if Step(s, a) != s {
      match a
      case Enqueue(t, p, xs, ok) => PutOrder(s, t, p, xs);
      case Take(t, p, n) => TakeOrder(s, t, p, n);
      case Return(t) => ReturnOrder(s, t);
      case Sem(t, choice) => SemOrder(s, t, choice);
      case _ => QuietOrder(s, a);
    }
  }

  lemma {:induction false} RunOrder<T>(s: State<T>, schedule: seq<Action<T>>)
    requires OrderInv(s)
    ensures OrderInv(Run(s, schedule))
    decreases |schedule|
  {
    hide OrderInv, Step;
    if schedule != [] {
      StepOrder(s, schedule[0]);
      RunOrder(Step(s, schedule[0]), schedule[1..]);
    }
  }

  /** Of two runs of elements taken from one sub-queue, the later one lies behind. */
  lemma {:induction false} LaterRunsFollow<T>(log: seq<Event<T>>, i: nat, j: nat)
    requires i < j < |log| && log[i].Took? && log[j].Took? && log[i].p == log[j].p
    ensures |TakenFrom(log[..i], log[i].p)| + |log[i].xs| <= |TakenFrom(log[..j], log[j].p)|
    decreases j
  {
    var p := log[i].p;
    assert log[..i + 1][..i] == log[..i];
    TakenGrows(log, i + 1, j, p);
  }

  lemma {:induction false} TakenGrows<T>(log: seq<Event<T>>, i: nat, j: nat, p: nat)
    requires i <= j <= |log|
    ensures |TakenFrom(log[..i], p)| <= |TakenFrom(log[..j], p)|
    decreases j - i
  {
    if i < j {
      assert log[..j][..j - 1] == log[..j - 1];
      TakenGrows(log, i, j - 1, p);
    }
  }

  /** Each sub-queue is first in, first out, in every run: what is in it is what has been put in after what has been
      taken; each run of elements taken from it is the next one in the order of enqueueing; and what a call has got
      is its own runs in the order in which it took them.  So the elements of one producer come to a caller in the
      order in which they were enqueued. */
  lemma FirstInFirstOut<T>(s0: State<T>, schedule: seq<Action<T>>)
    requires Init(s0)
    ensures var s := Run(s0, schedule);
      && (forall p :: 0 <= p < |s.queues| ==> PutInto(s.log, p) == TakenFrom(s.log, p) + s.queues[p])
      && (forall i :: 0 <= i < |s.log| && s.log[i].Took? ==> NextInLine(s.log, i))
      && (forall t :: 0 <= t < |s.threads| ==> GotBy(s.log, t) == Held(s.threads[t]))
  {
    RunOrder(s0, schedule);
  }
}
