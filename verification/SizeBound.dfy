/** The size limit of an implicit sub-queue, as a step machine.

    A producer that needs blocks looks at the head before each; consumers move the head on meanwhile, so the
    head it has seen may be out of date by the time the block is used.  A bulk insertion is published only
    when all its blocks have passed. */
module SizeBound {
  import opened Arith

  /** MAX_SUBQUEUE_SIZE: the trait rounded up to a multiple of the block size. */
  function Limit(trait_: nat, b: nat): nat
    requires b > 0
  {
    Ceil(trait_, b) * b
  }

  datatype Producer =
    | Idle
    | LoadHead(want: nat, base: nat)                 // before the block at `base`
    | Check(want: nat, base: nat, seen: nat)
    | Publish(want: nat)

  datatype State = State(b: nat, limit: nat, tail: nat, head: nat, prod: Producer)

  datatype Action = Enqueue(count: nat) | Produce(ok: bool) | Dequeue(n: nat)

  /** The next block needed, or none. */
  function Needed(s: State, want: nat, base: nat): Producer
  {
    if base < s.tail + want then LoadHead(want, base) else Publish(want)
  }

  function Step(s: State, a: Action): State {
    match a
    case Enqueue(count) =>
      if s.prod == Idle && s.b > 0 then s.(prod := Needed(s, count, Ceil(s.tail, s.b) * s.b)) else s
    case Produce(ok) => (
      match s.prod
      case Idle => s
      case LoadHead(want, base) => s.(prod := Check(want, base, s.head))
      case Check(want, base, seen) =>
        // no room within the limit, or no block or index entry to be had
        if s.limit == 0 || s.limit - s.b < base - seen || !ok then s.(prod := Idle)
        else s.(prod := Needed(s, want, base + s.b))
      case Publish(want) => s.(tail := s.tail + want, prod := Idle)
      )
    case Dequeue(n) => if s.head + n <= s.tail then s.(head := s.head + n) else s
  }

  function Run(s: State, schedule: seq<Action>): State
    decreases |schedule|
  {
    if schedule == [] then s else Run(Step(s, schedule[0]), schedule[1..])
  }

  ghost predicate Init(s: State, trait_: nat) {
    s.b > 1 && s.limit == Limit(trait_, s.b) && s.tail == 0 && s.head == 0 && s.prod == Idle
  }

  /** Blocks up to index `end` fit the limit. */
  predicate Fits(s: State, end: int) { end - s.head <= s.limit }

  predicate Aligned(s: State, x: int)
    requires s.b > 0
  {
    x % s.b == 0
  }

  ghost predicate Inv(s: State) {
    && s.b > 1 && Aligned(s, s.limit) && s.head <= s.tail && Fits(s, Ceil(s.tail, s.b) * s.b)
    && (match s.prod
        case Idle => true
        case LoadHead(want, base) =>
          Aligned(s, base) && Fits(s, base) && Ceil(s.tail, s.b) * s.b <= base < s.tail + want
        case Check(want, base, seen) =>
          && Aligned(s, base) && Fits(s, base) && Ceil(s.tail, s.b) * s.b <= base < s.tail + want && seen <= s.head
        case Publish(want) => Fits(s, Ceil(s.tail + want, s.b) * s.b))
  }

  lemma CeilBounds(i: int, b: int)
    requires b > 0
    ensures i <= Ceil(i, b) * b < i + b && (Ceil(i, b) * b) % b == 0
  {
    DivBounds(i + b - 1, b);
    DivExact(Ceil(i, b), b);
  }

  /** A multiple of the block size at or above an index is at or above its round-up. */
  lemma CeilLeast(i: int, m: int, b: int)
    requires b > 0 && m % b == 0 && i <= m
    ensures Ceil(i, b) * b <= m
  {
    DivBounds(m, b);
    DivMono(i + b - 1, m + b - 1, b);
    ModShift(m, 0, b);
    DivUnique(m + b - 1, b, m / b);
    MulMono(Ceil(i, b), m / b, b);
  }

  /** A positive multiple of the block size is at least a block. */
  lemma AtLeastABlock(m: nat, b: nat)
    requires b > 0 && m % b == 0 && m > 0
    ensures m >= b
  {
    DivBounds(m, b);
    if m < b { DivUnique(m, b, 0); }
  }

  lemma NeededKeeps(s: State, want: nat, base: nat)
    requires s.b > 1 && Aligned(s, s.limit) && s.head <= s.tail && Fits(s, Ceil(s.tail, s.b) * s.b)
    requires Aligned(s, base) && Fits(s, base) && Ceil(s.tail, s.b) * s.b <= base
    ensures Inv(s.(prod := Needed(s, want, base)))
  {
    if base >= s.tail + want { CeilLeast(s.tail + want, base, s.b); }
  }

  lemma StepKeeps(s: State, a: Action)
    requires Inv(s)
    ensures Inv(Step(s, a)) && Step(s, a).limit == s.limit && Step(s, a).b == s.b
  {
    CeilBounds(s.tail, s.b);
    match a
    case Enqueue(count) => if s.prod == Idle { NeededKeeps(s, count, Ceil(s.tail, s.b) * s.b); }
    case Produce(ok) =>
      match s.prod {
      case Check(want, base, seen) =>
        if !(s.limit == 0 || s.limit - s.b < base - seen || !ok) {
          AtLeastABlock(s.limit, s.b);
          assert base + s.b == base + 1 * s.b;
          ModShift(base, 1, s.b);
          NeededKeeps(s, want, base + s.b);
        }
      case _ =>
      }
    case Dequeue(n) =>
  }

  lemma {:induction false} RunKeeps(s: State, schedule: seq<Action>)
    requires Inv(s)
    ensures Inv(Run(s, schedule)) && Run(s, schedule).limit == s.limit && Run(s, schedule).b == s.b
    decreases |schedule|
  {
    if schedule != [] {
      StepKeeps(s, schedule[0]);
      RunKeeps(Step(s, schedule[0]), schedule[1..]);
    }
  }

  /** In every run, the sub-queue with its last block filled up never exceeds the limit, although the heads
      that the checks use may be out of date; the limit itself is less than a block above the trait. */
  lemma NeverExceedsLimit(s0: State, trait_: nat, schedule: seq<Action>)
    requires Init(s0, trait_)
    ensures var s := Run(s0, schedule);
      && s.limit == s0.limit && s.b == s0.b && s.b > 0
      && s.head <= s.tail && Ceil(s.tail, s0.b) * s0.b - s.head <= s0.limit
      && trait_ <= s0.limit < trait_ + s0.b
  {
    CeilBounds(trait_, s0.b);
    CeilBounds(0, s0.b);
    DivUnique(s0.b - 1, s0.b, 0);
    RunKeeps(s0, schedule);
  }

  /** The limit is reached: with a positive trait, a producer that runs alone on an empty sub-queue and gets
      its blocks fills it to the limit in one call. */
  lemma LimitIsReached(s: State, trait_: nat, schedule: seq<Action>)
    requires Init(s, trait_) && trait_ > 0
    requires schedule == [Enqueue(s.limit)] + Fill(s.limit / s.b) + [Produce(true)]
    ensures Run(s, schedule).tail == s.limit && Run(s, schedule).prod == Idle
  {
    CeilBounds(trait_, s.b);
    DivBounds(s.limit, s.b);
    DivUnique(s.b - 1, s.b, 0);
    var s1 := s.(prod := LoadHead(s.limit, 0));
    assert Step(s, Enqueue(s.limit)) == s1;
    assert schedule[1..] == Fill(s.limit / s.b) + [Produce(true)];
    FillRuns(s1, s.limit, 0, s.limit / s.b);
  }

  /** Two steps for each of n blocks. */
  function Fill(n: nat): seq<Action> {
    if n == 0 then [] else [Produce(true), Produce(true)] + Fill(n - 1)
  }

  lemma {:induction false} FillRuns(s: State, want: nat, base: nat, n: nat)
    requires s.b > 1 && s.tail == 0 && s.head == 0 && want == s.limit > 0 && base + n * s.b == want
    requires s.prod == if n > 0 then LoadHead(want, base) else Publish(want)
    ensures var s' := Run(s, Fill(n) + [Produce(true)]); s'.tail == want && s'.prod == Idle
    decreases n
  {
    if n == 0 {
      assert Fill(0) + [Produce(true)] == [Produce(true)];
      assert Run(Step(s, Produce(true)), []) == Step(s, Produce(true));
    } else {
      var rest := Fill(n - 1) + [Produce(true)];
      var all := Fill(n) + [Produce(true)];
      assert all == [Produce(true), Produce(true)] + rest;
      assert all[1..] == [Produce(true)] + rest && all[1..][1..] == rest;
      var s1 := Step(s, Produce(true));
      MulMono(1, n, s.b);
      assert n * s.b == (n - 1) * s.b + s.b;
      var s2 := Step(s1, Produce(true));
      if n > 1 { MulMono(1, n - 1, s.b); }
      assert s2 == s.(prod := if n > 1 then LoadHead(want, base + s.b) else Publish(want));
      FillRuns(s2, want, base + s.b, n - 1);
    }
  }

  /** A block is refused, although memory could be had, if and only if it would end beyond the limit over the head
      that the producer has seen; in every run. */
  lemma RefusedWhenFull(s0: State, trait_: nat, schedule: seq<Action>)
    requires Init(s0, trait_) && Run(s0, schedule).prod.Check?
    ensures var s := Run(s0, schedule);
      && s.prod.seen <= s.head
      && (Step(s, Produce(true)).prod == Idle <==> s.prod.base + s.b - s.prod.seen > s.limit)
  {
    CeilBounds(trait_, s0.b);
    CeilBounds(0, s0.b);
    DivUnique(s0.b - 1, s0.b, 0);
    RunKeeps(s0, schedule);
    CheckIsExact(Run(s0, schedule));
  }

  lemma CheckIsExact(s: State)
    requires Inv(s) && s.prod.Check?
    ensures Step(s, Produce(true)).prod == Idle <==> s.prod.base + s.b - s.prod.seen > s.limit
  {
    CeilBounds(s.tail, s.b);
    if s.limit > 0 { AtLeastABlock(s.limit, s.b); }
  }

  /** The producer takes n steps in a row, and is refused no memory. */
  function Solo(s: State, n: nat): State
    decreases n
  {
    if n == 0 then s else Solo(Step(s, Produce(true)), n - 1)
  }

  lemma {:induction false} StaysIdle(s: State, n: nat)
    requires s.prod == Idle
    ensures Solo(s, n) == s
  {
    if n > 0 { StaysIdle(s, n - 1); }
  }

  /** The head is loaded and the next block checked. */
  lemma OneBlock(s: State)
    requires Inv(s) && s.prod.LoadHead?
    ensures var want, base, s2 := s.prod.want, s.prod.base, Step(Step(s, Produce(true)), Produce(true));
      && Inv(s2)
      && s2 == s.(prod := if base + s.b - s.head > s.limit then Idle
                          else if base + s.b < s.tail + want then LoadHead(want, base + s.b) else Publish(want))
  {
    var s1 := Step(s, Produce(true));
    StepKeeps(s, Produce(true));
    CheckIsExact(s1);
    StepKeeps(s1, Produce(true));
    hide Inv, Aligned;
  }

  /** What a call that runs alone has put in when it is over, its blocks ending at `end`. */
  predicate Ended(s: State, s': State, want: nat, end: int) {
    && s'.prod == Idle && s'.head == s.head && s'.tail == s.tail + (if end - s.head <= s.limit then want else 0)
  }

  lemma PublishEnds(s: State, want: nat, n: nat)
    requires s.prod == Publish(want) && n > 0
    ensures var s' := Solo(s, n); s'.prod == Idle && s'.head == s.head && s'.tail == s.tail + want
  {
    StaysIdle(Step(s, Produce(true)), n - 1);
  }

  /** With k blocks still to come, the call gets all of them if the last one fits. */
  lemma {:induction false} SoloRuns(s: State, k: nat, n: nat)
    requires Inv(s) && s.prod.LoadHead? && n >= 2 * k + 1
    requires Ceil(s.tail + s.prod.want, s.b) * s.b == s.prod.base + k * s.b
    ensures Ended(s, Solo(s, n), s.prod.want, s.prod.base + k * s.b)
    decreases k
  {
    var want, base := s.prod.want, s.prod.base;
    AtLeastOne(s, k);
    OneBlock(s);
    var s2 := Step(Step(s, Produce(true)), Produce(true));
    assert Solo(s, n) == Solo(s2, n - 2);
    assert k * s.b == (k - 1) * s.b + s.b;
    MulMono(0, k - 1, s.b);
    hide Inv, Step, Ceil, Solo;
    if s2.prod == Idle {
      StaysIdle(s2, n - 2);
    } else if s2.prod.LoadHead? {
      SoloRuns(s2, k - 1, n - 2);
    } else {
      LastBlock(s.tail + want, base, k, s.b);
      PublishEnds(s2, want, n - 2);
    }
  }

  lemma AtLeastOne(s: State, k: nat)
    requires Inv(s) && s.prod.LoadHead? && Ceil(s.tail + s.prod.want, s.b) * s.b == s.prod.base + k * s.b
    ensures k > 0 && s.b > 1
  {
    CeilBounds(s.tail + s.prod.want, s.b);
  }

  lemma LastBlock(i: nat, base: nat, k: nat, b: nat)
    requires b > 0 && k > 0 && base + b >= i && Ceil(i, b) * b == base + k * b
    ensures base + k * b == base + b
  {
    CeilBounds(i, b);
    if k > 1 { MulMono(2, k, b); }
  }

  /** From every reachable state between calls, an insertion that runs alone and is refused no memory goes in if and
      only if it needs no new block, or its last block, filled up, stays within the limit over the head. */
  lemma AloneInsertion(s0: State, trait_: nat, schedule: seq<Action>, count: nat, n: nat)
    requires Init(s0, trait_) && Run(s0, schedule).prod == Idle && Run(s0, schedule).b > 0
    requires var s := Run(s0, schedule); n >= 2 * (Ceil(s.tail + count, s.b) - Ceil(s.tail, s.b)) + 1
    ensures var s, s' := Run(s0, schedule), Solo(Step(Run(s0, schedule), Enqueue(count)), n);
      var end := Ceil(s.tail + count, s.b) * s.b;
      && s'.prod == Idle && s'.head == s.head
      && s'.tail == s.tail + (if Ceil(s.tail + count, s.b) == Ceil(s.tail, s.b) || end - s.head <= s.limit then count
                              else 0)
  {
    CeilBounds(trait_, s0.b);
    CeilBounds(0, s0.b);
    DivUnique(s0.b - 1, s0.b, 0);
    RunKeeps(s0, schedule);
    AloneFrom(Run(s0, schedule), count, n);
  }

  /** The blocks that count more elements need. */
  lemma BlocksNeeded(tail: nat, count: nat, b: nat)
    requires b > 1
    ensures var base, k := Ceil(tail, b) * b, Ceil(tail + count, b) - Ceil(tail, b);
      k >= 0 && base + k * b == Ceil(tail + count, b) * b && (k == 0 <==> base >= tail + count) && base >= 0
  {
    var base, k := Ceil(tail, b) * b, Ceil(tail + count, b) - Ceil(tail, b);
    CeilBounds(tail, b);
    CeilBounds(tail + count, b);
    DivMono(tail + b - 1, tail + count + b - 1, b);
    if base >= tail + count {
      CeilLeast(tail + count, base, b);
      if k > 0 { MulMono(1, k, b); }
    }
  }

  lemma AloneFrom(s: State, count: nat, n: nat)
    requires Inv(s) && s.prod == Idle && n >= 2 * (Ceil(s.tail + count, s.b) - Ceil(s.tail, s.b)) + 1
    ensures var s' := Solo(Step(s, Enqueue(count)), n);
      var end := Ceil(s.tail + count, s.b) * s.b;
      && s'.prod == Idle && s'.head == s.head
      && s'.tail == s.tail + (if Ceil(s.tail + count, s.b) == Ceil(s.tail, s.b) || end - s.head <= s.limit then count
                              else 0)
  {
    hide Ceil, Inv, Solo;
    BlockSize(s);
    BlocksNeeded(s.tail, count, s.b);
    StepKeeps(s, Enqueue(count));
    var s1, k := Step(s, Enqueue(count)), Ceil(s.tail + count, s.b) - Ceil(s.tail, s.b);
    if k > 0 { SoloRuns(s1, k, n); } else { PublishEnds(s1, count, n); }
  }

  lemma BlockSize(s: State)
    requires Inv(s)
    ensures s.b > 1
  {}
}
