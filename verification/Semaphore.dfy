/** The lightweight semaphore, as a step machine: a signed counter in front of an OS semaphore.

    Any number of threads wait (with or without a timeout, for one permit or for many) and signal under
    any schedule.  One step is one atomic operation.  The OS semaphore is a count of posts; waiting on it
    blocks while the count is zero, and may give up.  `wait` and `tryWait` perform exactly the steps of
    their many-permit forms with max 1, so those are the calls here.

    `results`, `calls`, `signalled` and `posted` are bookkeeping that no step reads. */
module Semaphore {
  import opened Arith
  import opened Sums

  /** `Try` is tryWaitMany; the others are waitMany with a zero, positive or negative timeout. */
  datatype Mode = Try | Zero | Timed | Forever

  datatype Pc =
    | Idle
    | TryLoad(max: nat, got: nat, mode: Mode)
    | TryCas(max: nat, got: nat, mode: Mode, seen: int)
    | SpinLoad(max: nat, mode: Mode)
    | SpinCas(max: nat, mode: Mode, seen: int)
    | Sub(max: nat, mode: Mode)                      // fetch_sub of one
    | OsWait(max: nat, mode: Mode)
    | AdjustLoad(max: nat, mode: Mode)               // the re-adjust loop
    | AdjustTry(max: nat, mode: Mode)
    | AdjustCas(max: nat, mode: Mode, seen: int)
    | SignalAdd(n: nat)                              // fetch_add of n
    | Post(owed: nat)                                // posts still to be made

  /** The ledger of one wait: its decrements of a count that had no permit left, the OS posts it took, the
      decrements it undid; whether its OS wait gave up (an error, the timeout, or no wait at all with a zero
      timeout); and whether its last look at the count found nothing. */
  datatype Ledger = Ledger(decrements: nat, posts: nat, undone: nat, gaveUp: bool, none: bool)

  const Blank := Ledger(0, 0, 0, false, false)

  /** How a wait ended: how many permits it asked for, how many it took, and its ledger. */
  datatype Outcome = Outcome(thread: nat, max: nat, mode: Mode, taken: nat, ledger: Ledger)

  datatype State = State(count: int, os: nat, pcs: seq<Pc>,
                         results: seq<Outcome>, calls: seq<Ledger>, signalled: nat, posted: nat)

  /** `choice` resolves what the machine leaves open: whether a weak exchange fails for no reason (false),
      whether spinning goes on, and whether a wait on the OS semaphore gives up (false). */
  datatype Action = Wait(t: nat, max: nat, mode: Mode) | Signal(t: nat, n: nat) | Go(t: nat, choice: bool)

  function At(s: State, t: nat, pc: Pc): State
    requires t < |s.pcs|
  {
    s.(pcs := s.pcs[t := pc])
  }

  /** An entry in the ledger of thread t's call. */
  function Enter(s: State, t: nat, l: Ledger): State
    requires t < |s.calls|
  {
    s.(calls := s.calls[t := l])
  }

  /** The call returns `taken` permits in all. */
  function Return(s: State, t: nat, max: nat, mode: Mode, taken: nat): State
    requires t < |s.pcs| == |s.calls|
  {
    At(Enter(s.(results := s.results + [Outcome(t, max, mode, taken, s.calls[t])]), t, Blank), t, Idle)
  }

  /** The loop test of tryWaitMany: nothing available ends it, which for a blocking call that has got
      nothing so far leads on to spinning. */
  function TryTest(s: State, t: nat, max: nat, got: nat, mode: Mode, seen: int): State
    requires t < |s.pcs| == |s.calls|
  {
    if seen > 0 then At(s, t, TryCas(max, got, mode, seen))
    else if got == 0 && max > 0 && mode != Try then At(s, t, SpinLoad(max, mode))
    else Return(Enter(s, t, s.calls[t].(none := true)), t, max + got, mode, got)
  }

  function After(seen: int, max: nat): int { if seen > max then seen - max else 0 }

  /** One permit is in hand; more are taken if more were asked for. */
  function GotOne(s: State, t: nat, max: nat, mode: Mode): State
    requires t < |s.pcs| == |s.calls| && max > 0
  {
    if max > 1 then At(s, t, TryLoad(max - 1, 1, mode)) else Return(s, t, 1, mode, 1)
  }

  /** A post is taken. */
  function GotPost(s: State, t: nat, max: nat, mode: Mode): State
    requires t < |s.pcs| == |s.calls| && max > 0 && s.os > 0
  {
    GotOne(Enter(s.(os := s.os - 1), t, s.calls[t].(posts := s.calls[t].posts + 1)), t, max, mode)
  }

  function Advance(s: State, t: nat, choice: bool): State
    requires t < |s.pcs| == |s.calls|
    requires PcOk(s.pcs[t])
  {
    var l := s.calls[t];
    match s.pcs[t]
    case Idle => s
    case TryLoad(max, got, mode) => TryTest(s, t, max, got, mode, s.count)
    case TryCas(max, got, mode, seen) =>
      if s.count == seen && choice then
        Return(s.(count := After(seen, max)), t, max + got, mode, seen - After(seen, max) + got)
      else TryTest(s, t, max, got, mode, s.count)
    case SpinLoad(max, mode) =>
      if !choice then At(s, t, Sub(max, mode))
      else if s.count > 0 then At(s, t, SpinCas(max, mode, s.count))
      else s
    case SpinCas(max, mode, seen) =>
      if s.count == seen then
        Return(s.(count := After(seen, max)), t, max, mode, seen - After(seen, max))
      else At(s, t, SpinLoad(max, mode))
    case Sub(max, mode) =>
      var s1 := s.(count := s.count - 1);
      if s.count > 0 then GotOne(s1, t, max, mode)
      else
        At(Enter(s1, t, l.(decrements := l.decrements + 1, gaveUp := mode == Zero)), t,
           if mode == Zero then AdjustLoad(max, mode) else OsWait(max, mode))
    case OsWait(max, mode) =>
      if !choice then At(Enter(s, t, l.(gaveUp := true)), t, AdjustLoad(max, mode))
      else if s.os > 0 then GotPost(s, t, max, mode)
      else s
    case AdjustLoad(max, mode) =>
      At(s, t, if s.count >= 0 then AdjustTry(max, mode) else AdjustCas(max, mode, s.count))
    case AdjustTry(max, mode) =>
      if s.os > 0 then GotPost(s, t, max, mode) else At(s, t, AdjustLoad(max, mode))
    case AdjustCas(max, mode, seen) =>
      if s.count == seen then
        Return(Enter(s.(count := seen + 1), t, l.(undone := l.undone + 1)), t, max, mode, 0)
      else At(s, t, AdjustLoad(max, mode))
    case SignalAdd(n) =>
      var release := if -s.count < n then -s.count else n;
      At(s.(count := s.count + n, signalled := s.signalled + n), t, if release > 0 then Post(release) else Idle)
    case Post(owed) => At(s.(os := s.os + 1, posted := s.posted + 1), t, if owed > 1 then Post(owed - 1) else Idle)
  }

  function Step(s: State, a: Action): State {
    match a
    case Wait(t, max, mode) => if t < |s.pcs| && s.pcs[t] == Idle then At(s, t, TryLoad(max, 0, mode)) else s
    case Signal(t, n) => if t < |s.pcs| && s.pcs[t] == Idle then At(s, t, SignalAdd(n)) else s
    case Go(t, choice) => if t < |s.pcs| == |s.calls| && PcOk(s.pcs[t]) then Advance(s, t, choice) else s
  }

  function Run(s: State, schedule: seq<Action>): State
    decreases |schedule|
  {
    if schedule == [] then s else Run(Step(s, schedule[0]), schedule[1..])
  }

  ghost predicate Init(s: State) {
    && s.count >= 0 && s.os == 0 && s.results == [] && s.signalled == 0 && s.posted == 0
    && |s.calls| == |s.pcs| && (forall t :: 0 <= t < |s.pcs| ==> s.pcs[t] == Idle && s.calls[t] == Blank)
  }

  // ---------------------------------------------------------------- what threads hold and owe

  predicate Adjusting(pc: Pc) { pc.AdjustLoad? || pc.AdjustTry? || pc.AdjustCas? }

  /** The thread has decremented the count below its permits and does not know yet whether it gets one. */
  predicate Unresolved(pc: Pc) { pc.OsWait? || Adjusting(pc) }

  predicate PcOk(pc: Pc) {
    && (pc.TryCas? || pc.SpinCas? ==> pc.seen > 0)
    && (pc.AdjustCas? ==> pc.seen < 0)
    && (pc.SpinLoad? || pc.SpinCas? || pc.Sub? || Unresolved(pc) ==> pc.max > 0 && pc.mode != Try)
    && (pc.TryLoad? || pc.TryCas? ==> pc.got <= 1)
    && (pc.Post? ==> pc.owed > 0)
  }

  function Waiting(pc: Pc): nat { if Unresolved(pc) then 1 else 0 }
  function Owed(pc: Pc): nat { if pc.Post? then pc.owed else 0 }
  function Got(pc: Pc): nat { if pc.TryLoad? || pc.TryCas? then pc.got else 0 }
  function WaitingW(): Pc -> nat { pc => Waiting(pc) }
  function OwedW(): Pc -> nat { pc => Owed(pc) }
  function GotW(): Pc -> nat { pc => Got(pc) }
  function TakenW(): Outcome -> nat { (o: Outcome) => o.taken }

  function Waiters(s: State): nat { Total(s.pcs, WaitingW()) }
  function OwedPosts(s: State): nat { Total(s.pcs, OwedW()) }

  /** Permits taken by calls that have returned and by calls in flight. */
  function Acquired(s: State): nat { Total(s.results, TakenW()) + Total(s.pcs, GotW()) }

  function PostsW(): Outcome -> nat { (o: Outcome) => o.ledger.posts }
  function CallPostsW(): Ledger -> nat { (l: Ledger) => l.posts }

  /** Posts taken from the OS semaphore, by calls that have returned and by calls in flight. */
  function PostsTaken(s: State): nat { Total(s.results, PostsW()) + Total(s.calls, CallPostsW()) }

  /** When a call that takes nothing does so: it asked for nothing; a try saw nothing; a wait gave up on the
      OS semaphore and took no post after that either. */
  predicate TakesNothing(o: Outcome) {
    o.max == 0 || (if o.mode == Try then o.ledger.none else o.ledger.gaveUp && o.ledger.posts == 0)
  }

  predicate OutcomeOk(o: Outcome) {
    var l := o.ledger;
    && o.taken <= o.max && (o.taken == 0 <==> TakesNothing(o))
    && l.decrements == l.posts + l.undone <= 1
    && (l.posts == 1 ==> o.taken > 0) && (l.undone == 1 <==> l.gaveUp && l.posts == 0)
    && (l.undone == 1 ==> o.max > 0)
    && (o.mode == Try ==> l.decrements == 0)
  }

  /** The ledger of a call in flight. */
  predicate LedgerOk(l: Ledger, pc: Pc) {
    && l.decrements == l.posts + Waiting(pc) <= 1 && l.undone == 0 && !l.none
    && (pc.Idle? || pc.SignalAdd? || pc.Post? ==> l.decrements == 0) && (l.gaveUp ==> l.decrements == 1)
    && (pc.TryLoad? || pc.TryCas? ==>
          (pc.got == 0 ==> l.decrements == 0) && (pc.mode == Try ==> pc.got == 0))
    && (pc.SpinLoad? || pc.SpinCas? || pc.Sub? ==> l.decrements == 0)
    && (Unresolved(pc) ==> (l.gaveUp <==> Adjusting(pc)))
  }

  ghost predicate ThreadsInv(pcs: seq<Pc>, calls: seq<Ledger>) {
    |calls| == |pcs| && forall t :: 0 <= t < |pcs| ==> PcOk(pcs[t]) && LedgerOk(calls[t], pcs[t])
  }

  ghost predicate SumsInv(s: State, initial: int) {
    && Waiters(s) == Max0(-s.count) + s.os + OwedPosts(s)
    && Acquired(s) + Max0(s.count) + s.os + OwedPosts(s) == initial + s.signalled
    && PostsTaken(s) + s.os == s.posted
  }

  ghost predicate ResultsInv(results: seq<Outcome>) { forall k :: 0 <= k < |results| ==> OutcomeOk(results[k]) }

  ghost predicate Inv(s: State, initial: int) {
    ThreadsInv(s.pcs, s.calls) && SumsInv(s, initial) && ResultsInv(s.results)
  }

  // ---------------------------------------------------------------- the invariant over runs

  lemma Deltas(s: State, s': State, t: nat)
    requires t < |s.pcs| == |s'.pcs| && s'.pcs == s.pcs[t := s'.pcs[t]]
    ensures Waiters(s') + Waiting(s.pcs[t]) == Waiters(s) + Waiting(s'.pcs[t])
    ensures OwedPosts(s') + Owed(s.pcs[t]) == OwedPosts(s) + Owed(s'.pcs[t])
    ensures Total(s'.pcs, GotW()) + Got(s.pcs[t]) == Total(s.pcs, GotW()) + Got(s'.pcs[t])
  {
    TotalUpdate(s.pcs, WaitingW(), t, s'.pcs[t]);
    TotalUpdate(s.pcs, OwedW(), t, s'.pcs[t]);
    TotalUpdate(s.pcs, GotW(), t, s'.pcs[t]);
  }

  /** The thread is still looking for permits in the count. */
  predicate Looking(pc: Pc) { pc.TryLoad? || pc.TryCas? || pc.SpinLoad? || pc.SpinCas? }

  lemma EffectLooking(s: State, t: nat, choice: bool)
    requires t < |s.pcs| == |s.calls| && PcOk(s.pcs[t]) && LedgerOk(s.calls[t], s.pcs[t]) && Looking(s.pcs[t])
    ensures var s' := Advance(s, t, choice);
      && |s'.pcs| == |s.pcs| == |s'.calls| && s'.pcs == s.pcs[t := s'.pcs[t]] && s'.calls == s.calls[t := s'.calls[t]]
      && PcOk(s'.pcs[t]) && LedgerOk(s'.calls[t], s'.pcs[t])
  {}

  lemma EffectWaiting(s: State, t: nat, choice: bool)
    requires t < |s.pcs| == |s.calls| && PcOk(s.pcs[t]) && LedgerOk(s.calls[t], s.pcs[t])
        && (s.pcs[t].Sub? || s.pcs[t].OsWait?)
    ensures var s' := Advance(s, t, choice);
      && |s'.pcs| == |s.pcs| == |s'.calls| && s'.pcs == s.pcs[t := s'.pcs[t]] && s'.calls == s.calls[t := s'.calls[t]]
      && PcOk(s'.pcs[t]) && LedgerOk(s'.calls[t], s'.pcs[t])
  {}

  lemma EffectAdjusting(s: State, t: nat, choice: bool)
    requires t < |s.pcs| == |s.calls| && PcOk(s.pcs[t]) && LedgerOk(s.calls[t], s.pcs[t]) && Adjusting(s.pcs[t])
    ensures var s' := Advance(s, t, choice);
      && |s'.pcs| == |s.pcs| == |s'.calls| && s'.pcs == s.pcs[t := s'.pcs[t]] && s'.calls == s.calls[t := s'.calls[t]]
      && PcOk(s'.pcs[t]) && LedgerOk(s'.calls[t], s'.pcs[t])
  {}

  lemma EffectAdding(s: State, t: nat, choice: bool)
    requires t < |s.pcs| == |s.calls| && PcOk(s.pcs[t]) && LedgerOk(s.calls[t], s.pcs[t])
        && s.pcs[t].SignalAdd?
    ensures var s' := Advance(s, t, choice);
      && |s'.pcs| == |s.pcs| == |s'.calls| && s'.pcs == s.pcs[t := s'.pcs[t]] && s'.calls == s.calls[t := s'.calls[t]]
      && PcOk(s'.pcs[t]) && LedgerOk(s'.calls[t], s'.pcs[t])
  {}

  lemma EffectPosting(s: State, t: nat, choice: bool)
    requires t < |s.pcs| == |s.calls| && PcOk(s.pcs[t]) && LedgerOk(s.calls[t], s.pcs[t])
        && s.pcs[t].Post?
    ensures var s' := Advance(s, t, choice);
      && |s'.pcs| == |s.pcs| == |s'.calls| && s'.pcs == s.pcs[t := s'.pcs[t]] && s'.calls == s.calls[t := s'.calls[t]]
      && PcOk(s'.pcs[t]) && LedgerOk(s'.calls[t], s'.pcs[t])
  {
    var next := if s.pcs[t].owed > 1 then Post(s.pcs[t].owed - 1) else Idle;
    Posts(s, t, choice);
    assert s.calls[t := s.calls[t]] == s.calls;
    hide Advance;
    assert PcOk(next) && LedgerOk(s.calls[t], next);
  }

  lemma Posts(s: State, t: nat, choice: bool)
    requires t < |s.pcs| == |s.calls| && s.pcs[t].Post? && s.pcs[t].owed > 0
    ensures Advance(s, t, choice)
         == s.(os := s.os + 1, posted := s.posted + 1,
               pcs := s.pcs[t := if s.pcs[t].owed > 1 then Post(s.pcs[t].owed - 1) else Idle])
  {}

  lemma EffectIdle(s: State, t: nat, choice: bool)
    requires t < |s.pcs| == |s.calls| && s.pcs[t].Idle?
    ensures Advance(s, t, choice) == s && s.pcs[t := s.pcs[t]] == s.pcs && s.calls[t := s.calls[t]] == s.calls
  {}

  /** A step keeps its thread's locals and ledger in order. */
  lemma Effect(s: State, t: nat, choice: bool)
    requires t < |s.pcs| == |s.calls| && PcOk(s.pcs[t]) && LedgerOk(s.calls[t], s.pcs[t])
    ensures var s' := Advance(s, t, choice);
      && |s'.pcs| == |s.pcs| == |s'.calls| && s'.pcs == s.pcs[t := s'.pcs[t]] && s'.calls == s.calls[t := s'.calls[t]]
      && PcOk(s'.pcs[t]) && LedgerOk(s'.calls[t], s'.pcs[t])
  {
    hide Advance, PcOk, LedgerOk, OutcomeOk;
    if Looking(s.pcs[t]) { EffectLooking(s, t, choice); }
    else if s.pcs[t].Sub? || s.pcs[t].OsWait? { EffectWaiting(s, t, choice); }
    else if Adjusting(s.pcs[t]) { EffectAdjusting(s, t, choice); }
    else if s.pcs[t].SignalAdd? { EffectAdding(s, t, choice); }
    else if s.pcs[t].Post? { EffectPosting(s, t, choice); }
    else { EffectIdle(s, t, choice); }
  }

  lemma ResultLooking(s: State, t: nat, choice: bool)
    requires t < |s.pcs| == |s.calls| && PcOk(s.pcs[t]) && LedgerOk(s.calls[t], s.pcs[t]) && Looking(s.pcs[t])
    ensures var s' := Advance(s, t, choice);
      && |s.results| <= |s'.results| <= |s.results| + 1
      && (|s'.results| == |s.results| ==> s'.results == s.results)
      && (|s'.results| > |s.results| ==>
            s'.results == s.results + [s'.results[|s.results|]] && OutcomeOk(s'.results[|s.results|]))
  {}

  lemma ResultWaiting(s: State, t: nat, choice: bool)
    requires t < |s.pcs| == |s.calls| && PcOk(s.pcs[t]) && LedgerOk(s.calls[t], s.pcs[t])
        && (s.pcs[t].Sub? || s.pcs[t].OsWait?)
    ensures var s' := Advance(s, t, choice);
      && |s.results| <= |s'.results| <= |s.results| + 1
      && (|s'.results| == |s.results| ==> s'.results == s.results)
      && (|s'.results| > |s.results| ==>
            s'.results == s.results + [s'.results[|s.results|]] && OutcomeOk(s'.results[|s.results|]))
  {}

  lemma ResultAdjusting(s: State, t: nat, choice: bool)
    requires t < |s.pcs| == |s.calls| && PcOk(s.pcs[t]) && LedgerOk(s.calls[t], s.pcs[t]) && Adjusting(s.pcs[t])
    ensures var s' := Advance(s, t, choice);
      && |s.results| <= |s'.results| <= |s.results| + 1
      && (|s'.results| == |s.results| ==> s'.results == s.results)
      && (|s'.results| > |s.results| ==>
            s'.results == s.results + [s'.results[|s.results|]] && OutcomeOk(s'.results[|s.results|]))
  {}

  lemma ResultSignalling(s: State, t: nat, choice: bool)
    requires t < |s.pcs| == |s.calls| && PcOk(s.pcs[t]) && LedgerOk(s.calls[t], s.pcs[t])
        && (s.pcs[t].Idle? || s.pcs[t].SignalAdd? || s.pcs[t].Post?)
    ensures var s' := Advance(s, t, choice);
      && |s.results| <= |s'.results| <= |s.results| + 1
      && (|s'.results| == |s.results| ==> s'.results == s.results)
      && (|s'.results| > |s.results| ==>
            s'.results == s.results + [s'.results[|s.results|]] && OutcomeOk(s'.results[|s.results|]))
  {}

  /** It adds at most one result, a good one. */
  lemma ResultOk(s: State, t: nat, choice: bool)
    requires t < |s.pcs| == |s.calls| && PcOk(s.pcs[t]) && LedgerOk(s.calls[t], s.pcs[t])
    ensures var s' := Advance(s, t, choice);
      && |s.results| <= |s'.results| <= |s.results| + 1
      && (|s'.results| == |s.results| ==> s'.results == s.results)
      && (|s'.results| > |s.results| ==>
            s'.results == s.results + [s'.results[|s.results|]] && OutcomeOk(s'.results[|s.results|]))
  {
    hide Advance, PcOk, LedgerOk, OutcomeOk;
    if Looking(s.pcs[t]) { ResultLooking(s, t, choice); }
    else if s.pcs[t].Sub? || s.pcs[t].OsWait? { ResultWaiting(s, t, choice); }
    else if Adjusting(s.pcs[t]) { ResultAdjusting(s, t, choice); }
    else { ResultSignalling(s, t, choice); }
  }

  lemma TakenLooking(s: State, t: nat, choice: bool)
    requires t < |s.pcs| == |s.calls| && PcOk(s.pcs[t]) && Looking(s.pcs[t])
    ensures var s' := Advance(s, t, choice);
      && |s.results| <= |s'.results|
      && var r: int := if |s'.results| == |s.results| then 0 else s'.results[|s.results|].taken;
      && Max0(-s'.count) + s'.os + Owed(s'.pcs[t]) + Waiting(s.pcs[t])
           == Max0(-s.count) + s.os + Owed(s.pcs[t]) + Waiting(s'.pcs[t])
      && r + Got(s'.pcs[t]) + Max0(s'.count) + s'.os + Owed(s'.pcs[t]) - s'.signalled
           == Got(s.pcs[t]) + Max0(s.count) + s.os + Owed(s.pcs[t]) - s.signalled
  {}

  lemma TakenOther(s: State, t: nat, choice: bool)
    requires t < |s.pcs| == |s.calls| && PcOk(s.pcs[t]) && !Looking(s.pcs[t])
    ensures var s' := Advance(s, t, choice);
      && |s.results| <= |s'.results|
      && var r: int := if |s'.results| == |s.results| then 0 else s'.results[|s.results|].taken;
      && Max0(-s'.count) + s'.os + Owed(s'.pcs[t]) + Waiting(s.pcs[t])
           == Max0(-s.count) + s.os + Owed(s.pcs[t]) + Waiting(s'.pcs[t])
      && r + Got(s'.pcs[t]) + Max0(s'.count) + s'.os + Owed(s'.pcs[t]) - s'.signalled
           == Got(s.pcs[t]) + Max0(s.count) + s.os + Owed(s.pcs[t]) - s.signalled
  {}

  lemma Taken(s: State, t: nat, choice: bool)
    requires t < |s.pcs| == |s.calls| && PcOk(s.pcs[t])
    ensures var s' := Advance(s, t, choice);
      && |s.results| <= |s'.results|
      && var r: int := if |s'.results| == |s.results| then 0 else s'.results[|s.results|].taken;
      && Max0(-s'.count) + s'.os + Owed(s'.pcs[t]) + Waiting(s.pcs[t])
           == Max0(-s.count) + s.os + Owed(s.pcs[t]) + Waiting(s'.pcs[t])
      && r + Got(s'.pcs[t]) + Max0(s'.count) + s'.os + Owed(s'.pcs[t]) - s'.signalled
           == Got(s.pcs[t]) + Max0(s.count) + s.os + Owed(s.pcs[t]) - s.signalled
  {
    hide Advance, PcOk, Max0, Waiting, Owed, Got;
    if Looking(s.pcs[t]) { TakenLooking(s, t, choice); } else { TakenOther(s, t, choice); }
  }

  lemma Posted(s: State, t: nat, choice: bool)
    requires t < |s.pcs| == |s.calls| && PcOk(s.pcs[t])
    ensures var s' := Advance(s, t, choice);
      && |s.results| <= |s'.results| && |s'.calls| == |s.calls|
      && var r: int := if |s'.results| == |s.results| then 0 else s'.results[|s.results|].ledger.posts;
      && r + s'.calls[t].posts + s'.os - s'.posted == s.calls[t].posts + s.os - s.posted
  {}

  lemma AdvanceKeeps(s: State, t: nat, choice: bool, initial: int)
    requires Inv(s, initial) && t < |s.pcs|
    ensures Inv(Advance(s, t, choice), initial)
  {
    hide Advance, OutcomeOk, LedgerOk, PcOk;
    Effect(s, t, choice);
    ResultOk(s, t, choice);
    SumsKept(s, t, choice, initial);
  }

  lemma SumsKept(s: State, t: nat, choice: bool, initial: int)
    requires SumsInv(s, initial) && t < |s.pcs| == |s.calls| && PcOk(s.pcs[t]) && LedgerOk(s.calls[t], s.pcs[t])
    ensures SumsInv(Advance(s, t, choice), initial)
  {
    hide Advance, OutcomeOk, LedgerOk, PcOk, Max0, Waiting, Owed, Got;
    var s' := Advance(s, t, choice);
    Effect(s, t, choice);
    ResultOk(s, t, choice);
    Taken(s, t, choice);
    Posted(s, t, choice);
    Deltas(s, s', t);
    TotalUpdate(s.calls, CallPostsW(), t, s'.calls[t]);
    if |s'.results| > |s.results| {
      var o := s'.results[|s.results|];
      TotalAppend(s.results, TakenW(), o);
      TotalAppend(s.results, PostsW(), o);
    }
  }

  lemma ThreadOk(s: State, t: nat, initial: int)
    requires Inv(s, initial) && t < |s.pcs|
    ensures |s.calls| == |s.pcs| && PcOk(s.pcs[t]) && LedgerOk(s.calls[t], s.pcs[t])
  {}

  lemma CallBalances(s: State, t: nat, initial: int)
    requires Inv(s, initial) && t < |s.pcs|
    ensures |s.calls| == |s.pcs| && s.calls[t].decrements == s.calls[t].posts + Waiting(s.pcs[t])
  {}

  lemma StepKeeps(s: State, a: Action, initial: int)
    requires Inv(s, initial)
    ensures Inv(Step(s, a), initial)
  {
    hide Advance, Inv;
    match a
    case Go(t, choice) =>
      if t < |s.pcs| { ThreadOk(s, t, initial); AdvanceKeeps(s, t, choice, initial); }
    case Wait(t, max, mode) =>
      if t < |s.pcs| && s.pcs[t] == Idle { StartKeeps(s, t, TryLoad(max, 0, mode), initial); }
    case Signal(t, n) =>
      if t < |s.pcs| && s.pcs[t] == Idle { StartKeeps(s, t, SignalAdd(n), initial); }
  }

  lemma SumsHold(s: State, initial: int)
    requires Inv(s, initial)
    ensures SumsInv(s, initial) && ResultsInv(s.results)
  {}

  lemma StartKeeps(s: State, t: nat, pc: Pc, initial: int)
    requires Inv(s, initial) && t < |s.pcs| && s.pcs[t] == Idle && (pc.SignalAdd? || (pc.TryLoad? && pc.got == 0))
    ensures Inv(At(s, t, pc), initial)
  {
    hide SumsInv, ThreadsInv, ResultsInv;
    StartThread(s.pcs, s.calls, t, pc);
    StartSums(s, t, pc, initial);
  }

  lemma StartThread(pcs: seq<Pc>, calls: seq<Ledger>, t: nat, pc: Pc)
    requires ThreadsInv(pcs, calls) && t < |pcs| && pcs[t] == Idle && (pc.SignalAdd? || (pc.TryLoad? && pc.got == 0))
    ensures ThreadsInv(pcs[t := pc], calls)
  {
    hide PcOk, LedgerOk;
    NewCall(calls[t], pc);
  }

  lemma NewCall(l: Ledger, pc: Pc)
    requires LedgerOk(l, Idle) && (pc.SignalAdd? || (pc.TryLoad? && pc.got == 0))
    ensures PcOk(pc) && LedgerOk(l, pc)
  {}

  lemma StartSums(s: State, t: nat, pc: Pc, initial: int)
    requires SumsInv(s, initial) && t < |s.pcs| && s.pcs[t] == Idle && (pc.SignalAdd? || (pc.TryLoad? && pc.got == 0))
    ensures SumsInv(At(s, t, pc), initial)
  {
    Deltas(s, At(s, t, pc), t);
  }

  lemma {:induction false} RunKeeps(s: State, schedule: seq<Action>, initial: int)
    requires Inv(s, initial)
    ensures Inv(Run(s, schedule), initial)
    decreases |schedule|
  {
    if schedule != [] {
      StepKeeps(s, schedule[0], initial);
      RunKeeps(Step(s, schedule[0]), schedule[1..], initial);
    }
  }

  lemma InitSums(s: State)
    requires Init(s)
    ensures SumsInv(s, s.count)
  {
    TotalZero(s.pcs, WaitingW());
    TotalZero(s.pcs, OwedW());
    TotalZero(s.pcs, GotW());
    TotalZero(s.calls, CallPostsW());
  }

  lemma ReachableInv(s0: State, schedule: seq<Action>)
    requires Init(s0)
    ensures Inv(Run(s0, schedule), s0.count)
  {
    hide SumsInv;
    InitSums(s0);
    RunKeeps(s0, schedule, s0.count);
  }

  // ---------------------------------------------------------------- what holds in every run

  /** Permits are never created or lost, and the waiters that do not know their fate are exactly the
      deficit of the count, the posts made and not taken, and the posts owed. */
  lemma PermitsConserved(s0: State, schedule: seq<Action>)
    requires Init(s0)
    ensures var s := Run(s0, schedule);
      && Acquired(s) + Max0(s.count) + s.os + OwedPosts(s) == s0.count + s.signalled
      && Waiters(s) == Max0(-s.count) + s.os + OwedPosts(s)
  {
    hide Inv;
    ReachableInv(s0, schedule);
    SumsHold(Run(s0, schedule), s0.count);
  }

  /** No call takes more than it asked for.  A call comes back with nothing if and only if it asked for
      nothing, or it only tried and saw no permit, or it waited, its own OS wait gave up, and it took no post
      in the re-adjust loop either.  For an untimed wait, giving up is an error of the OS semaphore: this is
      exactly when the assertion in the untimed waitMany fails. */
  lemma EmptyHandedWhen(s0: State, schedule: seq<Action>, k: nat)
    requires Init(s0) && k < |Run(s0, schedule).results|
    ensures var o := Run(s0, schedule).results[k];
      && o.taken <= o.max
      && (o.taken == 0 <==>
            || o.max == 0
            || (o.mode == Try && o.ledger.none)
            || (o.mode != Try && o.ledger.gaveUp && o.ledger.posts == 0))
  {
    hide Inv;
    ReachableInv(s0, schedule);
    SumsHold(Run(s0, schedule), s0.count);
  }

  /** One idle thread and no permit. */
  function OneThread(): State { State(0, 0, [Idle], [], [Blank], 0, 0) }

  /** An untimed wait for one permit comes back with none: its OS wait reports an error before anything is
      signalled. */
  lemma WaitComesBackEmpty()
    ensures Init(OneThread())
    ensures var steps := [Wait(0, 1, Forever), Go(0, true), Go(0, false), Go(0, true),
                          Go(0, false), Go(0, true), Go(0, true)];
      Run(OneThread(), steps).results == [Outcome(0, 1, Forever, 0, Ledger(1, 0, 1, true, false))]
  {
    hide Step, Run;
    var looking := At(OneThread(), 0, Sub(1, Forever));
    RunTwo(OneThread(), Wait(0, 1, Forever), Go(0, true),
           [Go(0, false), Go(0, true), Go(0, false), Go(0, true), Go(0, true)]);
    FindsNothing();
    RunTwo(Step(Step(OneThread(), Wait(0, 1, Forever)), Go(0, true)), Go(0, false), Go(0, true),
           [Go(0, false), Go(0, true), Go(0, true)]);
    assert [Go(0, false), Go(0, true), Go(0, false), Go(0, true), Go(0, true)]
        == [Go(0, false), Go(0, true)] + [Go(0, false), Go(0, true), Go(0, true)];
    GivesUp(looking);
    assert [Wait(0, 1, Forever), Go(0, true), Go(0, false), Go(0, true), Go(0, false), Go(0, true), Go(0, true)]
        == [Wait(0, 1, Forever), Go(0, true)] + [Go(0, false), Go(0, true), Go(0, false), Go(0, true), Go(0, true)];
  }

  lemma FindsNothing()
    ensures Step(Step(Step(OneThread(), Wait(0, 1, Forever)), Go(0, true)), Go(0, false))
         == At(OneThread(), 0, Sub(1, Forever))
  {
    assert Step(OneThread(), Wait(0, 1, Forever)) == At(OneThread(), 0, TryLoad(1, 0, Forever));
    assert Step(At(OneThread(), 0, TryLoad(1, 0, Forever)), Go(0, true)) == At(OneThread(), 0, SpinLoad(1, Forever));
  }

  lemma GivesUp(s: State)
    requires s == At(OneThread(), 0, Sub(1, Forever))
    ensures Run(Step(s, Go(0, true)), [Go(0, false), Go(0, true), Go(0, true)]).results
         == [Outcome(0, 1, Forever, 0, Ledger(1, 0, 1, true, false))]
  {
    var s1 := Step(s, Go(0, true));
    assert s1 == State(-1, 0, [OsWait(1, Forever)], [], [Ledger(1, 0, 0, false, false)], 0, 0);
    RunTwo(s1, Go(0, false), Go(0, true), [Go(0, true)]);
    var s3 := Step(Step(s1, Go(0, false)), Go(0, true));
    assert Run(s3, [Go(0, true)]) == Step(s3, Go(0, true)) by { RunOne(s3, Go(0, true)); }
  }

  lemma RunOne(s: State, a: Action)
    ensures Run(s, [a]) == Step(s, a)
  {}

  /** An untimed wait for no permits comes back with none, although nothing goes wrong. */
  lemma WaitForNothing()
    ensures var steps := [Wait(0, 0, Forever), Go(0, true)];
      Run(OneThread(), steps).results == [Outcome(0, 0, Forever, 0, Blank.(none := true))]
  {}

  lemma RunTwo(s: State, a: Action, b: Action, rest: seq<Action>)
    ensures Run(s, [a, b] + rest) == Run(Step(Step(s, a), b), rest)
  {}

  /** No wake-up is lost: with the count at or above zero, every waiter that does not know its fate is matched
      by a post of its own, made or still owed by a signaller. */
  lemma NoLostWakeup(s0: State, schedule: seq<Action>)
    requires Init(s0) && Run(s0, schedule).count >= 0
    ensures var s := Run(s0, schedule); Waiters(s) == s.os + OwedPosts(s)
  {
    hide Inv;
    ReachableInv(s0, schedule);
    SumsHold(Run(s0, schedule), s0.count);
  }

  // ---------------------------------------------------------------- the books of a thread

  function DecrementsOf(t: nat): Outcome -> nat { (o: Outcome) => if o.thread == t then o.ledger.decrements else 0 }
  function PostsOf(t: nat): Outcome -> nat { (o: Outcome) => if o.thread == t then o.ledger.posts else 0 }
  function UndoneOf(t: nat): Outcome -> nat { (o: Outcome) => if o.thread == t then o.ledger.undone else 0 }

  lemma {:induction false} BooksBalance(results: seq<Outcome>, t: nat)
    requires ResultsInv(results)
    ensures Total(results, DecrementsOf(t)) == Total(results, PostsOf(t)) + Total(results, UndoneOf(t))
  {
    if results != [] {
      BooksBalance(results[1..], t);
    }
  }

  /** Each decrement that found no permit is settled once, in every run, for every thread: it has brought one
      post, or has been undone, or the thread is still waiting for one of the two.  Posts are settled as well:
      each is taken or still there; and what is undone is back in the count. */
  lemma ResolvedOnce(s0: State, schedule: seq<Action>, t: nat)
    requires Init(s0) && t < |Run(s0, schedule).pcs|
    ensures var s := Run(s0, schedule);
      && |s.calls| == |s.pcs|
      && Total(s.results, DecrementsOf(t)) + s.calls[t].decrements
         == Total(s.results, PostsOf(t)) + s.calls[t].posts + Total(s.results, UndoneOf(t)) + Waiting(s.pcs[t])
      && PostsTaken(s) + s.os == s.posted
      && s.count == s0.count + s.signalled - Acquired(s) - Waiters(s)
  {
    hide Inv, ResultsInv, LedgerOk, PcOk;
    var s := Run(s0, schedule);
    ReachableInv(s0, schedule);
    SumsHold(s, s0.count);
    CallBalances(s, t, s0.count);
    BooksBalance(s.results, t);
  }

  /** A call that decremented leaves either with a post, and so with a permit, or with its decrement undone
      and nothing. */
  lemma LeavesEitherWay(s0: State, schedule: seq<Action>, k: nat)
    requires Init(s0) && k < |Run(s0, schedule).results|
    requires Run(s0, schedule).results[k].ledger.decrements > 0
    ensures var o := Run(s0, schedule).results[k];
      && o.ledger.decrements == 1
      && (   (o.ledger.posts == 1 && o.ledger.undone == 0 && o.taken > 0)
          || (o.ledger.posts == 0 && o.ledger.undone == 1 && o.taken == 0))
  {
    hide Inv;
    ReachableInv(s0, schedule);
    SumsHold(Run(s0, schedule), s0.count);
  }

  // ---------------------------------------------------------------- waits are greedy

  lemma EmptyAfterLooking(s: State, t: nat, choice: bool)
    requires t < |s.pcs| == |s.calls| && PcOk(s.pcs[t]) && (s.pcs[t].TryLoad? || s.pcs[t].TryCas?)
    ensures var s' := Advance(s, t, choice);
      |s'.results| > |s.results| ==>
        var o := s'.results[|s.results|];
        s'.results == s.results + [o] && (o.taken < o.max ==> s'.count <= 0)
  {}

  lemma EmptyAfterSpinning(s: State, t: nat, choice: bool)
    requires t < |s.pcs| == |s.calls| && PcOk(s.pcs[t]) && (s.pcs[t].SpinLoad? || s.pcs[t].SpinCas?)
    ensures var s' := Advance(s, t, choice);
      |s'.results| > |s.results| ==>
        var o := s'.results[|s.results|];
        s'.results == s.results + [o] && (o.taken < o.max ==> s'.count <= 0)
  {}

  lemma EmptyAfterWaiting(s: State, t: nat, choice: bool)
    requires t < |s.pcs| == |s.calls| && PcOk(s.pcs[t]) && !Looking(s.pcs[t])
    ensures var s' := Advance(s, t, choice);
      |s'.results| > |s.results| ==>
        var o := s'.results[|s.results|];
        s'.results == s.results + [o] && (o.taken < o.max ==> s'.count <= 0)
  {}

  /** A wait takes all it can: in every run, a call that returns with fewer permits than it asked for leaves none
      in the count. */
  lemma ShortLeavesNone(s0: State, schedule: seq<Action>, a: Action)
    requires Init(s0)
    ensures var s, s' := Run(s0, schedule), Step(Run(s0, schedule), a);
      |s'.results| > |s.results| ==>
        var o := s'.results[|s.results|];
        s'.results == s.results + [o] && (o.taken < o.max ==> s'.count <= 0)
  {
    var s := Run(s0, schedule);
    if a.Go? && a.t < |s.pcs| == |s.calls| && PcOk(s.pcs[a.t]) {
      if s.pcs[a.t].TryLoad? || s.pcs[a.t].TryCas? { EmptyAfterLooking(s, a.t, a.choice); }
      else if Looking(s.pcs[a.t]) { EmptyAfterSpinning(s, a.t, a.choice); }
      else { EmptyAfterWaiting(s, a.t, a.choice); }
    }
    hide Run, Init, Advance, PcOk;
  }

  /** From every reachable state, a call that runs alone, its exchange not failing for no reason, takes
      min(max, count) permits: a try always, a wait when there is a permit. */
  lemma AloneTakesAll(s0: State, schedule: seq<Action>, t: nat, max: nat, mode: Mode)
    requires Init(s0) && t < |Run(s0, schedule).pcs| && Run(s0, schedule).pcs[t] == Idle
    requires mode == Try || Run(s0, schedule).count > 0
    ensures var s := Run(s0, schedule);
      var s', taken := Step(Step(Step(s, Wait(t, max, mode)), Go(t, true)), Go(t, true)), Min(max, Max0(s.count));
      && s'.results == s.results + [Outcome(t, max, mode, taken, Blank.(none := s.count <= 0))]
      && s'.count == s.count - taken && s'.os == s.os && s'.pcs == s.pcs
  {
    hide Inv, Step;
    var s := Run(s0, schedule);
    ReachableInv(s0, schedule);
    ThreadOk(s, t, s0.count);
    AloneLooks(s, t, max, mode);
    var s1 := At(s, t, TryLoad(max, 0, mode));
    if s.count > 0 {
      AloneExchanges(At(s1, t, TryCas(max, 0, mode, s.count)), t);
    } else {
      IdleStays(Step(s1, Go(t, true)), t);
    }
  }

  lemma AloneLooks(s: State, t: nat, max: nat, mode: Mode)
    requires t < |s.pcs| == |s.calls| && s.pcs[t] == Idle && (mode == Try || s.count > 0)
    ensures Step(s, Wait(t, max, mode)) == At(s, t, TryLoad(max, 0, mode))
    ensures var s2 := Step(At(s, t, TryLoad(max, 0, mode)), Go(t, true));
      if s.count > 0 then s2 == At(At(s, t, TryLoad(max, 0, mode)), t, TryCas(max, 0, mode, s.count))
      else
        && s2.results == s.results + [Outcome(t, max, mode, 0, s.calls[t].(none := true))]
        && s2.count == s.count && s2.os == s.os && s2.pcs == s.pcs && |s2.calls| == |s.calls|
  {}

  lemma AloneExchanges(s: State, t: nat)
    requires t < |s.pcs| == |s.calls| && s.pcs[t].TryCas? && s.pcs[t].got == 0 && s.pcs[t].seen == s.count > 0
    ensures var pc, s' := s.pcs[t], Step(s, Go(t, true));
      var taken := Min(pc.max, s.count);
      && s'.results == s.results + [Outcome(t, pc.max, pc.mode, taken, s.calls[t])]
      && s'.count == s.count - taken && s'.os == s.os && s'.pcs == s.pcs[t := Idle]
  {}

  lemma IdleStays(s: State, t: nat)
    requires t < |s.pcs| && s.pcs[t] == Idle
    ensures Step(s, Go(t, true)) == s
  {}

  // ---------------------------------------------------------------- signals wake

  /** A waiter that the OS semaphore has a post for takes it in one step, and has its permit. */
  lemma PostWakes(s0: State, schedule: seq<Action>, t: nat)
    requires Init(s0) && t < |Run(s0, schedule).pcs| && Run(s0, schedule).pcs[t].OsWait?
    requires Run(s0, schedule).os > 0
    ensures var s, s' := Run(s0, schedule), Step(Run(s0, schedule), Go(t, true));
      && |s'.pcs| == |s.pcs| && !Unresolved(s'.pcs[t]) && s'.os == s.os - 1 && s'.count == s.count
      && Acquired(s') == Acquired(s) + 1
  {
    hide Inv;
    var s := Run(s0, schedule);
    ReachableInv(s0, schedule);
    ThreadOk(s, t, s0.count);
    TakesPost(s, t);
  }

  lemma TakesPost(s: State, t: nat)
    requires t < |s.pcs| == |s.calls| && PcOk(s.pcs[t]) && s.pcs[t].OsWait? && s.os > 0
    ensures var s' := Step(s, Go(t, true));
      && |s'.pcs| == |s.pcs| && !Unresolved(s'.pcs[t]) && s'.os == s.os - 1 && s'.count == s.count
      && Acquired(s') == Acquired(s) + 1
  {
    var s' := Step(s, Go(t, true));
    TotalUpdate(s.pcs, GotW(), t, s'.pcs[t]);
    if |s'.results| > |s.results| { TotalAppend(s.results, TakenW(), s'.results[|s.results|]); }
  }

  /** Thread t makes n posts. */
  function Posting(s: State, t: nat, n: nat): State
    decreases n
  {
    if n == 0 then s else Posting(Step(s, Go(t, true)), t, n - 1)
  }

  lemma {:induction false} PostsAll(s: State, t: nat, n: nat)
    requires t < |s.pcs| == |s.calls| && n > 0 && s.pcs[t] == Post(n)
    ensures var s' := Posting(s, t, n);
      s'.os == s.os + n && s'.count == s.count && s'.pcs == s.pcs[t := Idle] && s'.posted == s.posted + n
    decreases n
  {
    var s1 := Step(s, Go(t, true));
    if n > 1 { PostsAll(s1, t, n - 1); }
  }

  /** A signal of n permits that runs alone makes one post for each waiter it can serve, and is over. */
  lemma AloneSignals(s: State, t: nat, n: nat)
    requires t < |s.pcs| == |s.calls| && s.pcs[t] == Idle
    ensures var s1 := Step(Step(s, Signal(t, n)), Go(t, true));
      var waiters := Min(n, Max0(-s.count));
      var s' := Posting(s1, t, waiters);
      && s'.count == s.count + n && s'.os == s.os + waiters && s'.pcs == s.pcs && s'.signalled == s.signalled + n
  {
    var waiters := Min(n, Max0(-s.count));
    var s1 := Step(Step(s, Signal(t, n)), Go(t, true));
    assert s1.count == s.count + n && s1.pcs == s.pcs[t := if waiters > 0 then Post(waiters) else Idle];
    if waiters > 0 {
      PostsAll(s1, t, waiters);
      SignalledStays(s1, t, waiters);
    }
  }

  lemma {:induction false} SignalledStays(s: State, t: nat, n: nat)
    requires t < |s.pcs| == |s.calls| && n > 0 && s.pcs[t] == Post(n)
    ensures Posting(s, t, n).signalled == s.signalled
    decreases n
  {
    if n > 1 { SignalledStays(Step(s, Go(t, true)), t, n - 1); }
  }

  // ---------------------------------------------------------------- the re-adjust loop

  /** Once the owed posts are made, a thread anywhere in the re-adjust loop leaves it in three steps of its
      own, and in two from the top of the loop, if nobody interferes: it is never stuck between a count at or
      above zero and an OS semaphore without posts. */
  lemma AdjustExits(s0: State, schedule: seq<Action>, t: nat, c: bool, d: bool, e: bool)
    requires Init(s0) && t < |Run(s0, schedule).pcs| && Adjusting(Run(s0, schedule).pcs[t])
    requires OwedPosts(Run(s0, schedule)) == 0
    ensures var s := Run(s0, schedule);
      var s1 := Step(s, Go(t, c));
      var s2 := Step(s1, Go(t, d));
      var s3 := Step(s2, Go(t, e));
      && |s1.pcs| == |s2.pcs| == |s3.pcs| == |s.pcs|
      && (!Unresolved(s1.pcs[t]) || !Unresolved(s2.pcs[t]) || !Unresolved(s3.pcs[t]))
      && (s.pcs[t].AdjustLoad? ==> !Unresolved(s2.pcs[t]))
  {
    hide Inv;
    var s := Run(s0, schedule);
    ReachableInv(s0, schedule);
    SumsHold(s, s0.count);
    ThreadOk(s, t, s0.count);
    TotalMember(s.pcs, WaitingW(), t);
    hide Step, SumsInv;
    OneStep(s, t, c);
    if s.pcs[t].AdjustLoad? {
      TwoSteps(s, t, c, d);
    } else if Unresolved(Step(s, Go(t, c)).pcs[t]) {
      TwoSteps(Step(s, Go(t, c)), t, d, e);
    }
    OneStep(Step(s, Go(t, c)), t, d);
    OneStep(Step(Step(s, Go(t, c)), Go(t, d)), t, e);
  }

  lemma TwoSteps(s: State, t: nat, c: bool, d: bool)
    requires t < |s.pcs| == |s.calls| && s.pcs[t].AdjustLoad? && PcOk(s.pcs[t]) && (s.count >= 0 ==> s.os > 0)
    ensures !Unresolved(Step(Step(s, Go(t, c)), Go(t, d)).pcs[t])
  {}

  lemma OneStep(s: State, t: nat, c: bool)
    requires t < |s.pcs| == |s.calls|
    ensures var s' := Step(s, Go(t, c));
      && |s'.pcs| == |s'.calls| == |s.pcs|
      && (Acting(s.pcs[t]) && PcOk(s.pcs[t]) && Unresolved(s'.pcs[t]) ==>
            s'.pcs[t].AdjustLoad? && PcOk(s'.pcs[t]) && s'.count == s.count && s'.os == s.os)
  {
    OnlyOwn(s, Go(t, c));
    if Acting(s.pcs[t]) { ActingStep(s, t, c); }
    hide Step, PcOk;
  }

  lemma ActingStep(s: State, t: nat, c: bool)
    requires t < |s.pcs| == |s.calls| && Acting(s.pcs[t])
    ensures var s' := Step(s, Go(t, c));
      && |s'.pcs| == |s.pcs|
      && (PcOk(s.pcs[t]) && Unresolved(s'.pcs[t]) ==>
            s'.pcs[t].AdjustLoad? && PcOk(s'.pcs[t]) && s'.count == s.count && s'.os == s.os)
  {}

  lemma OnlyOwnLooking(s: State, t: nat, c: bool)
    requires t < |s.pcs| == |s.calls| && PcOk(s.pcs[t]) && Looking(s.pcs[t])
    ensures var s' := Advance(s, t, c);
      && |s'.pcs| == |s'.calls| == |s.pcs| && s'.pcs == s.pcs[t := s'.pcs[t]]
  {}

  lemma OnlyOwnOther(s: State, t: nat, c: bool)
    requires t < |s.pcs| == |s.calls| && PcOk(s.pcs[t]) && !Looking(s.pcs[t])
    ensures var s' := Advance(s, t, c);
      && |s'.pcs| == |s'.calls| == |s.pcs| && s'.pcs == s.pcs[t := s'.pcs[t]]
  {}

  /** A step moves the counter of its own thread only. */
  lemma OnlyOwn(s: State, a: Action)
    requires |s.pcs| == |s.calls|
    ensures var s' := Step(s, a);
      && |s'.pcs| == |s'.calls| == |s.pcs| && forall u :: 0 <= u < |s.pcs| && u != a.t ==> s'.pcs[u] == s.pcs[u]
  {
    hide Advance, PcOk;
    if a.Go? && a.t < |s.pcs| && PcOk(s.pcs[a.t]) {
      if Looking(s.pcs[a.t]) { OnlyOwnLooking(s, a.t, a.choice); } else { OnlyOwnOther(s, a.t, a.choice); }
    }
  }

  /** The thread has looked at the count and is about to act on it. */
  predicate Acting(pc: Pc) { pc.AdjustTry? || pc.AdjustCas? }

  predicate Own(a: Action, t: nat) { a.t == t }

  /** Thread t's action sends it back to the top of the re-adjust loop. */
  predicate RoundFails(s: State, a: Action, t: nat) {
    Own(a, t) && t < |s.pcs| && Acting(s.pcs[t]) && t < |Step(s, a).pcs| && Step(s, a).pcs[t].AdjustLoad?
  }

  /** The rounds of the re-adjust loop that fail for thread t while no signaller owes a post. */
  function FailedRounds(s: State, schedule: seq<Action>, t: nat): nat
    decreases |schedule|
  {
    if schedule == [] then 0
    else (if RoundFails(s, schedule[0], t) && OwedPosts(s) == 0 then 1 else 0)
         + FailedRounds(Step(s, schedule[0]), schedule[1..], t)
  }

  /** The steps of other threads that change the count. */
  function Disturbances(s: State, schedule: seq<Action>, t: nat): nat
    decreases |schedule|
  {
    if schedule == [] then 0
    else (if !Own(schedule[0], t) && Step(s, schedule[0]).count != s.count then 1 else 0)
         + Disturbances(Step(s, schedule[0]), schedule[1..], t)
  }

  /** What thread t read of the count no longer holds. */
  function Stale(s: State, t: nat): nat
    requires t < |s.pcs|
  {
    match s.pcs[t]
    case AdjustTry(_, _) => if s.count < 0 then 1 else 0
    case AdjustCas(_, _, seen) => if s.count != seen then 1 else 0
    case _ => 0
  }

  /** The re-adjust loop turns only because others move on: in every run, each round that fails while no
      signaller owes a post has a step of another thread of its own that changed the count since the thread
      looked.  So a loop that keeps turning is one during which other calls keep taking effect. */
  lemma FailedRoundsAreCharged(s0: State, before: seq<Action>, after: seq<Action>, t: nat)
    requires Init(s0) && t < |Run(s0, before).pcs| && !Acting(Run(s0, before).pcs[t])
    ensures FailedRounds(Run(s0, before), after, t) <= Disturbances(Run(s0, before), after, t)
  {
    hide Inv;
    ReachableInv(s0, before);
    ChargesAddUp(Run(s0, before), after, t, s0.count);
  }

  lemma {:induction false} ChargesAddUp(s: State, schedule: seq<Action>, t: nat, initial: int)
    requires Inv(s, initial) && t < |s.pcs|
    ensures FailedRounds(s, schedule, t) <= Stale(s, t) + Disturbances(s, schedule, t)
    decreases |schedule|
  {
    hide Inv, Step, RoundFails, Stale;
    if schedule != [] {
      StepKeeps(s, schedule[0], initial);
      StepCharges(s, schedule[0], t, initial);
      ChargesAddUp(Step(s, schedule[0]), schedule[1..], t, initial);
    }
  }

  lemma StepCharges(s: State, a: Action, t: nat, initial: int)
    requires Inv(s, initial) && t < |s.pcs|
    ensures var s' := Step(s, a);
      && |s'.pcs| == |s.pcs|
      && (if RoundFails(s, a, t) && OwedPosts(s) == 0 then 1 else 0) + Stale(s', t)
         <= Stale(s, t) + (if !Own(a, t) && s'.count != s.count then 1 else 0)
  {
    hide Inv;
    SumsHold(s, initial);
    ThreadOk(s, t, initial);
    if Own(a, t) {
      TotalMember(s.pcs, WaitingW(), t);
      OwnStepCharges(s, a, t);
    } else {
      OtherStepCharges(s, a, t);
    }
  }

  lemma OwnStepCharges(s: State, a: Action, t: nat)
    requires Own(a, t) && t < |s.pcs| == |s.calls|
    requires s.os == 0 && OwedPosts(s) == 0 && Unresolved(s.pcs[t]) ==> s.count < 0
    ensures var s' := Step(s, a);
      && |s'.pcs| == |s.pcs|
      && (if RoundFails(s, a, t) && OwedPosts(s) == 0 then 1 else 0) + Stale(s', t) <= Stale(s, t)
  {
    OnlyOwn(s, a);
  }

  lemma OtherStepCharges(s: State, a: Action, t: nat)
    requires !Own(a, t) && t < |s.pcs| == |s.calls|
    ensures var s' := Step(s, a);
      && |s'.pcs| == |s.pcs| && s'.pcs[t] == s.pcs[t]
      && Stale(s', t) <= Stale(s, t) + (if s'.count != s.count then 1 else 0)
  {
    OnlyOwn(s, a);
    hide Step;
  }

  /** When no call is in flight, every permit is either available or was taken by a call that returned. */
  lemma SettledCount(s0: State, schedule: seq<Action>)
    requires Init(s0)
    requires forall t :: 0 <= t < |Run(s0, schedule).pcs| ==> Run(s0, schedule).pcs[t] == Idle
    ensures var s := Run(s0, schedule);
      s.os == 0 && s.count >= 0 && s.count == s0.count + s.signalled - Total(s.results, TakenW())
  {
    hide Inv;
    var s := Run(s0, schedule);
    ReachableInv(s0, schedule);
    SumsHold(s, s0.count);
    TotalZero(s.pcs, WaitingW());
    TotalZero(s.pcs, GotW());
  }
}
