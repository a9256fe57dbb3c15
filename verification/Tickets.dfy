/** How consumers claim elements of one producer's sub-queue, as a step machine.

    A consumer takes a range of tickets from the optimistic count, and only then learns how many of
    them are backed by elements: those move the head, the others go to the overcommit.  One step is one
    atomic operation; consumers are any number of threads, and the one producer publishes elements at
    any time.  Indices are unbounded integers here; module WrapAround justifies that.

    `won`, `lost`, `claims`, `asked` and `results` are bookkeeping that no step decides on: the tickets found
    to be backed and not backed, the ranges of indices handed out in the order in which the head moved, what
    each thread's call asked for, and what finished calls asked for and got. */
module Tickets {
  import opened Arith
  import opened Sums

  datatype Pc =
    | Idle
    | LoadTail(max: nat)
    | LoadOver(max: nat, tail: nat)
    | LoadOpt(max: nat, tail: nat, over: nat)
    | AddOpt(desired: nat, over: nat)                     // fetch_add of the optimistic count
    | Reload(desired: nat, over: nat, mine: nat)          // reload the tail and decide
    | AddOver(excess: nat, take: nat, backed: bool)       // fetch_add of the overcommit
    | AddHead(take: nat)                                  // fetch_add of the head

  datatype Claim = Claim(thread: nat, first: nat, count: nat)

  /** How a call ended. */
  datatype Result = Result(thread: nat, max: nat, got: nat)

  /** `items` is everything ever published; the tail index is its length. */
  datatype State<T> = State(items: seq<T>, head: nat, opt: nat, over: nat, pcs: seq<Pc>,
                            won: set<int>, lost: set<int>, claims: seq<Claim>, asked: seq<nat>, results: seq<Result>)

  datatype Action<T> = Publish(xs: seq<T>) | Call(t: nat, max: nat) | Go(t: nat)

  function Tail<T>(s: State<T>): nat { |s.items| }

  function At<T>(s: State<T>, t: nat, pc: Pc): State<T>
    requires t < |s.pcs|
  {
    s.(pcs := s.pcs[t := pc])
  }

  function Asked<T>(s: State<T>, t: nat): nat { if t < |s.asked| then s.asked[t] else 0 }

  /** The call of thread t is over. */
  function Finish<T>(s: State<T>, t: nat, got: nat): State<T>
    requires t < |s.pcs|
  {
    At(s, t, Idle).(results := s.results + [Result(t, Asked(s, t), got)])
  }

  /** The tickets lo, lo + 1, ..., lo + n - 1. */
  function Range(lo: int, n: nat): (r: set<int>)
    ensures forall i :: i in r <==> lo <= i < lo + n
    ensures |r| == n
  {
    if n == 0 then {} else Range(lo, n - 1) + {lo + n - 1}
  }

  /** The atomic step of thread `t`; `dequeue` is the call with max 1. */
  function Advance<T>(s: State<T>, t: nat): State<T>
    requires t < |s.pcs|
  {
    match s.pcs[t]
    case Idle => s
    case LoadTail(max) => At(s, t, LoadOver(max, Tail(s)))
    case LoadOver(max, tail) => At(s, t, LoadOpt(max, tail, s.over))
    case LoadOpt(max, tail, over) =>
      var available := tail - (s.opt - over);
      if available > 0 then At(s, t, AddOpt(Min(available, max), over)) else Finish(s, t, 0)
    case AddOpt(desired, over) =>
      At(s.(opt := s.opt + desired), t, Reload(desired, over, s.opt))
    case Reload(desired, over, mine) =>
      var available := Tail(s) - (mine - over);
      if available > 0 then
        var actual := Min(desired, available);
        At(s.(won := s.won + Range(mine, actual),
              lost := s.lost + Range(mine + actual, desired - actual)), t,
           if actual < desired then AddOver(desired - actual, actual, true) else AddHead(actual))
      else
        At(s.(lost := s.lost + Range(mine, desired)), t, AddOver(desired, 0, false))
    case AddOver(excess, take, backed) =>
      var s1 := s.(over := s.over + excess);
      if backed then At(s1, t, AddHead(take)) else Finish(s1, t, 0)
    case AddHead(take) =>
      Finish(s.(head := s.head + take, claims := s.claims + [Claim(t, s.head, take)]), t, take)
  }

  function Step<T>(s: State<T>, a: Action<T>): State<T> {
    match a
    case Publish(xs) => s.(items := s.items + xs)
    case Call(t, max) =>
      if t < |s.pcs| && s.pcs[t] == Idle then
        At(s.(asked := if t < |s.asked| then s.asked[t := max] else s.asked), t, LoadTail(max))
      else s
    case Go(t) => if t < |s.pcs| then Advance(s, t) else s
  }

  function Run<T>(s: State<T>, schedule: seq<Action<T>>): State<T>
    decreases |schedule|
  {
    if schedule == [] then s else Run(Step(s, schedule[0]), schedule[1..])
  }

  ghost predicate Init<T>(s: State<T>) {
    && s.items == [] && s.head == 0 && s.opt == 0 && s.over == 0
    && s.won == {} && s.lost == {} && s.claims == [] && s.results == [] && |s.asked| == |s.pcs|
    && (forall t :: 0 <= t < |s.pcs| ==> s.pcs[t] == Idle)
  }

  // ---------------------------------------------------------------- what threads owe

  /** Tickets found to be backed whose head move is still to come. */
  function Claims(pc: Pc): nat {
    match pc
    case AddOver(_, take, backed) => if backed then take else 0
    case AddHead(take) => take
    case _ => 0
  }

  /** Tickets found not to be backed whose overcommit is still to come. */
  function Excess(pc: Pc): nat { if pc.AddOver? then pc.excess else 0 }

  /** Tickets taken and not yet decided. */
  function Open(pc: Pc): nat { if pc.Reload? then pc.desired else 0 }

  function ClaimsW(): Pc -> nat { pc => Claims(pc) }
  function ExcessW(): Pc -> nat { pc => Excess(pc) }
  function OpenW(): Pc -> nat { pc => Open(pc) }

  /** Every ticket that is in some thread's hands. */
  function Unresolved<T>(s: State<T>): nat {
    Total(s.pcs, OpenW()) + Total(s.pcs, ClaimsW()) + Total(s.pcs, ExcessW())
  }

  /** No ticket of `x` is among lo, ..., lo + n - 1. */
  predicate Clear(x: set<int>, lo: int, n: nat) { forall i :: i in x ==> i < lo || lo + n <= i }

  function Below(x: set<int>, k: int): set<int> { set i | i in x && i < k }

  ghost predicate PcInv<T>(s: State<T>, pc: Pc) {
    && (pc.LoadOpt? || pc.AddOpt? ==> pc.over <= |s.lost|)
    && (pc.Reload? ==>
          && pc.mine + pc.desired <= s.opt
          && pc.over <= |Below(s.lost, pc.mine)|
          && Clear(s.won, pc.mine, pc.desired) && Clear(s.lost, pc.mine, pc.desired))
  }

  /** Undecided tickets of different threads do not overlap. */
  predicate Disjoint(p: Pc, q: Pc) {
    p.Reload? && q.Reload? ==> p.mine + p.desired <= q.mine || q.mine + q.desired <= p.mine
  }

  ghost predicate Apart(s: seq<Pc>) {
    forall t, u :: 0 <= t < |s| && 0 <= u < |s| && t != u ==> Disjoint(s[t], s[u])
  }

  /** The decided tickets are among those taken, and a backed one is backed by a published element
      even after setting aside the failed ones below it. */
  ghost predicate SetsInv<T>(s: State<T>) {
    && s.won !! s.lost && s.won <= Range(0, s.opt) && s.lost <= Range(0, s.opt)
    && (forall j :: j in s.won ==> j + 1 - |Below(s.lost, j)| <= Tail(s))
  }

  ghost predicate SumsInv<T>(s: State<T>) {
    && |s.won| == s.head + Total(s.pcs, ClaimsW())
    && |s.lost| == s.over + Total(s.pcs, ExcessW())
    && s.opt == |s.won| + |s.lost| + Total(s.pcs, OpenW())
  }

  ghost predicate PcsInv<T>(s: State<T>) {
    && Apart(s.pcs)
    && (forall t :: 0 <= t < |s.pcs| ==> PcInv(s, s.pcs[t]))
  }

  ghost predicate Inv<T>(s: State<T>) {
    SetsInv(s) && SumsInv(s) && PcsInv(s) && Contiguous(s.claims, s.head)
  }

  /** The claims cut [0, head) into consecutive ranges. */
  predicate Contiguous(claims: seq<Claim>, head: nat)
    decreases |claims|
  {
    if claims == [] then head == 0
    else
      var c := claims[|claims| - 1];
      head == c.first + c.count && Contiguous(claims[..|claims| - 1], c.first)
  }

  /** What the claims deliver, in the order in which they were made. */
  function Delivered<T>(claims: seq<Claim>, items: seq<T>): seq<T>
    requires forall k :: 0 <= k < |claims| ==> claims[k].first + claims[k].count <= |items|
    decreases |claims|
  {
    if claims == [] then []
    else
      var c := claims[|claims| - 1];
      Delivered(claims[..|claims| - 1], items) + items[c.first..c.first + c.count]
  }

  // ---------------------------------------------------------------- counting tickets

  lemma SubsetSize(a: set<int>, b: set<int>)
    requires a <= b
    ensures |a| <= |b|
  {
    assert b == a + (b - a);
  }

  lemma BelowGrows(x: set<int>, y: set<int>, k: int, m: int)
    requires x <= y && k <= m
    ensures |Below(x, k)| <= |Below(y, m)|
  {
    SubsetSize(Below(x, k), Below(y, m));
  }

  lemma {:induction false} Largest(x: set<int>) returns (m: int)
    requires exists i :: i in x
    ensures m in x && forall i :: i in x ==> i <= m
    decreases |x|
  {
    var k :| k in x;
    m := k;
    var rest := x - {k};
    if exists i :: i in rest {
      var r := Largest(rest);
      if r > m { m := r; }
    }
    forall i | i in x ensures i <= m {
      assert i == k || i in rest;
    }
  }

  /** The heart of the argument: the backed tickets are no more than the published elements.  Below the
      largest backed ticket lie only backed, failed and open ones, and the failed ones below it were
      enough to bring its effective position under the tail. */
  lemma BackedByElements<T>(s: State<T>)
    requires Inv(s)
    ensures |s.won| <= Tail(s)
  {
    if exists i :: i in s.won {
      var j := Largest(s.won);
      var below := Below(s.lost, j);
      SubsetSize(s.won + below, Range(0, j + 1));
    } else {
      assert s.won == {};
    }
  }

  // ---------------------------------------------------------------- the invariant over runs

  lemma Deltas<T>(s: State<T>, s': State<T>, t: nat)
    requires t < |s.pcs| == |s'.pcs| && s'.pcs == s.pcs[t := s'.pcs[t]]
    ensures Total(s'.pcs, ClaimsW()) + Claims(s.pcs[t]) == Total(s.pcs, ClaimsW()) + Claims(s'.pcs[t])
    ensures Total(s'.pcs, ExcessW()) + Excess(s.pcs[t]) == Total(s.pcs, ExcessW()) + Excess(s'.pcs[t])
    ensures Total(s'.pcs, OpenW()) + Open(s.pcs[t]) == Total(s.pcs, OpenW()) + Open(s'.pcs[t])
  {
    TotalUpdate(s.pcs, ClaimsW(), t, s'.pcs[t]);
    TotalUpdate(s.pcs, ExcessW(), t, s'.pcs[t]);
    TotalUpdate(s.pcs, OpenW(), t, s'.pcs[t]);
  }

  /** A step that takes no ticket and decides none. */
  predicate Quiet(pc: Pc) { !pc.AddOpt? && !pc.Reload? }

  lemma QuietSame<T>(s: State<T>, t: nat)
    requires t < |s.pcs| && Quiet(s.pcs[t])
    ensures var s' := Advance(s, t);
      s'.won == s.won && s'.lost == s.lost && s'.opt == s.opt && s'.items == s.items
  {}

  lemma QuietEffect<T>(s: State<T>, t: nat)
    requires t < |s.pcs| && Quiet(s.pcs[t])
    ensures var s' := Advance(s, t);
      && |s'.pcs| == |s.pcs| && s'.pcs == s.pcs[t := s'.pcs[t]]
      && s'.head + Claims(s'.pcs[t]) == s.head + Claims(s.pcs[t])
      && s'.over + Excess(s'.pcs[t]) == s.over + Excess(s.pcs[t]) && Open(s'.pcs[t]) == Open(s.pcs[t])
      && (if s.pcs[t].AddHead? then s'.claims == s.claims + [Claim(t, s.head, s.pcs[t].take)]
          else s'.claims == s.claims && s'.head == s.head)
  {}

  lemma QuietSums<T>(s: State<T>, t: nat)
    requires SumsInv(s) && t < |s.pcs| && Quiet(s.pcs[t]) && Contiguous(s.claims, s.head)
    ensures SumsInv(Advance(s, t)) && Contiguous(Advance(s, t).claims, Advance(s, t).head)
  {
    QuietEffect(s, t);
    QuietSame(s, t);
    hide Advance, Excess, Open;
    Deltas(s, Advance(s, t), t);
  }

  lemma QuietPcs<T>(s: State<T>, t: nat)
    requires PcsInv(s) && t < |s.pcs| && Quiet(s.pcs[t]) && s.over <= |s.lost|
    ensures PcsInv(Advance(s, t))
  {
    var s' := Advance(s, t);
    assert PcInv(s', s'.pcs[t]) && !s'.pcs[t].Reload?;
  }

  lemma TakeKeeps<T>(s: State<T>, t: nat)
    requires Inv(s) && t < |s.pcs| && s.pcs[t].AddOpt?
    ensures Inv(Advance(s, t))
  {
    Deltas(s, Advance(s, t), t);
    TakePcs(s, t);
  }

  lemma TakePcs<T>(s: State<T>, t: nat)
    requires PcsInv(s) && t < |s.pcs| && s.pcs[t].AddOpt?
    requires s.won <= Range(0, s.opt) && s.lost <= Range(0, s.opt)
    ensures PcsInv(Advance(s, t))
  {
    var s' := Advance(s, t);
    assert Below(s.lost, s.opt) == s.lost;
    forall u | 0 <= u < |s'.pcs| ensures PcInv(s', s'.pcs[u]) {
    }
    forall u | 0 <= u < |s'.pcs| && u != t ensures Disjoint(s'.pcs[u], s'.pcs[t]) {
    }
  }

  /** How many tickets of thread `t` are backed when it reloads the tail. */
  function Backed<T>(s: State<T>, t: nat): (actual: nat)
    requires t < |s.pcs| && s.pcs[t].Reload?
    ensures actual <= s.pcs[t].desired
  {
    var pc := s.pcs[t];
    var available := Tail(s) - (pc.mine - pc.over);
    if available > 0 then Min(pc.desired, available) else 0
  }

  lemma DecideEffect<T>(s: State<T>, t: nat)
    requires t < |s.pcs| && s.pcs[t].Reload?
    ensures var pc, s', actual := s.pcs[t], Advance(s, t), Backed(s, t);
      && s'.won == s.won + Range(pc.mine, actual)
      && s'.lost == s.lost + Range(pc.mine + actual, pc.desired - actual)
      && s'.opt == s.opt && s'.items == s.items && s'.head == s.head && s'.over == s.over
      && s'.claims == s.claims && s'.pcs == s.pcs[t := s'.pcs[t]]
      && Claims(s'.pcs[t]) == actual && Excess(s'.pcs[t]) == pc.desired - actual && Open(s'.pcs[t]) == 0
      && !s'.pcs[t].Reload?
  {
    assert Range(s.pcs[t].mine, 0) == {};
  }

  /** The newly backed tickets respect the bound: the overcommit that was loaded counts only tickets
      that had failed before these were taken. */
  lemma DecideSets<T>(s: State<T>, t: nat)
    requires SetsInv(s) && t < |s.pcs| && s.pcs[t].Reload? && PcInv(s, s.pcs[t])
    ensures SetsInv(Advance(s, t))
  {
    var s', pc := Advance(s, t), s.pcs[t];
    forall j | j in s'.won ensures j + 1 - |Below(s'.lost, j)| <= Tail(s') {
      if j in s.won {
        BelowGrows(s.lost, s'.lost, j, j);
      } else {
        BelowGrows(s.lost, s'.lost, pc.mine, j);
      }
    }
  }

  lemma DecidePcs<T>(s: State<T>, t: nat)
    requires PcsInv(s) && t < |s.pcs| && s.pcs[t].Reload?
    ensures PcsInv(Advance(s, t))
  {
    var s', pc := Advance(s, t), s.pcs[t];
    DecideEffect(s, t);
    forall u | 0 <= u < |s'.pcs| ensures PcInv(s', s'.pcs[u]) {
      if u != t {
        assert PcInv(s, s.pcs[u]) && Disjoint(s.pcs[u], pc);
        if s.pcs[u].Reload? { BelowGrows(s.lost, s'.lost, s.pcs[u].mine, s.pcs[u].mine); }
      }
    }
  }

  lemma DecideKeeps<T>(s: State<T>, t: nat)
    requires Inv(s) && t < |s.pcs| && s.pcs[t].Reload?
    ensures Inv(Advance(s, t))
  {
    DecideEffect(s, t);
    DecideSets(s, t);
    DecidePcs(s, t);
    Deltas(s, Advance(s, t), t);
  }

  lemma QuietKeeps<T>(s: State<T>, t: nat)
    requires Inv(s) && t < |s.pcs| && Quiet(s.pcs[t])
    ensures Inv(Advance(s, t))
  {
    QuietSame(s, t);
    QuietSums(s, t);
    QuietPcs(s, t);
  }

  lemma PublishKeeps<T>(s: State<T>, xs: seq<T>)
    requires Inv(s)
    ensures Inv(Step(s, Publish(xs)))
  {
    hide Apart, Contiguous, Below, Clear;
    var s' := Step(s, Publish(xs));
    forall u | 0 <= u < |s'.pcs| ensures PcInv(s', s'.pcs[u]) { assert PcInv(s, s.pcs[u]); }
  }

  lemma CallKeeps<T>(s: State<T>, t: nat, max: nat)
    requires Inv(s) && t < |s.pcs| && s.pcs[t] == Idle
    ensures Inv(Step(s, Call(t, max)))
  {
    hide Contiguous, Below, Clear;
    var s' := Step(s, Call(t, max));
    Deltas(s, s', t);
    forall u | 0 <= u < |s'.pcs| ensures PcInv(s', s'.pcs[u]) { assert PcInv(s, s.pcs[u]); }
  }

  lemma StepKeeps<T>(s: State<T>, a: Action<T>)
    requires Inv(s)
    ensures Inv(Step(s, a))
  {
    hide Inv, Advance;
    match a
    case Publish(xs) => PublishKeeps(s, xs);
    case Call(t, max) => if t < |s.pcs| && s.pcs[t] == Idle { CallKeeps(s, t, max); }
    case Go(t) =>
      if t < |s.pcs| {
        match s.pcs[t]
        case AddOpt(_, _) => TakeKeeps(s, t);
        case Reload(_, _, _) => DecideKeeps(s, t);
        case _ => QuietKeeps(s, t);
      }
  }

  lemma {:induction false} RunKeeps<T>(s: State<T>, schedule: seq<Action<T>>)
    requires Inv(s)
    ensures Inv(Run(s, schedule))
    decreases |schedule|
  {
    if schedule != [] {
      StepKeeps(s, schedule[0]);
      RunKeeps(Step(s, schedule[0]), schedule[1..]);
    }
  }

  lemma ReachableInv<T>(s0: State<T>, schedule: seq<Action<T>>)
    requires Init(s0)
    ensures Inv(Run(s0, schedule))
  {
    TotalZero(s0.pcs, ClaimsW());
    TotalZero(s0.pcs, ExcessW());
    TotalZero(s0.pcs, OpenW());
    RunKeeps(s0, schedule);
  }

  // ---------------------------------------------------------------- what holds in every run

  /** The head, with the claims that have won but not yet moved it, never passes the tail; and the
      optimistic count is accounted for at every moment. */
  lemma NeverOverdrawn<T>(s0: State<T>, schedule: seq<Action<T>>)
    requires Init(s0)
    ensures var s := Run(s0, schedule);
      && s.head + Total(s.pcs, ClaimsW()) <= Tail(s)
      && s.opt == s.head + s.over + Unresolved(s)
  {
    ReachableInv(s0, schedule);
    BackedByElements(Run(s0, schedule));
  }

  lemma {:induction false} ContiguousDelivers<T>(claims: seq<Claim>, head: nat, items: seq<T>)
    requires Contiguous(claims, head) && head <= |items|
    ensures forall k :: 0 <= k < |claims| ==> claims[k].first + claims[k].count <= |items|
    ensures Delivered(claims, items) == items[..head]
    decreases |claims|
  {
    if claims != [] {
      var n := |claims| - 1;
      var c := claims[n];
      ContiguousDelivers(claims[..n], c.first, items);
      forall k | 0 <= k < |claims| ensures claims[k].first + claims[k].count <= |items| {
      }
    }
  }

  /** Every element is handed out at most once, to one claim, in the order of publication. */
  lemma ClaimsDeliverInOrder<T>(s0: State<T>, schedule: seq<Action<T>>)
    requires Init(s0)
    ensures var s := Run(s0, schedule);
      && s.head <= Tail(s)
      && Contiguous(s.claims, s.head)
      && (forall k :: 0 <= k < |s.claims| ==> s.claims[k].first + s.claims[k].count <= |s.items|)
      && Delivered(s.claims, s.items) == s.items[..s.head]
  {
    var s := Run(s0, schedule);
    ReachableInv(s0, schedule);
    BackedByElements(s);
    ContiguousDelivers(s.claims, s.head, s.items);
  }

  /** Distinct claims are disjoint ranges. */
  lemma {:induction false} ClaimsDisjoint(claims: seq<Claim>, head: nat, j: nat, k: nat)
    requires Contiguous(claims, head) && j < k < |claims|
    ensures claims[j].first + claims[j].count <= claims[k].first
    ensures claims[k].first + claims[k].count <= head
    decreases |claims|
  {
    var n := |claims| - 1;
    var c := claims[n];
    if k < n {
      ClaimsDisjoint(claims[..n], c.first, j, k);
    } else if j + 1 < n {
      ClaimsDisjoint(claims[..n], c.first, j, n - 1);
    }
  }

  /** Thread `t` takes `n` steps in a row. */
  function Solo<T>(s: State<T>, t: nat, n: nat): (s': State<T>)
    requires t < |s.pcs|
    ensures |s'.pcs| == |s.pcs|
  {
    if n == 0 then s else Advance(Solo(s, t, n - 1), t)
  }

  /** When no call is in flight, a call that runs alone claims min(max, size) elements from the head:
      a false return is then exact. */
  lemma QuiescentCallIsExact<T>(s0: State<T>, schedule: seq<Action<T>>, t: nat, max: nat)
    requires Init(s0) && t < |Run(s0, schedule).pcs|
    requires forall u :: 0 <= u < |Run(s0, schedule).pcs| ==> Run(s0, schedule).pcs[u] == Idle
    ensures var s := Run(s0, schedule);
      && s.head <= Tail(s)
      && var s' := Solo(Step(s, Call(t, max)), t, 6);
      && var got: nat := Min(max, Tail(s) - s.head);
      && s'.pcs == s.pcs && s'.items == s.items && s'.head == s.head + got
      && s'.claims == (if Tail(s) == s.head then s.claims else s.claims + [Claim(t, s.head, got)])
      && s'.results == s.results + [Result(t, max, got)]
  {
    hide Run, Init, Solo, Step;
    var s := Run(s0, schedule);
    ReachableInv(s0, schedule);
    StartsSized(s0);
    SizesRun(s0, schedule);
    QuiescentSums(s);
    BackedByElements(s);
    hide Inv;
    CallAlone(s, t, max);
  }

  lemma StartsSized<T>(s: State<T>)
    requires Init(s)
    ensures |s.asked| == |s.pcs|
  {}

  lemma TailLoaded<T>(s: State<T>, t: nat, max: nat)
    requires t < |s.pcs|
    ensures Advance(At(s, t, LoadTail(max)), t) == At(s, t, LoadOver(max, Tail(s)))
  {}

  lemma OverLoaded<T>(s: State<T>, t: nat, max: nat)
    requires t < |s.pcs|
    ensures Advance(At(s, t, LoadOver(max, Tail(s))), t) == At(s, t, LoadOpt(max, Tail(s), s.over))
  {}

  lemma OptLoaded<T>(s: State<T>, t: nat, max: nat)
    requires t < |s.pcs|
    ensures var available := Tail(s) - (s.opt - s.over);
      Advance(At(s, t, LoadOpt(max, Tail(s), s.over)), t)
      == if available > 0 then At(s, t, AddOpt(Min(available, max), s.over)) else Finish(s, t, 0)
  {}

  lemma OptAdded<T>(s: State<T>, t: nat, desired: nat)
    requires t < |s.pcs|
    ensures Advance(At(s, t, AddOpt(desired, s.over)), t)
         == At(s.(opt := s.opt + desired), t, Reload(desired, s.over, s.opt))
  {}

  lemma ThreeSteps<T>(s: State<T>, t: nat)
    requires t < |s.pcs|
    ensures |Advance(s, t).pcs| == |Advance(Advance(s, t), t).pcs| == |s.pcs|
    ensures Solo(s, t, 3) == Advance(Advance(Advance(s, t), t), t)
  {
    hide Advance;
    assert Solo(s, t, 1) == Advance(Solo(s, t, 0), t);
    assert Solo(s, t, 2) == Advance(Solo(s, t, 1), t);
    assert Solo(s, t, 3) == Advance(Solo(s, t, 2), t);
  }

  /** The three loads. */
  lemma LooksAlone<T>(s: State<T>, t: nat, max: nat)
    requires t < |s.pcs|
    ensures var available := Tail(s) - (s.opt - s.over);
      Solo(At(s, t, LoadTail(max)), t, 3)
      == if available > 0 then At(s, t, AddOpt(Min(available, max), s.over)) else Finish(s, t, 0)
  {
    hide Advance, Solo, Finish;
    ThreeSteps(At(s, t, LoadTail(max)), t);
    TailLoaded(s, t, max);
    OverLoaded(s, t, max);
    OptLoaded(s, t, max);
  }

  lemma CallAlone<T>(s: State<T>, t: nat, max: nat)
    requires t < |s.pcs| && s.pcs[t] == Idle && s.opt == s.head + s.over && s.head <= Tail(s) && t < |s.asked|
    ensures var s' := Solo(Step(s, Call(t, max)), t, 6);
      var got: nat := Min(max, Tail(s) - s.head);
      && s'.pcs == s.pcs && s'.items == s.items && s'.head == s.head + got
      && s'.claims == (if Tail(s) == s.head then s.claims else s.claims + [Claim(t, s.head, got)])
      && s'.results == s.results + [Result(t, max, got)]
  {
    hide Advance, Solo;
    var b := s.(asked := s.asked[t := max]);
    assert Step(s, Call(t, max)) == At(b, t, LoadTail(max));
    LooksAlone(b, t, max);
    var first := At(b, t, LoadTail(max));
    if Tail(s) == s.head {
      StayIdle(first, t, 3, 6);
    } else {
      var got := Min(max, Tail(s) - s.head);
      OptAdded(b, t, got);
      SixSteps(first, t);
      var b1 := b.(opt := b.opt + got);
      AllBacked(At(b1, t, Reload(got, b.over, b.opt)), t, got);
      assert b1.pcs[t := Reload(got, b.over, b.opt)][t := Idle] == b1.pcs;
    }
  }

  lemma SixSteps<T>(s: State<T>, t: nat)
    requires t < |s.pcs|
    ensures |Advance(Solo(s, t, 3), t).pcs| == |Advance(Advance(Solo(s, t, 3), t), t).pcs| == |s.pcs|
    ensures Solo(s, t, 6) == Advance(Advance(Advance(Solo(s, t, 3), t), t), t)
  {
    hide Advance;
    assert Solo(s, t, 4) == Advance(Solo(s, t, 3), t);
    assert Solo(s, t, 5) == Advance(Solo(s, t, 4), t);
    assert Solo(s, t, 6) == Advance(Solo(s, t, 5), t);
  }

  lemma AllBacked<T>(s: State<T>, t: nat, got: nat)
    requires t < |s.pcs| && s.pcs[t].Reload? && s.pcs[t].desired == got
    requires got <= Tail(s) - (s.pcs[t].mine - s.pcs[t].over) && s.pcs[t].mine - s.pcs[t].over < Tail(s)
    ensures var s' := Advance(Advance(s, t), t);
      && s'.pcs == s.pcs[t := Idle] && s'.items == s.items && s'.head == s.head + got
      && s'.claims == s.claims + [Claim(t, s.head, got)] && s'.results == s.results + [Result(t, Asked(s, t), got)]
  {}

  lemma {:induction false} StayIdle<T>(s: State<T>, t: nat, m: nat, n: nat)
    requires t < |s.pcs| && m <= n && Solo(s, t, m).pcs[t] == Idle
    ensures Solo(s, t, n) == Solo(s, t, m)
  {
    if m < n { StayIdle(s, t, m, n - 1); }
  }

  /** How many more steps a call takes at most in the ticket protocol. */
  function StepsLeft(pc: Pc): nat {
    match pc
    case Idle => 0
    case LoadTail(_) => 7
    case LoadOver(_, _) => 6
    case LoadOpt(_, _, _) => 5
    case AddOpt(_, _) => 4
    case Reload(_, _, _) => 3
    case AddOver(_, _, _) => 2
    case AddHead(_) => 1
  }

  /** The protocol never waits: whatever the other threads do, each step of a thread brings its call closer to its
      end, and nothing else takes it further from it. */
  lemma NeverWaits<T>(s: State<T>, a: Action<T>, t: nat)
    requires t < |s.pcs| && s.pcs[t] != Idle
    ensures t < |Step(s, a).pcs|
    ensures if a == Go(t) then StepsLeft(Step(s, a).pcs[t]) < StepsLeft(s.pcs[t]) else Step(s, a).pcs[t] == s.pcs[t]
  {
    hide Advance, StepsLeft;
    if a.Go? && a.t < |s.pcs| {
      OnlyOwn(s, a.t);
      if a.t == t { ComesNearer(s, t); }
    }
  }

  lemma OnlyOwn<T>(s: State<T>, t: nat)
    requires t < |s.pcs|
    ensures |Advance(s, t).pcs| == |s.pcs| && Advance(s, t).pcs == s.pcs[t := Advance(s, t).pcs[t]]
  {}

  lemma ComesNearer<T>(s: State<T>, t: nat)
    requires t < |s.pcs| && s.pcs[t] != Idle
    ensures t < |Advance(s, t).pcs| && StepsLeft(Advance(s, t).pcs[t]) < StepsLeft(s.pcs[t])
  {}

  // ---------------------------------------------------------------- calls that contend

  /** With tail T, and `base` tickets lost before: a thread whose call will get less than it asked for has seen to
      it that at least T + base tickets are taken. */
  predicate GreedOk(pc: Pc, asked: nat, opt: nat, tail: nat, base: nat) {
    match pc
    case Idle => true
    case LoadTail(max) => max == asked
    case LoadOver(max, tail') => max == asked && tail' == tail
    case LoadOpt(max, tail', over) => max == asked && tail' == tail && over >= base
    case AddOpt(desired, over) => over >= base && desired <= asked && (desired < asked ==> opt + desired >= tail + base)
    case Reload(desired, over, _) => over >= base && desired <= asked && (desired < asked ==> opt >= tail + base)
    case AddOver(_, take, backed) =>
      if backed then take <= asked && (take < asked ==> opt >= tail + base) else 0 < asked ==> opt >= tail + base
    case AddHead(take) => take <= asked && (take < asked ==> opt >= tail + base)
  }

  predicate ResultOk(r: Result, opt: nat, enough: nat) { r.got <= r.max && (r.got < r.max ==> opt >= enough) }

  /** The calls begun since `before` tickets were lost and n calls were over: what they lose lies above T plus
      the tickets lost before. */
  ghost predicate GreedInv<T>(s: State<T>, before: set<int>, n: nat) {
    && |s.asked| == |s.pcs| && n <= |s.results| && s.over >= |before|
    && (forall j :: j in s.lost ==> j in before || j >= Tail(s) + |before|)
    && (forall t :: 0 <= t < |s.pcs| ==> GreedOk(s.pcs[t], s.asked[t], s.opt, Tail(s), |before|))
    && (forall k :: n <= k < |s.results| ==> ResultOk(s.results[k], s.opt, Tail(s) + |before|))
  }

  /** The thread's own part of a step. */
  lemma GreedOwn<T>(s: State<T>, t: nat, before: set<int>, n: nat)
    requires GreedInv(s, before, n) && t < |s.pcs| && PcInv(s, s.pcs[t]) && !s.pcs[t].Reload?
    ensures var s' := Advance(s, t);
      && s'.asked == s.asked && s'.items == s.items && s'.lost == s.lost && s'.opt >= s.opt && s'.over >= s.over
      && |s'.pcs| == |s.pcs| && s'.pcs == s.pcs[t := s'.pcs[t]]
      && GreedOk(s'.pcs[t], s.asked[t], s'.opt, Tail(s), |before|)
  {}

  lemma GreedDecides<T>(s: State<T>, t: nat, before: set<int>, n: nat)
    requires GreedInv(s, before, n) && t < |s.pcs| && PcInv(s, s.pcs[t]) && s.pcs[t].Reload?
    ensures var s' := Advance(s, t);
      && s'.asked == s.asked && s'.items == s.items && s'.opt == s.opt && s'.over == s.over
      && s'.results == s.results && |s'.pcs| == |s.pcs| && s'.pcs == s.pcs[t := s'.pcs[t]]
      && GreedOk(s'.pcs[t], s.asked[t], s'.opt, Tail(s), |before|)
      && (forall j :: j in s'.lost ==> j in before || j >= Tail(s) + |before|)
  {}

  lemma GreedResults<T>(s: State<T>, t: nat, before: set<int>, n: nat)
    requires GreedInv(s, before, n) && t < |s.pcs| && !s.pcs[t].Reload?
    ensures var s' := Advance(s, t);
      && n <= |s'.results|
      && forall k :: n <= k < |s'.results| ==> ResultOk(s'.results[k], s'.opt, Tail(s) + |before|)
  {}

  lemma GreedAdvances<T>(s: State<T>, t: nat, before: set<int>, n: nat)
    requires GreedInv(s, before, n) && t < |s.pcs| && PcInv(s, s.pcs[t])
    ensures GreedInv(Advance(s, t), before, n)
  {
    if s.pcs[t].Reload? {
      GreedDecides(s, t, before, n);
    } else {
      GreedOwn(s, t, before, n);
      GreedResults(s, t, before, n);
    }
    hide Advance, PcInv;
  }

  lemma GreedStep<T>(s: State<T>, a: Action<T>, before: set<int>, n: nat)
    requires Inv(s) && GreedInv(s, before, n) && !a.Publish?
    ensures GreedInv(Step(s, a), before, n)
  {
    hide Advance, PcInv, SetsInv, SumsInv, Contiguous, Apart;
    if a.Go? && a.t < |s.pcs| {
      assert PcInv(s, s.pcs[a.t]);
      GreedAdvances(s, a.t, before, n);
    }
  }

  lemma {:induction false} GreedRun<T>(s: State<T>, schedule: seq<Action<T>>, before: set<int>, n: nat)
    requires Inv(s) && GreedInv(s, before, n)
    requires forall a :: a in schedule ==> !a.Publish?
    ensures Inv(Run(s, schedule)) && GreedInv(Run(s, schedule), before, n)
    decreases |schedule|
  {
    hide Inv, GreedInv, Step;
    if schedule != [] {
      StepKeeps(s, schedule[0]);
      GreedStep(s, schedule[0], before, n);
      GreedRun(Step(s, schedule[0]), schedule[1..], before, n);
    }
  }

  function GotW(): Result -> nat { (r: Result) => r.got }

  lemma ResultStep<T>(s: State<T>, a: Action<T>)
    requires Total(s.results, GotW()) == s.head
    ensures Total(Step(s, a).results, GotW()) == Step(s, a).head
  {
    if a.Go? && a.t < |s.pcs| {
      ResultAdded(s, a.t);
      hide Advance;
      var s' := Advance(s, a.t);
      if |s'.results| > |s.results| { TotalAppend(s.results, GotW(), s'.results[|s.results|]); }
    }
  }

  lemma ResultAdded<T>(s: State<T>, t: nat)
    requires t < |s.pcs|
    ensures var s' := Advance(s, t);
      || (s'.results == s.results && s'.head == s.head)
      || (|s'.results| == |s.results| + 1 && s'.results == s.results + [s'.results[|s.results|]]
          && s'.head == s.head + s'.results[|s.results|].got)
  {}

  /** What finished calls got is, in every run, what the head has moved. */
  lemma {:induction false} ResultsAddUp<T>(s: State<T>, schedule: seq<Action<T>>)
    requires Total(s.results, GotW()) == s.head
    ensures Total(Run(s, schedule).results, GotW()) == Run(s, schedule).head
    decreases |schedule|
  {
    hide Step;
    if schedule != [] {
      ResultStep(s, schedule[0]);
      ResultsAddUp(Step(s, schedule[0]), schedule[1..]);
    }
  }

  ghost predicate Quiescent<T>(s: State<T>) { forall t :: 0 <= t < |s.pcs| ==> s.pcs[t] == Idle }

  lemma QuiescentSums<T>(s: State<T>)
    requires Inv(s) && Quiescent(s)
    ensures |s.won| == s.head && |s.lost| == s.over && s.opt == |s.won| + |s.lost|
  {
    TotalZero(s.pcs, ClaimsW());
    TotalZero(s.pcs, ExcessW());
    TotalZero(s.pcs, OpenW());
  }

  /** When no call is in flight every ticket has been decided. */
  lemma AllDecided<T>(s: State<T>, j: int)
    requires Inv(s) && Quiescent(s) && 0 <= j < s.opt
    ensures j in s.won || j in s.lost
  {
    QuiescentSums(s);
    if j !in s.won && j !in s.lost { SubsetSize(s.won + s.lost + {j}, Range(0, s.opt)); }
  }

  /** If more tickets are taken than there are elements and were lost before, then every element is claimed. */
  lemma EnoughTickets<T>(s: State<T>, before: set<int>)
    requires Inv(s) && Quiescent(s) && s.opt >= Tail(s) + |before|
    requires forall j :: j in s.lost ==> j in before || j >= Tail(s) + |before|
    ensures s.head == Tail(s)
  {
    QuiescentSums(s);
    var low := Range(0, Tail(s) + |before|);
    forall j | j in low ensures j in s.won + before { AllDecided(s, j); }
    SubsetSize(low, s.won + before);
    BackedByElements(s);
  }

  lemma SizesStay<T>(s: State<T>, a: Action<T>)
    requires |s.asked| == |s.pcs|
    ensures |Step(s, a).asked| == |Step(s, a).pcs| == |s.pcs|
  {}

  lemma {:induction false} SizesRun<T>(s: State<T>, schedule: seq<Action<T>>)
    requires |s.asked| == |s.pcs|
    ensures |Run(s, schedule).asked| == |Run(s, schedule).pcs|
    decreases |schedule|
  {
    hide Step;
    if schedule != [] {
      SizesStay(s, schedule[0]);
      SizesRun(Step(s, schedule[0]), schedule[1..]);
    }
  }

  /** However calls contend, they get what there is: any calls of any threads, in any interleaving, begun when none
      was in flight and with nothing published meanwhile, have between them claimed every element, or each of
      them has claimed all it asked for. */
  lemma ContendersGetAll<T>(s0: State<T>, before: seq<Action<T>>, during: seq<Action<T>>)
    requires Init(s0) && Quiescent(Run(s0, before))
    requires (forall a :: a in during ==> !a.Publish?) && Quiescent(Run(Run(s0, before), during))
    ensures var s, s' := Run(s0, before), Run(Run(s0, before), during);
      && |s.results| <= |s'.results| && Total(s'.results, GotW()) == s'.head
      && (s'.head == Tail(s') || forall k :: |s.results| <= k < |s'.results| ==> s'.results[k].got == s'.results[k].max)
  {
    var s, s' := Run(s0, before), Run(Run(s0, before), during);
    ReachableInv(s0, before);
    SizesRun(s0, before);
    ResultsAddUp(s0, before);
    ResultsAddUp(s, during);
    QuiescentSums(s);
    GreedRun(s, during, s.lost, |s.results|);
    if s'.opt >= Tail(s') + |s.lost| { EnoughTickets(s', s.lost); }
  }

  /** Two idle consumers and two elements. */
  function TwoElements(): State<int> { State([0, 0], 0, 0, 0, [Idle, Idle], {}, {}, [], [0, 0], []) }

  /** A call that asks for nothing goes on once something has been there, and claims nothing wherever the head is
      when it comes to move it: here at the tail, after another call has taken both elements. */
  lemma NothingIsClaimedLate()
    ensures TwoElements() == Step(Step(TwoElements().(items := []), Publish([0])), Publish([0]))
         && Init(TwoElements().(items := []))
    ensures var s1 := Solo(Step(TwoElements(), Call(0, 0)), 0, 5);
      var s2 := Solo(Step(s1, Call(1, 2)), 1, 6);
      && |s1.pcs| == |s2.pcs| == 2 && s1.pcs[0] == AddHead(0)
      && Advance(s2, 0).claims == [Claim(1, 0, 2), Claim(0, 2, 0)] && Tail(s2) == 2
  {
    LooksOnce();
    hide Solo, Advance;
    var s1 := At(TwoElements(), 0, AddHead(0));
    CallAlone(s1, 1, 2);
    MovesNothing(Solo(Step(s1, Call(1, 2)), 1, 6), 0);
  }

  lemma LooksOnce()
    ensures Solo(Step(TwoElements(), Call(0, 0)), 0, 5) == At(TwoElements(), 0, AddHead(0))
  {
    var s0 := Step(TwoElements(), Call(0, 0));
    assert Solo(s0, 0, 3) == Advance(Advance(Advance(s0, 0), 0), 0);
    assert Solo(s0, 0, 3) == At(TwoElements(), 0, AddOpt(0, 0));
    assert Solo(s0, 0, 5) == Advance(Advance(Solo(s0, 0, 3), 0), 0);
  }

  lemma MovesNothing<T>(s: State<T>, t: nat)
    requires t < |s.pcs| && s.pcs[t] == AddHead(0)
    ensures Advance(s, t).claims == s.claims + [Claim(t, s.head, 0)]
  {}

  // ---------------------------------------------------------------- claims as other machines see them

  /** The consumer has learnt that something has been published. */
  predicate Informed(pc: Pc) { pc.AddHead? || (pc.AddOver? && pc.backed) }

  /** A ticket is found to be backed only when something has been published: the overcommit loaded before counts
      tickets below the thread's own. */
  lemma BackedMeansPublished<T>(s: State<T>, t: nat)
    requires Inv(s) && t < |s.pcs| && s.pcs[t].Reload? && Tail(s) > s.pcs[t].mine - s.pcs[t].over
    ensures Tail(s) > 0
  {
    var pc := s.pcs[t];
    assert PcInv(s, pc);
    SubsetSize(Below(s.lost, pc.mine), Range(0, pc.mine));
  }

  /** A step of the ticket protocol before the move of the head. */
  lemma TicketStep<T>(s: State<T>, t: nat)
    requires t < |s.pcs| && !s.pcs[t].AddHead?
    ensures var s' := Step(s, Go(t));
      && s'.items == s.items && s'.head == s.head && s'.pcs == s.pcs[t := s'.pcs[t]] && s'.claims == s.claims
      && (Informed(s'.pcs[t]) ==>
            Informed(s.pcs[t]) || (s.pcs[t].Reload? && Tail(s) > s.pcs[t].mine - s.pcs[t].over))
  {}

  /** What a thread has won lies within what is published. */
  lemma ClaimFits<T>(s: State<T>, t: nat)
    requires Inv(s) && t < |s.pcs|
    ensures s.head + Claims(s.pcs[t]) <= Tail(s)
  {
    BackedByElements(s);
    TotalMember(s.pcs, ClaimsW(), t);
  }

  lemma TicketsFit<T>(s: State<T>)
    requires Inv(s)
    ensures s.head <= Tail(s)
  {
    BackedByElements(s);
  }

  /** How many of the n indices from `first` on are x. */
  function Covers(first: nat, n: nat, x: nat): nat { if first <= x < first + n then 1 else 0 }

  /** The n indices from `first` on are among those of a claim of thread t. */
  ghost predicate Owns(claims: seq<Claim>, t: nat, first: nat, n: nat) {
    exists k :: 0 <= k < |claims| && claims[k].thread == t
      && claims[k].first <= first && first + n <= claims[k].first + claims[k].count
  }

  lemma OwnsMore(claims: seq<Claim>, c: Claim, t: nat, first: nat, n: nat)
    requires Owns(claims, t, first, n)
    ensures Owns(claims + [c], t, first, n)
  {
    var k :| 0 <= k < |claims| && claims[k].thread == t
      && claims[k].first <= first && first + n <= claims[k].first + claims[k].count;
    assert (claims + [c])[k] == claims[k];
  }

  lemma LastOwns(claims: seq<Claim>, c: Claim)
    ensures Owns(claims + [c], c.thread, c.first, c.count)
  {
    assert (claims + [c])[|claims|] == c;
  }
}
