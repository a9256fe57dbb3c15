/** The walk of a bulk dequeue with a token, while others enqueue, dequeue and add producers, as a step
    machine.

    Producers are numbered in the order of their creation, as in module TokenDequeue, and new ones are
    prepended to the list.  The walk goes around the list as it was when its tail was loaded.  One step is one
    call of a sub-queue's dequeue_bulk, which may come back with fewer elements than there are.

    `quiet` is bookkeeping: the producers visited since the last one that gave something, in order. */
module TokenWalk {
  import opened Arith
  import TokenDequeue

  datatype Pc =
    | First                       // dequeue from the current producer
    | LoadTail
    | Walking(ptr: nat)
    | Done

  /** `n` producers were in the list when the tail was loaded; `left` elements are still wanted. */
  datatype State<T> = State(subs: seq<seq<T>>, cur: nat, pc: Pc, n: nat, left: nat, out: seq<T>, quiet: seq<nat>)

  /** Go(d) is the walk's next step, in which a sub-queue gives d elements if it can and they are wanted; the
      others are steps of other threads. */
  datatype Action<T> = AddProducer | Put(p: nat, xs: seq<T>) | Steal(p: nat, k: nat) | Go(d: nat)

  /** How many elements producer p gives. */
  function Given<T>(s: State<T>, p: nat, d: nat): nat
    requires p < |s.subs|
  {
    Min(d, Min(s.left, |s.subs[p]|))
  }

  /** Producer p has given k elements. */
  function Took<T>(s: State<T>, p: nat, k: nat): State<T>
    requires p < |s.subs| && k <= |s.subs[p]| && k <= s.left
  {
    s.(subs := s.subs[p := s.subs[p][k..]], out := s.out + s.subs[p][..k], left := s.left - k)
  }

  /** On to producer p, unless that is the current one. */
  function Onto<T>(s: State<T>, p: nat): State<T> { s.(pc := if p == s.cur then Done else Walking(p)) }

  function Walk<T>(s: State<T>, d: nat): State<T> {
    match s.pc
    case First =>
      if s.cur < |s.subs| then
        var s1 := Took(s, s.cur, Given(s, s.cur, d));
        s1.(pc := if s1.left == 0 then Done else LoadTail)
      else s
    case LoadTail =>
      if s.cur < |s.subs| then Onto(s.(n := |s.subs|, quiet := []), TokenDequeue.Next(s.cur, |s.subs|)) else s
    case Walking(ptr) =>
      if ptr < |s.subs| && ptr < s.n then
        var k := Given(s, ptr, d);
        var s1 := Took(s, ptr, k);
        var s2 := if k > 0 then s1.(cur := ptr, quiet := []) else s1.(quiet := s.quiet + [ptr]);
        if s2.left == 0 then s2.(pc := Done) else Onto(s2, TokenDequeue.Next(ptr, s.n))
      else s
    case Done => s
  }

  function Step<T>(s: State<T>, a: Action<T>): State<T> {
    match a
    case AddProducer => s.(subs := s.subs + [[]])
    case Put(p, xs) => if p < |s.subs| then s.(subs := s.subs[p := s.subs[p] + xs]) else s
    case Steal(p, k) => if p < |s.subs| && k <= |s.subs[p]| then s.(subs := s.subs[p := s.subs[p][k..]]) else s
    case Go(d) => Walk(s, d)
  }

  function Run<T>(s: State<T>, schedule: seq<Action<T>>): State<T>
    decreases |schedule|
  {
    if schedule == [] then s else Run(Step(s, schedule[0]), schedule[1..])
  }

  /** The token has a place in the list. */
  ghost predicate Init<T>(s: State<T>) { s.pc == First && s.cur < |s.subs| && s.out == [] && s.quiet == [] }

  /** The producers since the last success, in the order of the ring. */
  ghost predicate Behind(cur: nat, n: nat, quiet: seq<nat>)
    requires cur < n
  {
    |quiet| < n && forall j :: 0 <= j < |quiet| ==> quiet[j] == TokenDequeue.Along(cur, j + 1, n)
  }

  ghost predicate Inv<T>(s: State<T>, max: nat) {
    && s.cur < |s.subs| && |s.out| + s.left == max
    && match s.pc
       case First => true
       case LoadTail => s.left > 0
       case Walking(ptr) =>
         && s.left > 0 && s.cur < s.n <= |s.subs| && ptr < s.n && ptr != s.cur && Behind(s.cur, s.n, s.quiet)
         && |s.quiet| + 1 < s.n && ptr == TokenDequeue.Along(s.cur, |s.quiet| + 1, s.n)
       case Done => s.left > 0 ==> s.cur < s.n <= |s.subs| && Behind(s.cur, s.n, s.quiet) && |s.quiet| + 1 == s.n
  }

  /** More visits than that there cannot be. */
  function VisitsLeft<T>(s: State<T>): nat {
    match s.pc
    case Walking(ptr) => if ptr < s.n && s.cur < s.n then s.left * s.n + TokenDequeue.Gap(ptr, s.cur, s.n) else 0
    case _ => 0
  }

  lemma VisitKeeps<T>(s: State<T>, d: nat, max: nat)
    requires Inv(s, max) && s.pc.Walking?
    ensures Inv(Walk(s, d), max) && Walk(s, d).n == s.n
    ensures Walk(s, d).pc.Done? || (Walk(s, d).pc.Walking? && VisitsLeft(Walk(s, d)) < VisitsLeft(s))
  {
    var ptr := s.pc.ptr;
    var k := Given(s, ptr, d);
    if k > 0 {
      LessLeft(s.left, k, s.n);
    }
  }

  lemma LessLeft(left: nat, k: nat, n: nat)
    requires 0 < k <= left
    ensures (left - k) * n + n <= left * n
  {}

  lemma StepKeeps<T>(s: State<T>, a: Action<T>, max: nat)
    requires Inv(s, max)
    ensures Inv(Step(s, a), max)
    ensures s.pc.Walking? ==> Step(s, a).n == s.n
    ensures s.pc.Walking? && !a.Go? ==> Step(s, a).pc == s.pc && VisitsLeft(Step(s, a)) == VisitsLeft(s)
    ensures s.pc.Done? ==> Step(s, a).pc.Done?
  {
    if a.Go? && s.pc.Walking? {
      VisitKeeps(s, a.d, max);
    }
  }

  lemma {:induction false} RunKeeps<T>(s: State<T>, schedule: seq<Action<T>>, max: nat)
    requires Inv(s, max)
    ensures Inv(Run(s, schedule), max)
    decreases |schedule|
  {
    if schedule != [] {
      StepKeeps(s, schedule[0], max);
      RunKeeps(Step(s, schedule[0]), schedule[1..], max);
    }
  }

  // ---------------------------------------------------------------- what holds in every run

  /** The steps of the walk itself in a schedule. */
  function Visits<T>(schedule: seq<Action<T>>): nat {
    if schedule == [] then 0 else (if schedule[0].Go? then 1 else 0) + Visits(schedule[1..])
  }

  lemma OneStep<T>(s: State<T>, a: Action<T>, max: nat)
    requires Inv(s, max) && (s.pc.Walking? || s.pc.Done?)
    ensures Inv(Step(s, a), max) && (s.pc.Walking? ==> VisitsLeft(s) > 0) && (s.pc.Done? ==> Step(s, a).pc.Done?)
    ensures Step(s, a).pc.Done?
         || (Step(s, a).pc.Walking? && VisitsLeft(Step(s, a)) + (if a.Go? then 1 else 0) <= VisitsLeft(s))
  {
    hide Inv, Walk, VisitsLeft;
    StepKeeps(s, a, max);
    if s.pc.Walking? {
      SomeLeft(s, max);
      if a.Go? { VisitKeeps(s, a.d, max); }
    }
  }

  lemma SomeLeft<T>(s: State<T>, max: nat)
    requires Inv(s, max) && s.pc.Walking?
    ensures VisitsLeft(s) > 0
  {}

  lemma {:induction false} WalkEnds<T>(s: State<T>, schedule: seq<Action<T>>, max: nat)
    requires Inv(s, max) && (s.pc.Walking? || s.pc.Done?) && (s.pc.Walking? ==> Visits(schedule) >= VisitsLeft(s))
    ensures Run(s, schedule).pc.Done?
    decreases |schedule|
  {
    hide Inv, Step, VisitsLeft;
    if schedule != [] {
      OneStep(s, schedule[0], max);
      WalkEnds(Step(s, schedule[0]), schedule[1..], max);
    } else if s.pc.Walking? {
      SomeLeft(s, max);
    }
  }

  /** The walk ends, whatever the others do and however often its place moves: in at most as many visits as
      elements wanted times producers, plus the links back to its place. */
  lemma EveryWalkEnds<T>(s0: State<T>, before: seq<Action<T>>, schedule: seq<Action<T>>)
    requires Init(s0) && Run(s0, before).pc.Walking?
    requires Visits(schedule) >= VisitsLeft(Run(s0, before))
    ensures Run(Run(s0, before), schedule).pc.Done?
  {
    RunKeeps(s0, before, s0.left);
    WalkEnds(Run(s0, before), schedule, s0.left);
  }

  /** A call that ends short of what was wanted has visited, after its last success, every other producer of
      the list as it was, once each and in order, and none of them gave anything; no call returns more. */
  lemma VisitsEveryone<T>(s0: State<T>, schedule: seq<Action<T>>, q: nat)
    requires Init(s0) && Run(s0, schedule).pc.Done?
    ensures var s := Run(s0, schedule);
      && |s.out| + s.left == s0.left
      && (s.left > 0 ==>
            && s.cur < s.n <= |s.subs| && Behind(s.cur, s.n, s.quiet) && |s.quiet| + 1 == s.n
            && (q < s.n ==> q == s.cur || q in s.quiet))
  {
    RunKeeps(s0, schedule, s0.left);
    var s := Run(s0, schedule);
    if s.left > 0 && q < s.n && q != s.cur {
      var j := TokenDequeue.Gap(s.cur, q, s.n);
      assert s.quiet[j - 1] == TokenDequeue.Along(s.cur, j, s.n);
    }
  }
}
