/** The reference-counted lock-free free list of blocks, as a step machine.

    One step is one atomic operation of one thread: a load, a store, a compare-exchange or a fetch-add.
    The shared words are the head pointer, and per node a 32-bit word (a count below bit 31, and the
    should-be-on-free-list bit) and a next pointer.  Any number of threads run `add` and `try_get`
    under any schedule; memory is sequentially consistent.

    Two fields of the state are bookkeeping that no step reads: `owned`, the nodes that clients hold
    outside any call, and `list`, the nodes linked from the head, front first. */
module FreeList {
  import opened Sums

  const WORD := 0x1_0000_0000
  const SHOULD_BE_ON_FREELIST := 0x8000_0000

  datatype Link = Null | To(node: nat)

  /** What a thread does after it has (re)added a node: leave `add`, or go on with `try_get`. */
  datatype Resume = Leave | Retry(top: Link)

  datatype Pc =
    | Idle
    | AddMark(node: nat)                                // add: fetch_add of the bit
    | GetLoad                                           // try_get: load the head
    | GetRefs(head: nat)                                // load its word
    | GetBump(head: nat, refs: int)                     // compare-exchange its word to refs + 1
    | GetNext(head: nat)                                // load its next
    | GetCas(head: nat, next: Link)                     // compare-exchange the list head
    | GetCheck(head: nat)                               // the load inside the assertion
    | GetDrop2(head: nat)                               // fetch_sub of two references
    | GetDrop1(prev: nat, top: Link)                    // fetch_sub of one reference
    | PutLoad(node: nat, resume: Resume)                // add_knowing_refcount_is_zero: load the head
    | PutNext(node: nat, top: Link, resume: Resume)    // store next
    | PutRef(node: nat, top: Link, resume: Resume)     // store 1 into the word
    | PutCas(node: nat, top: Link, resume: Resume)     // compare-exchange the list head
    | PutUndo(node: nat, top: Link, resume: Resume)    // fetch_add of the bit minus one

  datatype State = State(head: Link, refs: seq<int>, next: seq<Link>, pcs: seq<Pc>,
                         owned: set<nat>, list: seq<nat>)

  /** Calls are started by the environment; `Go` lets a thread that is inside a call take its next step. */
  datatype Action = StartAdd(node: nat) | StartGet | Go

  function Wrap(x: int): int { x % WORD }

  function Loop(head: Link): Pc {
    match head
    case Null => Idle
    case To(n) => GetRefs(n)
  }

  function Continue(resume: Resume): Pc {
    match resume
    case Leave => Idle
    case Retry(top) => Loop(top)
  }

  function PcNode(pc: Pc): Link {
    match pc
    case Idle => Null
    case AddMark(n) => To(n)
    case GetLoad => Null
    case GetRefs(n) => To(n)
    case GetBump(n, _) => To(n)
    case GetNext(n) => To(n)
    case GetCas(n, _) => To(n)
    case GetCheck(n) => To(n)
    case GetDrop2(n) => To(n)
    case GetDrop1(n, _) => To(n)
    case PutLoad(n, _) => To(n)
    case PutNext(n, _, _) => To(n)
    case PutRef(n, _, _) => To(n)
    case PutCas(n, _, _) => To(n)
    case PutUndo(n, _, _) => To(n)
  }

  predicate InRange(s: State, l: Link) { l.To? ==> l.node < |s.refs| == |s.next| }

  function At(s: State, t: nat, pc: Pc): State
    requires t < |s.pcs|
  {
    s.(pcs := s.pcs[t := pc])
  }

  function SetRef(s: State, n: nat, w: int): State
    requires n < |s.refs|
  {
    s.(refs := s.refs[n := w])
  }

  /** The atomic step of thread `t` inside a call. */
  function Advance(s: State, t: nat): State
    requires t < |s.pcs| && InRange(s, PcNode(s.pcs[t]))
  {
    match s.pcs[t]
    case Idle => s
    case AddMark(n) =>
      var s1 := SetRef(s, n, Wrap(s.refs[n] + SHOULD_BE_ON_FREELIST));
      At(s1, t, if s.refs[n] == 0 then PutLoad(n, Leave) else Idle)
    case GetLoad => At(s, t, Loop(s.head))
    case GetRefs(n) =>
      At(s, t, if s.refs[n] % SHOULD_BE_ON_FREELIST == 0 then GetLoad else GetBump(n, s.refs[n]))
    case GetBump(n, refs) =>
      if s.refs[n] == refs then At(SetRef(s, n, Wrap(refs + 1)), t, GetNext(n))
      else At(s, t, GetLoad)
    case GetNext(n) => At(s, t, GetCas(n, s.next[n]))
    case GetCas(n, next) =>
      if s.head == To(n) then
        At(s.(head := next, list := if s.list == [] then [] else s.list[1..]), t, GetCheck(n))
      else At(s, t, GetDrop1(n, s.head))
    case GetCheck(n) => At(s, t, GetDrop2(n))
    case GetDrop2(n) =>
      At(SetRef(s, n, Wrap(s.refs[n] - 2)).(owned := s.owned + {n}), t, Idle)
    case GetDrop1(n, top) =>
      At(SetRef(s, n, Wrap(s.refs[n] - 1)), t,
         if s.refs[n] == SHOULD_BE_ON_FREELIST + 1 then PutLoad(n, Retry(top)) else Loop(top))
    case PutLoad(n, resume) => At(s, t, PutNext(n, s.head, resume))
    case PutNext(n, top, resume) => At(s.(next := s.next[n := top]), t, PutRef(n, top, resume))
    case PutRef(n, top, resume) => At(SetRef(s, n, 1), t, PutCas(n, top, resume))
    case PutCas(n, top, resume) =>
      if s.head == top then At(s.(head := To(n), list := [n] + s.list), t, Continue(resume))
      else At(s, t, PutUndo(n, s.head, resume))
    case PutUndo(n, top, resume) =>
      At(SetRef(s, n, Wrap(s.refs[n] + SHOULD_BE_ON_FREELIST - 1)), t,
         if s.refs[n] == 1 then PutNext(n, top, resume) else Continue(resume))
  }

  /** One step of the system.  Only a client that holds a node may add it. */
  function Step(s: State, t: nat, a: Action): State {
    if t >= |s.pcs| || !InRange(s, PcNode(s.pcs[t])) then s
    else match a
      case StartAdd(n) =>
        if s.pcs[t].Idle? && n in s.owned && n < |s.refs| then
          At(s.(owned := s.owned - {n}), t, AddMark(n))
        else s
      case StartGet => if s.pcs[t].Idle? then At(s, t, GetLoad) else s
      case Go => Advance(s, t)
  }

  function Run(s: State, schedule: seq<(nat, Action)>): State
    decreases |schedule|
  {
    if schedule == [] then s
    else Run(Step(s, schedule[0].0, schedule[0].1), schedule[1..])
  }

  /** All nodes are with clients and no call is in flight. */
  ghost predicate Init(s: State) {
    && |s.pcs| + 1 < SHOULD_BE_ON_FREELIST
    && |s.next| == |s.refs|
    && s.head == Null && s.list == []
    && (forall n :: 0 <= n < |s.refs| ==> s.refs[n] == 0 && s.next[n] == Null)
    && (forall n: nat :: n in s.owned <==> n < |s.refs|)
    && (forall t :: 0 <= t < |s.pcs| ==> s.pcs[t] == Idle)
  }

  // ---------------------------------------------------------------- what threads hold

  function B(b: bool): nat { if b then 1 else 0 }

  /** The thread holds a counted reference on `n`. */
  predicate Holds(pc: Pc, n: nat) {
    PcNode(pc) == To(n)
    && (pc.GetNext? || pc.GetCas? || pc.GetCheck? || pc.GetDrop2? || pc.GetDrop1?)
  }

  /** The thread alone is moving `n` into or out of the list. */
  predicate Busy(pc: Pc, n: nat) {
    PcNode(pc) == To(n)
    && (pc.AddMark? || pc.GetCheck? || pc.GetDrop2? || pc.PutLoad? || pc.PutNext? || pc.PutRef?
        || pc.PutCas? || pc.PutUndo?)
  }

  /** The thread has seen the count at zero and is still free to write the node. */
  predicate Writes(pc: Pc, n: nat) {
    PcNode(pc) == To(n) && (pc.PutLoad? || pc.PutNext? || pc.PutRef?)
  }

  /** What a busy thread accounts for in the word, beyond the counted references. */
  function Extra(pc: Pc, n: nat): nat {
    if !Busy(pc, n) || pc.AddMark? then 0
    else if Writes(pc, n) then SHOULD_BE_ON_FREELIST
    else 1
  }

  function HoldsW(n: nat): Pc -> nat { pc => B(Holds(pc, n)) }
  function BusyW(n: nat): Pc -> nat { pc => B(Busy(pc, n)) }
  function WritesW(n: nat): Pc -> nat { pc => B(Writes(pc, n)) }
  function ExtraW(n: nat): Pc -> nat { pc => Extra(pc, n) }

  /** References that in-flight calls hold on `n`. */
  function Refs(s: State, n: nat): nat { Total(s.pcs, HoldsW(n)) }
  function BusyCount(s: State, n: nat): nat { Total(s.pcs, BusyW(n)) }

  /** The bit is set and no thread is adding the node: some thread that drops a reference will add it. */
  predicate Marked(s: State, n: nat)
    requires n < |s.refs|
  {
    s.refs[n] >= SHOULD_BE_ON_FREELIST && BusyCount(s, n) == 0
  }

  /** The nodes of `list` are exactly those reached from `head` through `next`. */
  predicate Chain(head: Link, next: seq<Link>, list: seq<nat>)
    decreases |list|
  {
    if list == [] then head == Null
    else head == To(list[0]) && list[0] < |next| && Chain(next[list[0]], next, list[1..])
  }

  predicate Distinct(list: seq<nat>) {
    forall i, j :: 0 <= i < j < |list| ==> list[i] != list[j]
  }

  /** The node is in at most one place, and its word is what the place and the references make it. */
  ghost predicate NodeInv(s: State, n: nat)
    requires n < |s.refs|
  {
    var places := B(n in s.owned) + B(n in s.list) + BusyCount(s, n);
    && places <= 1
    && (places == 1 ==> s.refs[n] == Refs(s, n) + B(n in s.list) + Total(s.pcs, ExtraW(n)))
    && (places == 0 ==> s.refs[n] == Refs(s, n) + SHOULD_BE_ON_FREELIST && Refs(s, n) >= 1)
    && (Total(s.pcs, WritesW(n)) > 0 ==> Refs(s, n) == 0)
  }

  /** What a thread's local copies of shared words are worth. */
  ghost predicate PcInv(s: State, pc: Pc) {
    && InRange(s, PcNode(pc))
    && (pc.GetCas? ==> InRange(s, pc.next) && (pc.head < |s.next| ==> s.next[pc.head] == pc.next))
    && (pc.GetBump? ==> pc.refs % SHOULD_BE_ON_FREELIST != 0 && 0 <= pc.refs < WORD)
    && (pc.GetDrop1? ==> InRange(s, pc.top))
    && (pc.PutNext? || pc.PutRef? || pc.PutCas? || pc.PutUndo? ==> InRange(s, pc.top))
    && (pc.PutLoad? || pc.PutNext? || pc.PutRef? || pc.PutCas? || pc.PutUndo? ==>
          pc.resume.Retry? ==> InRange(s, pc.resume.top))
    && (pc.PutRef? || pc.PutCas? ==> pc.node < |s.next| && s.next[pc.node] == pc.top)
  }

  ghost predicate Inv(s: State) {
    && |s.pcs| + 1 < SHOULD_BE_ON_FREELIST
    && |s.next| == |s.refs|
    && InRange(s, s.head)
    && (forall n :: n in s.owned ==> n < |s.refs|)
    && (forall i :: 0 <= i < |s.list| ==> s.list[i] < |s.refs|)
    && (forall n :: 0 <= n < |s.refs| ==> InRange(s, s.next[n]))
    && Distinct(s.list)
    && Chain(s.head, s.next, s.list)
    && (forall t :: 0 <= t < |s.pcs| ==> PcInv(s, s.pcs[t]))
    && (forall n :: 0 <= n < |s.refs| ==> NodeInv(s, n))
  }

  // ---------------------------------------------------------------- sums under one step

  /** How the four sums about `n` move when thread `t` changes its counter. */
  lemma Deltas(s: State, s': State, t: nat, n: nat)
    requires t < |s.pcs| && |s'.pcs| == |s.pcs| && s'.pcs == s.pcs[t := s'.pcs[t]]
    ensures Refs(s', n) + B(Holds(s.pcs[t], n)) == Refs(s, n) + B(Holds(s'.pcs[t], n))
    ensures BusyCount(s', n) + B(Busy(s.pcs[t], n)) == BusyCount(s, n) + B(Busy(s'.pcs[t], n))
    ensures Total(s'.pcs, WritesW(n)) + B(Writes(s.pcs[t], n))
         == Total(s.pcs, WritesW(n)) + B(Writes(s'.pcs[t], n))
    ensures Total(s'.pcs, ExtraW(n)) + Extra(s.pcs[t], n)
         == Total(s.pcs, ExtraW(n)) + Extra(s'.pcs[t], n)
  {
    TotalUpdate(s.pcs, HoldsW(n), t, s'.pcs[t]);
    TotalUpdate(s.pcs, BusyW(n), t, s'.pcs[t]);
    TotalUpdate(s.pcs, WritesW(n), t, s'.pcs[t]);
    TotalUpdate(s.pcs, ExtraW(n), t, s'.pcs[t]);
  }

  lemma NoBusy(s: State, n: nat)
    requires BusyCount(s, n) == 0
    ensures Total(s.pcs, ExtraW(n)) == 0 && Total(s.pcs, WritesW(n)) == 0
  {
    forall i | 0 <= i < |s.pcs| ensures ExtraW(n)(s.pcs[i]) == 0 && WritesW(n)(s.pcs[i]) == 0 {
      TotalMember(s.pcs, BusyW(n), i);
    }
    TotalZero(s.pcs, ExtraW(n));
    TotalZero(s.pcs, WritesW(n));
  }

  /** With one busy thread, the sums over busy threads are that thread's own shares. */
  lemma SoleBusy(s: State, t: nat, n: nat)
    requires t < |s.pcs| && Busy(s.pcs[t], n) && BusyCount(s, n) <= 1
    ensures BusyCount(s, n) == 1
    ensures Total(s.pcs, ExtraW(n)) == Extra(s.pcs[t], n)
    ensures Total(s.pcs, WritesW(n)) == B(Writes(s.pcs[t], n))
  {
    var s' := At(s, t, Idle);
    Deltas(s, s', t, n);
    NoBusy(s', n);
  }

  /** The word of a node, read off its place, never overflows. */
  lemma WordShape(s: State, n: nat)
    requires n < |s.refs| && NodeInv(s, n) && |s.pcs| + 1 < SHOULD_BE_ON_FREELIST
    ensures Refs(s, n) <= |s.pcs|
    ensures 0 <= s.refs[n] < WORD - 1
    ensures BusyCount(s, n) == 0 ==> Total(s.pcs, ExtraW(n)) == 0
    ensures (Total(s.pcs, WritesW(n)) == 0 && Total(s.pcs, ExtraW(n)) <= 1)
         || (Total(s.pcs, WritesW(n)) == 1 && s.refs[n] == SHOULD_BE_ON_FREELIST)
    ensures s.refs[n] > SHOULD_BE_ON_FREELIST ==>
              BusyCount(s, n) == 0 && n !in s.owned && n !in s.list
  {
    TotalBound(s.pcs, HoldsW(n));
    if BusyCount(s, n) == 0 {
      NoBusy(s, n);
    } else {
      var u := TotalPositive(s.pcs, BusyW(n));
      SoleBusy(s, u, n);
    }
  }

  /** What the thread that is about to step on `n` knows. */
  lemma Mine(s: State, t: nat, n: nat)
    requires t < |s.pcs| && n < |s.refs| && NodeInv(s, n)
    ensures B(Holds(s.pcs[t], n)) <= Refs(s, n)
    ensures Busy(s.pcs[t], n) ==>
              && n !in s.owned && n !in s.list && BusyCount(s, n) == 1
              && Total(s.pcs, ExtraW(n)) == Extra(s.pcs[t], n)
              && Total(s.pcs, WritesW(n)) == B(Writes(s.pcs[t], n))
              && s.refs[n] == Refs(s, n) + Extra(s.pcs[t], n)
  {
    TotalMember(s.pcs, HoldsW(n), t);
    if Busy(s.pcs[t], n) { SoleBusy(s, t, n); }
  }

  /** The part of the invariant that a step's effect on one node depends on. */
  ghost predicate Local(s: State, t: nat, n: nat) {
    && t < |s.pcs| && n < |s.refs| == |s.next|
    && |s.pcs| + 1 < SHOULD_BE_ON_FREELIST
    && PcInv(s, s.pcs[t])
    && (s.list == [] <==> s.head == Null)
    && (s.list != [] ==> s.head == To(s.list[0]) && s.list[0] !in s.list[1..])
    && NodeInv(s, n)
  }

  /** A step takes no share in a node other than the one it works on. */
  lemma SharesOther(s: State, t: nat, n: nat)
    requires t < |s.pcs| && InRange(s, PcNode(s.pcs[t])) && PcNode(s.pcs[t]) != To(n)
    ensures var pc := Advance(s, t).pcs[t];
      !Holds(s.pcs[t], n) && !Busy(s.pcs[t], n) && !Holds(pc, n) && !Busy(pc, n)
    ensures Advance(s, t).pcs == s.pcs[t := Advance(s, t).pcs[t]]
  {
    hide Advance;
    ComesToAnother(s, t, n);
  }

  /** A thread comes to another node only by loading the head. */
  lemma ComesToAnother(s: State, t: nat, n: nat)
    requires t < |s.pcs| && InRange(s, PcNode(s.pcs[t])) && PcNode(s.pcs[t]) != To(n)
    ensures var pcs := Advance(s, t).pcs;
      |pcs| == |s.pcs| && pcs == s.pcs[t := pcs[t]] && (PcNode(pcs[t]) == To(n) ==> pcs[t].GetRefs?)
  {}

  lemma SharedOther(s: State, t: nat, n: nat)
    requires Local(s, t, n) && PcNode(s.pcs[t]) != To(n)
    ensures var s' := Advance(s, t);
      && |s'.refs| == |s.refs| && s'.refs[n] == s.refs[n]
      && (n in s'.owned <==> n in s.owned) && (n in s'.list <==> n in s.list)
  {}

  /** Only the node a thread is working on is affected by its step. */
  lemma AdvanceOther(s: State, t: nat, n: nat)
    requires Local(s, t, n) && PcNode(s.pcs[t]) != To(n)
    ensures n < |Advance(s, t).refs| && NodeInv(Advance(s, t), n)
  {
    SharesOther(s, t, n);
    SharedOther(s, t, n);
    SameNode(s, Advance(s, t), t, n);
  }

  lemma SameNode(s: State, s': State, t: nat, n: nat)
    requires t < |s.pcs| == |s'.pcs| && s'.pcs == s.pcs[t := s'.pcs[t]]
    requires n < |s.refs| == |s'.refs| && NodeInv(s, n)
    requires !Holds(s.pcs[t], n) && !Busy(s.pcs[t], n) && !Holds(s'.pcs[t], n) && !Busy(s'.pcs[t], n)
    requires s'.refs[n] == s.refs[n]
    requires (n in s'.owned <==> n in s.owned) && (n in s'.list <==> n in s.list)
    ensures NodeInv(s', n)
  {
    Deltas(s, s', t, n);
  }

  lemma AdvanceGetRefs(s: State, t: nat, n: nat)
    requires Local(s, t, n) && PcNode(s.pcs[t]) == To(n)
    requires var pc := s.pcs[t]; pc.GetRefs? || pc.GetNext? || pc.GetCheck?
    ensures NodeInv(Advance(s, t), n)
  {
    Deltas(s, Advance(s, t), t, n);
  }

  /** The word had changed: nothing but the thread's counter does. */
  lemma BumpMissed(s: State, t: nat, n: nat)
    requires Local(s, t, n) && s.pcs[t].GetBump? && s.pcs[t].head == n && s.refs[n] != s.pcs[t].refs
    ensures NodeInv(Advance(s, t), n)
  {
    Deltas(s, Advance(s, t), t, n);
  }

  /** The thread's new reference is counted. */
  lemma BumpTaken(s: State, t: nat, n: nat)
    requires Local(s, t, n) && s.pcs[t].GetBump? && s.pcs[t].head == n && s.refs[n] == s.pcs[t].refs
    ensures NodeInv(Advance(s, t), n)
  {
    Deltas(s, Advance(s, t), t, n);
    WordShape(s, n);
  }

  lemma AdvanceGetBump(s: State, t: nat, n: nat)
    requires Local(s, t, n) && PcNode(s.pcs[t]) == To(n)
    requires var pc := s.pcs[t]; pc.GetBump?
    ensures NodeInv(Advance(s, t), n)
  {
    hide NodeInv;
    if s.refs[n] == s.pcs[t].refs { BumpTaken(s, t, n); } else { BumpMissed(s, t, n); }
  }

  lemma AdvanceGetCas(s: State, t: nat, n: nat)
    requires Local(s, t, n) && PcNode(s.pcs[t]) == To(n)
    requires var pc := s.pcs[t]; pc.GetCas?
    ensures NodeInv(Advance(s, t), n)
  {
    Deltas(s, Advance(s, t), t, n);
  }

  lemma AdvanceGetDrop2(s: State, t: nat, n: nat)
    requires Local(s, t, n) && PcNode(s.pcs[t]) == To(n)
    requires var pc := s.pcs[t]; pc.GetDrop2?
    ensures NodeInv(Advance(s, t), n)
  {
    Deltas(s, Advance(s, t), t, n);
    WordShape(s, n);
    Mine(s, t, n);
  }

  lemma AdvanceGetDrop1(s: State, t: nat, n: nat)
    requires Local(s, t, n) && PcNode(s.pcs[t]) == To(n)
    requires var pc := s.pcs[t]; pc.GetDrop1?
    ensures NodeInv(Advance(s, t), n)
  {
    Deltas(s, Advance(s, t), t, n);
    WordShape(s, n);
  }

  lemma AdvanceAddMark(s: State, t: nat, n: nat)
    requires Local(s, t, n) && PcNode(s.pcs[t]) == To(n)
    requires var pc := s.pcs[t]; pc.AddMark?
    ensures NodeInv(Advance(s, t), n)
  {
    Deltas(s, Advance(s, t), t, n);
    WordShape(s, n);
    Mine(s, t, n);
  }

  lemma AdvancePutStores(s: State, t: nat, n: nat)
    requires Local(s, t, n) && PcNode(s.pcs[t]) == To(n)
    requires var pc := s.pcs[t]; pc.PutLoad? || pc.PutNext? || pc.PutRef?
    ensures NodeInv(Advance(s, t), n)
  {
    Deltas(s, Advance(s, t), t, n);
    Mine(s, t, n);
  }

  lemma AdvancePutCas(s: State, t: nat, n: nat)
    requires Local(s, t, n) && PcNode(s.pcs[t]) == To(n)
    requires var pc := s.pcs[t]; pc.PutCas?
    ensures NodeInv(Advance(s, t), n)
  {
    Deltas(s, Advance(s, t), t, n);
    Mine(s, t, n);
  }

  lemma AdvancePutUndo(s: State, t: nat, n: nat)
    requires Local(s, t, n) && PcNode(s.pcs[t]) == To(n)
    requires var pc := s.pcs[t]; pc.PutUndo?
    ensures NodeInv(Advance(s, t), n)
  {
    Deltas(s, Advance(s, t), t, n);
    WordShape(s, n);
    Mine(s, t, n);
  }
  // ---------------------------------------------------------------- the invariant over runs

  lemma AdvanceNode(s: State, t: nat, n: nat)
    requires Local(s, t, n)
    ensures n < |Advance(s, t).refs| && NodeInv(Advance(s, t), n)
  {
    if PcNode(s.pcs[t]) != To(n) {
      AdvanceOther(s, t, n);
    } else {
      match s.pcs[t]
      case AddMark(_) => AdvanceAddMark(s, t, n);
      case GetRefs(_) => AdvanceGetRefs(s, t, n);
      case GetBump(_, _) => AdvanceGetBump(s, t, n);
      case GetNext(_) => AdvanceGetRefs(s, t, n);
      case GetCas(_, _) => AdvanceGetCas(s, t, n);
      case GetCheck(_) => AdvanceGetRefs(s, t, n);
      case GetDrop2(_) => AdvanceGetDrop2(s, t, n);
      case GetDrop1(_, _) => AdvanceGetDrop1(s, t, n);
      case PutLoad(_, _) => AdvancePutStores(s, t, n);
      case PutNext(_, _, _) => AdvancePutStores(s, t, n);
      case PutRef(_, _, _) => AdvancePutStores(s, t, n);
      case PutCas(_, _, _) => AdvancePutCas(s, t, n);
      case PutUndo(_, _, _) => AdvancePutUndo(s, t, n);
    }
  }

  /** `next` of a node is stored only while no thread holds a reference on it and no other is adding it. */
  lemma SoleWriter(s: State, t: nat, u: nat)
    requires Inv(s) && t < |s.pcs| && u < |s.pcs| && t != u && s.pcs[t].PutNext?
    ensures !Holds(s.pcs[u], s.pcs[t].node) && !Busy(s.pcs[u], s.pcs[t].node)
  {
    var n := s.pcs[t].node;
    Mine(s, t, n);
    TotalMember(s.pcs, HoldsW(n), u);
    TotalPair(s.pcs, BusyW(n), t, u);
  }

  lemma {:induction false} ChainFrame(head: Link, next: seq<Link>, list: seq<nat>, n: nat, l: Link)
    requires Chain(head, next, list) && n < |next| && n !in list
    ensures Chain(head, next[n := l], list)
    decreases |list|
  {
    if list != [] {
      ChainFrame(next[list[0]], next, list[1..], n, l);
    }
  }

  lemma SameList(s: State, t: nat)
    requires t < |s.pcs| && InRange(s, PcNode(s.pcs[t]))
    requires var pc := s.pcs[t]; !pc.GetCas? && !pc.PutNext? && !pc.PutCas?
    ensures var s' := Advance(s, t); s'.list == s.list && s'.head == s.head && s'.next == s.next
  {}

  /** The list stays a duplicate-free chain from the head. */
  lemma ListKept(s: State, t: nat)
    requires Inv(s) && t < |s.pcs| && PcInv(s, s.pcs[t])
    ensures var s' := Advance(s, t);
      Distinct(s'.list) && Chain(s'.head, s'.next, s'.list)
      && |s'.next| == |s.next| && (forall i :: 0 <= i < |s'.list| ==> s'.list[i] < |s.refs|)
  {
    match s.pcs[t]
    case GetCas(_, _) => Taken(s, t);
    case PutNext(n, top, _) =>
      Mine(s, t, n);
      ChainFrame(s.head, s.next, s.list, n, top);
    case PutCas(n, _, _) =>
      Mine(s, t, n);
    case _ => SameList(s, t);
  }

  lemma Taken(s: State, t: nat)
    requires t < |s.pcs| && s.pcs[t].GetCas? && PcInv(s, s.pcs[t]) && |s.next| == |s.refs|
    requires Distinct(s.list) && Chain(s.head, s.next, s.list)
    requires forall i :: 0 <= i < |s.list| ==> s.list[i] < |s.refs|
    ensures var s' := Advance(s, t);
      Distinct(s'.list) && Chain(s'.head, s'.next, s'.list)
      && |s'.next| == |s.next| && (forall i :: 0 <= i < |s'.list| ==> s'.list[i] < |s.refs|)
  {}

  lemma PcsKept(s: State, t: nat, u: nat)
    requires Inv(s) && t < |s.pcs| && u < |s.pcs| && PcInv(s, s.pcs[t])
    ensures PcInv(Advance(s, t), Advance(s, t).pcs[u])
  {
    if t == u {
      if PcNode(s.pcs[t]).To? {
        WordRange(s, PcNode(s.pcs[t]).node);
      }
      OwnPc(s, t);
    } else {
      if s.pcs[t].PutNext? { SoleWriter(s, t, u); }
      OtherPc(s, t, u);
    }
  }

  lemma WordRange(s: State, n: nat)
    requires Inv(s) && n < |s.refs|
    ensures 0 <= s.refs[n] < WORD
  {
    WordShape(s, n);
  }

  /** A step changes one thread's counter, and the next pointer of one node at most. */
  lemma Frame(s: State, t: nat, n: nat)
    requires t < |s.pcs| && InRange(s, PcNode(s.pcs[t]))
    ensures var s' := Advance(s, t);
      && |s'.pcs| == |s.pcs| && |s'.next| == |s.next| && |s'.refs| == |s.refs|
      && (forall u :: 0 <= u < |s.pcs| && u != t ==> s'.pcs[u] == s.pcs[u])
      && (n < |s.next| && !(s.pcs[t].PutNext? && s.pcs[t].node == n) ==> s'.next[n] == s.next[n])
  {}

  /** A thread's copies stay good while others step, unless `next` of its node is stored. */
  lemma OtherPc(s: State, t: nat, u: nat)
    requires t < |s.pcs| && u < |s.pcs| && t != u && |s.next| == |s.refs|
    requires PcInv(s, s.pcs[t]) && PcInv(s, s.pcs[u])
    requires s.pcs[t].PutNext? ==> !Holds(s.pcs[u], s.pcs[t].node) && !Busy(s.pcs[u], s.pcs[t].node)
    ensures PcInv(Advance(s, t), Advance(s, t).pcs[u])
  {
    Frame(s, t, if PcNode(s.pcs[u]).To? then PcNode(s.pcs[u]).node else 0);
    hide Advance;
  }

  /** The stepping thread's new copies are good ones. */
  lemma OwnPc(s: State, t: nat)
    requires t < |s.pcs| && PcInv(s, s.pcs[t]) && InRange(s, s.head) && |s.next| == |s.refs|
    requires PcNode(s.pcs[t]).To? ==>
               InRange(s, s.next[PcNode(s.pcs[t]).node]) && 0 <= s.refs[PcNode(s.pcs[t]).node] < WORD
    ensures PcInv(Advance(s, t), Advance(s, t).pcs[t])
  {
    var pc := s.pcs[t];
    if pc.PutLoad? || pc.PutNext? || pc.PutRef? || pc.PutCas? || pc.PutUndo? {
      OwnPut(s, t);
    } else {
      OwnGet(s, t);
    }
  }

  lemma OwnGet(s: State, t: nat)
    requires t < |s.pcs| && PcInv(s, s.pcs[t]) && InRange(s, s.head) && |s.next| == |s.refs|
    requires PcNode(s.pcs[t]).To? ==>
               InRange(s, s.next[PcNode(s.pcs[t]).node]) && 0 <= s.refs[PcNode(s.pcs[t]).node] < WORD
    requires var pc := s.pcs[t]; !pc.PutLoad? && !pc.PutNext? && !pc.PutRef? && !pc.PutCas? && !pc.PutUndo?
    ensures PcInv(Advance(s, t), Advance(s, t).pcs[t])
  {}

  lemma OwnPut(s: State, t: nat)
    requires t < |s.pcs| && PcInv(s, s.pcs[t]) && InRange(s, s.head) && |s.next| == |s.refs|
    requires var pc := s.pcs[t]; pc.PutLoad? || pc.PutNext? || pc.PutRef? || pc.PutCas? || pc.PutUndo?
    ensures PcInv(Advance(s, t), Advance(s, t).pcs[t])
  {}

  lemma RangesKept(s: State, t: nat)
    requires t < |s.pcs| && PcInv(s, s.pcs[t]) && |s.next| == |s.refs| && InRange(s, s.head)
    requires forall n :: n in s.owned ==> n < |s.refs|
    requires forall n :: 0 <= n < |s.refs| ==> InRange(s, s.next[n])
    ensures var s' := Advance(s, t);
      && |s'.refs| == |s.refs| == |s'.next| && |s'.pcs| == |s.pcs| && InRange(s', s'.head)
      && (forall n :: n in s'.owned ==> n < |s'.refs|)
      && (forall n :: 0 <= n < |s'.refs| ==> InRange(s', s'.next[n]))
  {}

  lemma AdvanceKeeps(s: State, t: nat)
    requires Inv(s) && t < |s.pcs|
    ensures Inv(Advance(s, t))
  {
    var s' := Advance(s, t);
    RangesKept(s, t);
    ListKept(s, t);
    assert forall u :: 0 <= u < |s'.pcs| ==> PcInv(s', s'.pcs[u]) by {
      forall u | 0 <= u < |s'.pcs| ensures PcInv(s', s'.pcs[u]) { PcsKept(s, t, u); }
    }
    assert forall n :: 0 <= n < |s'.refs| ==> NodeInv(s', n) by {
      forall n | 0 <= n < |s'.refs| ensures NodeInv(s', n) {
        AdvanceNode(s, t, n);
      }
    }
  }

  lemma StartKeeps(s: State, t: nat, a: Action)
    requires Inv(s) && !a.Go?
    ensures Inv(Step(s, t, a))
  {
    var s' := Step(s, t, a);
    if t < |s.pcs| && s' != s {
      forall n | 0 <= n < |s'.refs| ensures NodeInv(s', n) {
        assert NodeInv(s, n);
        Deltas(s, s', t, n);
      }
    }
  }

  lemma StepKeeps(s: State, t: nat, a: Action)
    requires Inv(s)
    ensures Inv(Step(s, t, a))
  {
    if a.Go? {
      if t < |s.pcs| { assert PcInv(s, s.pcs[t]); AdvanceKeeps(s, t); }
    } else {
      StartKeeps(s, t, a);
    }
  }

  lemma {:induction false} RunKeeps(s: State, schedule: seq<(nat, Action)>)
    requires Inv(s)
    ensures Inv(Run(s, schedule))
    decreases |schedule|
  {
    if schedule != [] {
      StepKeeps(s, schedule[0].0, schedule[0].1);
      RunKeeps(Step(s, schedule[0].0, schedule[0].1), schedule[1..]);
    }
  }

  lemma InitInv(s: State)
    requires Init(s)
    ensures Inv(s)
  {
    forall n | 0 <= n < |s.refs| ensures NodeInv(s, n) {
      TotalZero(s.pcs, HoldsW(n));
      TotalZero(s.pcs, BusyW(n));
      NoBusy(s, n);
    }
  }
  lemma ReachableInv(s0: State, schedule: seq<(nat, Action)>)
    requires Init(s0)
    ensures Inv(Run(s0, schedule))
  {
    InitInv(s0);
    RunKeeps(s0, schedule);
  }

  // ---------------------------------------------------------------- what holds in every run

  /** In every reachable state a node is in exactly one place, and its word counts exactly the list's
      reference and the references of in-flight calls.  Every thread's next step is defined. */
  lemma Exclusive(s0: State, schedule: seq<(nat, Action)>, n: nat)
    requires Init(s0) && n < |Run(s0, schedule).refs|
    ensures var s := Run(s0, schedule);
      && B(n in s.owned) + B(n in s.list) + BusyCount(s, n) + B(Marked(s, n)) == 1
      && (n in s.owned ==> s.refs[n] == Refs(s, n))
      && (n in s.list ==> s.refs[n] == Refs(s, n) + 1)
      && (Marked(s, n) ==> s.refs[n] == Refs(s, n) + SHOULD_BE_ON_FREELIST && Refs(s, n) > 0)
      && (forall t :: 0 <= t < |s.pcs| && Busy(s.pcs[t], n) ==>
            s.refs[n] == Refs(s, n) + Extra(s.pcs[t], n))
      && (forall t :: 0 <= t < |s.pcs| ==> InRange(s, PcNode(s.pcs[t])))
  {
    var s := Run(s0, schedule);
    ReachableInv(s0, schedule);
    WordShape(s, n);
    forall t | 0 <= t < |s.pcs| && Busy(s.pcs[t], n) ensures s.refs[n] == Refs(s, n) + Extra(s.pcs[t], n) {
      Mine(s, t, n);
    }
  }

  /** The assertion in `try_get` never fails: a node just taken does not carry the bit. */
  lemma AssertionHolds(s0: State, schedule: seq<(nat, Action)>, t: nat)
    requires Init(s0) && t < |Run(s0, schedule).pcs| && Run(s0, schedule).pcs[t].GetCheck?
    ensures var s := Run(s0, schedule);
      var n := s.pcs[t].head; n < |s.refs| && 0 <= s.refs[n] < SHOULD_BE_ON_FREELIST
  {
    var s := Run(s0, schedule);
    ReachableInv(s0, schedule);
    var n := s.pcs[t].head;
    Mine(s, t, n);
    WordShape(s, n);
  }

  /** A successful exchange of the head takes the front node, which nobody else has, and installs the
      node that really follows it. */
  lemma TakeInstallsSuccessor(s0: State, schedule: seq<(nat, Action)>, t: nat)
    requires Init(s0) && t < |Run(s0, schedule).pcs| && Run(s0, schedule).pcs[t].GetCas?
    requires var s := Run(s0, schedule); s.head == To(s.pcs[t].head)
    ensures var s := Run(s0, schedule);
      var n := s.pcs[t].head;
      && s.list != [] && s.list[0] == n && n !in s.owned && BusyCount(s, n) == 0
      && s.pcs[t].next == (if |s.list| == 1 then Null else To(s.list[1]))
      && Step(s, t, Go).list == s.list[1..] && n !in Step(s, t, Go).list
  {
    var s := Run(s0, schedule);
    ReachableInv(s0, schedule);
    var n := s.pcs[t].head;
    assert PcInv(s, s.pcs[t]) && NodeInv(s, n);
    assert Chain(s.next[n], s.next, s.list[1..]);
  }

  /** The node that `try_get` returns was with nobody until the call hands it over. */
  lemma ReturnedNodeWasFree(s0: State, schedule: seq<(nat, Action)>, t: nat)
    requires Init(s0) && t < |Run(s0, schedule).pcs| && Run(s0, schedule).pcs[t].GetDrop2?
    ensures var s := Run(s0, schedule);
      var n := s.pcs[t].head;
      && n < |s.refs| && n !in s.owned && n !in s.list
      && (forall u :: 0 <= u < |s.pcs| && u != t ==> !Busy(s.pcs[u], n))
      && n in Step(s, t, Go).owned && Step(s, t, Go).pcs == s.pcs[t := Idle]
  {
    var s := Run(s0, schedule);
    ReachableInv(s0, schedule);
    var n := s.pcs[t].head;
    Mine(s, t, n);
    forall u | 0 <= u < |s.pcs| && u != t ensures !Busy(s.pcs[u], n) {
      TotalPair(s.pcs, BusyW(n), t, u);
    }
  }

  /** Nothing is lost: when no call is in flight, a node is either with a client or reached from the
      head, never both. */
  lemma QuiescentNodes(s0: State, schedule: seq<(nat, Action)>, n: nat)
    requires Init(s0) && n < |Run(s0, schedule).refs|
    requires forall t :: 0 <= t < |Run(s0, schedule).pcs| ==> Run(s0, schedule).pcs[t] == Idle
    ensures var s := Run(s0, schedule);
      && Chain(s.head, s.next, s.list) && Distinct(s.list)
      && (n in s.list <==> n !in s.owned)
      && s.refs[n] == B(n in s.list)
  {
    var s := Run(s0, schedule);
    ReachableInv(s0, schedule);
    assert NodeInv(s, n);
    TotalZero(s.pcs, HoldsW(n));
    TotalZero(s.pcs, BusyW(n));
    NoBusy(s, n);
  }

  // ---------------------------------------------------------------- no ABA

  predicate Linking(pc: Pc, n: nat) { PcNode(pc) == To(n) && (pc.PutCas? || pc.PutUndo?) }

  /** 0: about to be linked; 1: linked; 2: out of the list again, or never about to be. */
  ghost function Phase(s: State, n: nat): nat {
    if n in s.list then 1
    else if exists u :: 0 <= u < |s.pcs| && Linking(s.pcs[u], n) then 0
    else 2
  }

  /** No reference is held on a node whose next pointer may still be written. */
  lemma HeldIsNotWritten(s: State, t: nat, u: nat, n: nat)
    requires Inv(s) && t < |s.pcs| && u < |s.pcs| && Holds(s.pcs[t], n) && n < |s.refs|
    ensures !Writes(s.pcs[u], n)
  {
    assert NodeInv(s, n);
    TotalMember(s.pcs, HoldsW(n), t);
    TotalMember(s.pcs, WritesW(n), u);
  }

  lemma HeldNext(s: State, u: nat, t: nat, n: nat)
    requires Inv(s) && t < |s.pcs| && u < |s.pcs| && n < |s.refs| && Holds(s.pcs[t], n)
    requires InRange(s, PcNode(s.pcs[u]))
    ensures n < |Advance(s, u).next| && Advance(s, u).next[n] == s.next[n]
  {
    HeldIsNotWritten(s, t, u, n);
  }

  /** No step starts linking a node that is held. */
  lemma HeldNotRelinked(s: State, u: nat, t: nat, n: nat)
    requires t < |s.pcs| && u < |s.pcs| && InRange(s, PcNode(s.pcs[u]))
    requires !Writes(s.pcs[u], n)
    ensures Linking(Advance(s, u).pcs[u], n) ==> Linking(s.pcs[u], n)
    ensures n in Advance(s, u).list && n !in s.list ==> Linking(s.pcs[u], n)
  {}

  lemma HeldStep(s: State, u: nat, a: Action, t: nat, n: nat)
    requires Inv(s) && t < |s.pcs| && n < |s.refs|
    requires Holds(s.pcs[t], n) && Holds(Step(s, u, a).pcs[t], n)
    ensures n < |Step(s, u, a).next| && Step(s, u, a).next[n] == s.next[n]
    ensures Phase(Step(s, u, a), n) >= Phase(s, n)
  {
    if u < |s.pcs| && a.Go? {
      HeldGo(s, u, t, n);
    } else {
    }
  }

  lemma HeldGo(s: State, u: nat, t: nat, n: nat)
    requires Inv(s) && t < |s.pcs| && u < |s.pcs| && n < |s.refs| && Holds(s.pcs[t], n)
    requires InRange(s, PcNode(s.pcs[u]))
    ensures var s' := Advance(s, u); n < |s'.next| && s'.next[n] == s.next[n] && Phase(s', n) >= Phase(s, n)
  {
    hide Inv, Advance;
    HeldIsNotWritten(s, t, u, n);
    HeldNext(s, u, t, n);
    if n in s.list {
      HeldLinked(s, u, n);
    } else {
      HeldNotRelinked(s, u, t, n);
      Frame(s, u, n);
    }
  }

  lemma HeldLinked(s: State, u: nat, n: nat)
    requires Inv(s) && u < |s.pcs| && n in s.list && InRange(s, PcNode(s.pcs[u]))
    ensures Phase(Advance(s, u), n) >= 1
  {
    assert n < |s.refs| && NodeInv(s, n);
    forall v | 0 <= v < |s.pcs| ensures !Busy(s.pcs[v], n) {
      TotalMember(s.pcs, BusyW(n), v);
    }
  }

  ghost predicate HeldThroughout(s: State, schedule: seq<(nat, Action)>, t: nat, n: nat)
    decreases |schedule|
  {
    t < |s.pcs| && Holds(s.pcs[t], n)
    && (schedule == [] || HeldThroughout(Step(s, schedule[0].0, schedule[0].1), schedule[1..], t, n))
  }

  /** While a thread keeps a reference on a node, the node's next pointer keeps its value and the node
      moves only forward, from being linked to linked to out: it cannot leave and come back. */
  lemma {:induction false} HeldNodeIsStable(s: State, schedule: seq<(nat, Action)>, t: nat, n: nat)
    requires Inv(s) && n < |s.refs| && HeldThroughout(s, schedule, t, n)
    ensures Run(s, schedule).next != [] && n < |Run(s, schedule).next|
    ensures Run(s, schedule).next[n] == s.next[n]
    ensures Phase(Run(s, schedule), n) >= Phase(s, n)
    decreases |schedule|
  {
    if schedule != [] {
      var s' := Step(s, schedule[0].0, schedule[0].1);
      StepKeeps(s, schedule[0].0, schedule[0].1);
      HeldStep(s, schedule[0].0, schedule[0].1, t, n);
      HeldNodeIsStable(s', schedule[1..], t, n);
    }
  }

  // ---------------------------------------------------------------- calls that run alone

  /** Thread t takes n steps in a row. */
  function Solo(s: State, t: nat, n: nat): State {
    if n == 0 then s else Step(Solo(s, t, n - 1), t, Go)
  }

  /** A linked node's word is small and not zero. */
  lemma ListedWord(s: State, n: nat)
    requires Inv(s) && n in s.list
    ensures n < |s.refs| == |s.next| && 0 < s.refs[n] < SHOULD_BE_ON_FREELIST
  {
    assert NodeInv(s, n);
    WordShape(s, n);
    hide Distinct, Chain, PcInv;
  }

  lemma LoadsHead(s: State, t: nat, n: nat)
    requires t < |s.pcs| && n < |s.refs| == |s.next| && s.head == To(n)
    ensures Step(At(s, t, GetLoad), t, Go) == At(s, t, GetRefs(n))
  {}

  lemma LoadsWord(s: State, t: nat, n: nat)
    requires t < |s.pcs| && n < |s.refs| == |s.next| && 0 < s.refs[n] < SHOULD_BE_ON_FREELIST
    ensures Step(At(s, t, GetRefs(n)), t, Go) == At(s, t, GetBump(n, s.refs[n]))
  {}

  lemma Bumps(s: State, t: nat, n: nat)
    requires t < |s.pcs| && n < |s.refs| == |s.next| && 0 < s.refs[n] < SHOULD_BE_ON_FREELIST
    ensures Step(At(s, t, GetBump(n, s.refs[n])), t, Go) == At(SetRef(s, n, s.refs[n] + 1), t, GetNext(n))
  {}

  lemma LoadsNext(s: State, t: nat, n: nat)
    requires t < |s.pcs| && n < |s.refs| == |s.next|
    ensures Step(At(s, t, GetNext(n)), t, Go) == At(s, t, GetCas(n, s.next[n]))
  {}

  lemma TakesHead(s: State, t: nat, n: nat)
    requires t < |s.pcs| && n < |s.refs| == |s.next| && s.head == To(n) && s.list != []
    ensures Step(At(s, t, GetCas(n, s.next[n])), t, Go)
         == At(s.(head := s.next[n], list := s.list[1..]), t, GetCheck(n))
  {}

  lemma Checks(s: State, t: nat, n: nat)
    requires t < |s.pcs| && n < |s.refs| == |s.next|
    ensures Step(At(s, t, GetCheck(n)), t, Go) == At(s, t, GetDrop2(n))
  {}

  lemma DropsTwo(s: State, t: nat, n: nat)
    requires t < |s.pcs| && n < |s.refs| == |s.next| && 1 < s.refs[n] <= SHOULD_BE_ON_FREELIST
    ensures Step(At(s, t, GetDrop2(n)), t, Go) == At(SetRef(s, n, s.refs[n] - 2), t, Idle).(owned := s.owned + {n})
  {}

  lemma TakesFront(s: State, t: nat, n: nat)
    requires t < |s.pcs| && s.head == To(n) && n < |s.refs| == |s.next| && s.list != []
    requires 0 < s.refs[n] < SHOULD_BE_ON_FREELIST
    ensures var s' := Solo(At(s, t, GetLoad), t, 7);
      s'.pcs == s.pcs[t := Idle] && s'.list == s.list[1..] && s'.owned == s.owned + {n}
  {
    hide Step;
    var s2 := SetRef(s, n, s.refs[n] + 1);
    LoadsHead(s, t, n);
    LoadsWord(s, t, n);
    Bumps(s, t, n);
    LoadsNext(s2, t, n);
    TakesHead(s2, t, n);
    var s3 := s2.(head := s.next[n], list := s.list[1..]);
    Checks(s3, t, n);
    DropsTwo(s3, t, n);
    SoloSeven(At(s, t, GetLoad), t);
    hide At, Solo;
  }

  /** Where thread t is on its way to the front of the list. */
  lemma GetStages(s: State, t: nat, n: nat, k: nat)
    requires t < |s.pcs| && s.head == To(n) && n < |s.refs| == |s.next| && s.list != []
    requires 0 < s.refs[n] < SHOULD_BE_ON_FREELIST && k <= 6
    ensures var s' := Solo(At(s, t, GetLoad), t, k);
      && |s'.pcs| == |s.pcs| && s'.pcs[t] != Idle && (k == 6 ==> s'.pcs[t] == GetDrop2(n))
      && (k == 6 ==> |s'.refs| == |s'.next| == |s.refs|)
  {
    hide Step;
    var s2 := SetRef(s, n, s.refs[n] + 1);
    var s3 := s2.(head := s.next[n], list := s.list[1..]);
    LoadsHead(s, t, n);
    LoadsWord(s, t, n);
    Bumps(s, t, n);
    LoadsNext(s2, t, n);
    TakesHead(s2, t, n);
    Checks(s3, t, n);
    var first := At(s, t, GetLoad);
    assert Solo(first, t, 1) == Step(Solo(first, t, 0), t, Go);
    assert Solo(first, t, 2) == Step(Solo(first, t, 1), t, Go);
    assert Solo(first, t, 3) == Step(Solo(first, t, 2), t, Go);
    assert Solo(first, t, 4) == Step(Solo(first, t, 3), t, Go);
    assert Solo(first, t, 5) == Step(Solo(first, t, 4), t, Go);
    assert Solo(first, t, 6) == Step(Solo(first, t, 5), t, Go);
  }

  lemma SoloSeven(s: State, t: nat)
    ensures Solo(s, t, 7)
         == Step(Step(Step(Step(Step(Step(Step(s, t, Go), t, Go), t, Go), t, Go), t, Go), t, Go), t, Go)
  {
    hide Step;
    assert Solo(s, t, 1) == Step(s, t, Go);
    assert Solo(s, t, 2) == Step(Solo(s, t, 1), t, Go);
    assert Solo(s, t, 3) == Step(Solo(s, t, 2), t, Go);
    assert Solo(s, t, 4) == Step(Solo(s, t, 3), t, Go);
    assert Solo(s, t, 5) == Step(Solo(s, t, 4), t, Go);
    assert Solo(s, t, 6) == Step(Solo(s, t, 5), t, Go);
  }

  /** From every reachable state, a `try_get` that runs alone takes the front of the list, in seven steps; or, with
      the list empty, comes back with nothing in one. */
  lemma GetAlone(s0: State, schedule: seq<(nat, Action)>, t: nat)
    requires Init(s0) && t < |Run(s0, schedule).pcs| && Run(s0, schedule).pcs[t] == Idle
    ensures var s := Run(s0, schedule);
      var s1 := Step(s, t, StartGet);
      if s.list == [] then Solo(s1, t, 1) == s
      else
        var s' := Solo(s1, t, 7);
        && s'.pcs == s.pcs && s'.list == s.list[1..] && s'.owned == s.owned + {s.list[0]} && s.list[0] !in s.owned
  {
    hide Run, Init, NodeInv, PcInv;
    var s := Run(s0, schedule);
    ReachableInv(s0, schedule);
    var s1 := Step(s, t, StartGet);
    if s.list != [] {
      var n := s.list[0];
      ListedWord(s, n);
      ListedIsFree(s, n);
      HeadIsFront(s);
      TakesFront(s, t, n);
      hide Inv, Solo;
    } else {
      HeadIsFront(s);
      hide Inv;
      assert Solo(s1, t, 1) == Step(s1, t, Go);
    }
  }

  lemma HeadIsFront(s: State)
    requires Inv(s)
    ensures s.head == if s.list == [] then Null else To(s.list[0])
  {}

  lemma ListedIsFree(s: State, n: nat)
    requires Inv(s) && n in s.list
    ensures n !in s.owned
  {
    assert n < |s.refs| && NodeInv(s, n);
    hide Distinct, Chain, PcInv;
  }

  /** From every reachable state, an `add` that runs alone links the node at the front if no reference to it is left;
      otherwise it marks the node for the thread that drops the last one. */
  lemma AddAlone(s0: State, schedule: seq<(nat, Action)>, t: nat, n: nat)
    requires Init(s0) && t < |Run(s0, schedule).pcs| && Run(s0, schedule).pcs[t] == Idle
    requires n in Run(s0, schedule).owned
    ensures var s := Run(s0, schedule);
      var s1 := Step(s, t, StartAdd(n));
      && n < |s.refs|
      && (if s.refs[n] == 0 then
            var s' := Solo(s1, t, 5);
            s'.pcs == s.pcs && s'.list == [n] + s.list && s'.owned == s.owned - {n}
          else
            var s' := Solo(s1, t, 1);
            && s'.pcs == s.pcs && s'.list == s.list && s'.owned == s.owned - {n}
            && n < |s'.refs| && s'.refs[n] == s.refs[n] + SHOULD_BE_ON_FREELIST)
  {
    hide Run, Init, NodeInv, PcInv;
    var s := Run(s0, schedule);
    ReachableInv(s0, schedule);
    assert n < |s.refs| == |s.next|;
    OwnedWord(s, n);
    hide Inv, Chain, Distinct;
    var s1 := Step(s, t, StartAdd(n));
    if s.refs[n] == 0 { AddLinks(s.(owned := s.owned - {n}), t, n); } else { AddMarks(s1, t, n); }
    hide Step, Solo;
  }

  lemma OwnedWord(s: State, n: nat)
    requires Inv(s) && n in s.owned
    ensures n < |s.refs| && 0 <= s.refs[n] < SHOULD_BE_ON_FREELIST
  {
    assert NodeInv(s, n);
    WordShape(s, n);
    hide Distinct, Chain, PcInv;
  }

  lemma Marks(s: State, t: nat, n: nat)
    requires t < |s.pcs| && n < |s.refs| == |s.next| && s.refs[n] == 0
    ensures Step(At(s, t, AddMark(n)), t, Go) == At(SetRef(s, n, SHOULD_BE_ON_FREELIST), t, PutLoad(n, Leave))
  {}

  lemma LoadsTop(s: State, t: nat, n: nat)
    requires t < |s.pcs| && n < |s.refs| == |s.next|
    ensures Step(At(s, t, PutLoad(n, Leave)), t, Go) == At(s, t, PutNext(n, s.head, Leave))
  {}

  lemma StoresNext(s: State, t: nat, n: nat)
    requires t < |s.pcs| && n < |s.refs| == |s.next|
    ensures Step(At(s, t, PutNext(n, s.head, Leave)), t, Go)
         == At(s.(next := s.next[n := s.head]), t, PutRef(n, s.head, Leave))
  {}

  lemma StoresWord(s: State, t: nat, n: nat)
    requires t < |s.pcs| && n < |s.refs| == |s.next|
    ensures Step(At(s, t, PutRef(n, s.head, Leave)), t, Go) == At(SetRef(s, n, 1), t, PutCas(n, s.head, Leave))
  {}

  lemma Links(s: State, t: nat, n: nat)
    requires t < |s.pcs| && n < |s.refs| == |s.next|
    ensures Step(At(s, t, PutCas(n, s.head, Leave)), t, Go) == At(s.(head := To(n), list := [n] + s.list), t, Idle)
  {}

  lemma AddLinks(s: State, t: nat, n: nat)
    requires t < |s.pcs| && n < |s.refs| == |s.next| && s.refs[n] == 0
    ensures var s' := Solo(At(s, t, AddMark(n)), t, 5);
      s'.pcs == s.pcs[t := Idle] && s'.list == [n] + s.list && s'.owned == s.owned
  {
    hide Step;
    var s1 := SetRef(s, n, SHOULD_BE_ON_FREELIST);
    var s3 := s1.(next := s.next[n := s.head]);
    var first := At(s, t, AddMark(n));
    Marks(s, t, n);
    LoadsTop(s1, t, n);
    StoresNext(s1, t, n);
    StoresWord(s3, t, n);
    Links(SetRef(s3, n, 1), t, n);
    assert Solo(first, t, 1) == Step(first, t, Go);
    assert Solo(first, t, 2) == Step(Solo(first, t, 1), t, Go);
    assert Solo(first, t, 3) == Step(Solo(first, t, 2), t, Go);
    assert Solo(first, t, 4) == Step(Solo(first, t, 3), t, Go);
    hide At, SetRef;
  }

  lemma AddMarks(s: State, t: nat, n: nat)
    requires t < |s.pcs| && s.pcs[t] == AddMark(n) && n < |s.refs| == |s.next|
    requires 0 < s.refs[n] < SHOULD_BE_ON_FREELIST
    ensures var s' := Solo(s, t, 1);
      && s'.pcs == s.pcs[t := Idle] && s'.list == s.list && s'.owned == s.owned
      && |s'.refs| == |s.refs| && s'.refs[n] == s.refs[n] + SHOULD_BE_ON_FREELIST
  {
    assert Solo(s, t, 1) == Step(s, t, Go);
  }
}
