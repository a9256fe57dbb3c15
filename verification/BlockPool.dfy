/** Where blocks come from and go to: the initial pool, the free list, the allocator, and the producers, as a
    step machine built on module FreeList.

    Blocks are numbered; the first `size` are the initial pool, the next are those allocated so far, and the
    rest do not exist yet (memory runs out at the last).  The free list's calls are the machine of module
    FreeList, step by step; in its terms a block is owned unless it is in the list's care.

    `place` and `seen` are bookkeeping. */
module BlockPool {
  import FreeList
  import opened Sums

  datatype Place = Untaken | Hands(t: nat) | Used(p: nat) | Listed

  /** requisition_block, and giving a block back. */
  datatype Pc =
    | Idle
    | LoadIndex(canAlloc: bool)
    | AddIndex(canAlloc: bool)              // fetch_add of one
    | Getting(canAlloc: bool)               // inside the free list's try_get
    | Create(canAlloc: bool)
    | Has(block: nat)
    | Adding                                // inside the free list's add

  /** What a requisition has seen so far: the initial pool used up, the free list empty. */
  datatype Seen = Seen(pool: bool, list: bool)

  datatype State = State(fl: FreeList.State, size: nat, index: nat, made: nat, place: seq<Place>, pcs: seq<Pc>,
                         seen: seq<Seen>)

  /** Use: thread t hands the block it has to producer p; Give: thread t gives block b, which it has or
      which producer p is done with, back to the free list. */
  datatype Action =
    | Requisition(t: nat, canAlloc: bool)
    | Go(t: nat)
    | Use(t: nat, p: nat)
    | Give(t: nat, b: nat)

  function At(s: State, t: nat, pc: Pc): State
    requires t < |s.pcs|
  {
    s.(pcs := s.pcs[t := pc])
  }

  /** Thread t gets hold of block b. */
  function Hold(s: State, t: nat, b: nat): State
    requires t < |s.pcs| && b < |s.place|
  {
    At(s.(place := s.place[b := Hands(t)]), t, Has(b))
  }

  /** Thread t turns to the free list; the pool's index was `index`. */
  function StartGetting(s: State, t: nat, canAlloc: bool, index: nat): State
    requires t < |s.pcs| == |s.seen|
  {
    At(s.(fl := FreeList.Step(s.fl, t, FreeList.StartGet), seen := s.seen[t := Seen(index >= s.size, false)]),
       t, Getting(canAlloc))
  }

  /** A step of thread t inside the free list; its call ends with a block, without one, or not yet. */
  function ListStep(s: State, t: nat): State
    requires t < |s.pcs| == |s.fl.pcs| == |s.seen|
  {
    var s1 := s.(fl := FreeList.Step(s.fl, t, FreeList.Go),
                 seen := s.seen[t := s.seen[t].(list := s.seen[t].list || s.fl.head.Null?)]);
    if !(t < |s1.fl.pcs|) || s1.fl.pcs[t] != FreeList.Idle then s1
    else if s.pcs[t].Getting? then
      if s.fl.pcs[t].GetDrop2? && s.fl.pcs[t].head < |s.place| then Hold(s1, t, s.fl.pcs[t].head)
      else At(s1, t, Create(s.pcs[t].canAlloc))
    else At(s1, t, Idle)
  }

  function Advance(s: State, t: nat): State
    requires t < |s.pcs| == |s.fl.pcs| == |s.seen|
  {
    match s.pcs[t]
    case LoadIndex(canAlloc) =>
      if s.index >= s.size then StartGetting(s, t, canAlloc, s.index) else At(s, t, AddIndex(canAlloc))
    case AddIndex(canAlloc) =>
      var s1 := s.(index := s.index + 1);
      if s.index < s.size && s.index < |s.place| then Hold(s1, t, s.index)
      else StartGetting(s1, t, canAlloc, s.index)
    case Getting(_) => ListStep(s, t)
    case Create(canAlloc) =>
      if canAlloc && s.made < |s.place| then Hold(s.(made := s.made + 1), t, s.made) else At(s, t, Idle)
    case Adding => ListStep(s, t)
    case _ => s
  }

  /** Thread t may give block b back: it has it, or it is idle and has seen a producer's block become empty
      (which happens to one thread only, as module ImplicitIndex shows). */
  predicate MayGive(s: State, t: nat, b: nat) {
    t < |s.pcs| && b < |s.place| && (s.pcs[t] == Has(b) || (s.pcs[t] == Idle && s.place[b].Used?))
  }

  function Step(s: State, a: Action): State {
    match a
    case Requisition(t, canAlloc) => if t < |s.pcs| && s.pcs[t] == Idle then At(s, t, LoadIndex(canAlloc)) else s
    case Go(t) => if t < |s.pcs| == |s.fl.pcs| == |s.seen| then Advance(s, t) else s
    case Use(t, p) =>
      if t < |s.pcs| && s.pcs[t].Has? && s.pcs[t].block < |s.place| then
        At(s.(place := s.place[s.pcs[t].block := Used(p)]), t, Idle)
      else s
    case Give(t, b) =>
      if MayGive(s, t, b) then
        At(s.(fl := FreeList.Step(s.fl, t, FreeList.StartAdd(b)), place := s.place[b := Listed]), t, Adding)
      else s
  }

  function Run(s: State, schedule: seq<Action>): State
    decreases |schedule|
  {
    if schedule == [] then s else Run(Step(s, schedule[0]), schedule[1..])
  }

  ghost predicate Init(s: State) {
    && FreeList.Init(s.fl) && |s.fl.refs| == |s.place| && |s.fl.pcs| == |s.pcs| == |s.seen|
    && s.index == 0 && s.made == s.size <= |s.place|
    && (forall b :: 0 <= b < |s.place| ==> s.place[b] == Untaken)
    && (forall t :: 0 <= t < |s.pcs| ==> s.pcs[t] == Idle)
  }

  // ---------------------------------------------------------------- the invariant

  /** Not handed out yet: still in the initial pool, or not allocated. */
  predicate Fresh(s: State, b: nat) { if b < s.size then b >= s.index else b >= s.made }

  predicate InList(pc: Pc) { pc.Getting? || pc.Adding? }

  /** The thread is inside a call of the free list's add, not of its try_get. */
  predicate OnAddPath(pc: FreeList.Pc) {
    match pc
    case AddMark(_) => true
    case PutLoad(_, resume) => resume.Leave?
    case PutNext(_, _, resume) => resume.Leave?
    case PutRef(_, _, resume) => resume.Leave?
    case PutCas(_, _, resume) => resume.Leave?
    case PutUndo(_, _, resume) => resume.Leave?
    case _ => false
  }

  ghost predicate BlockOk(s: State, b: nat)
    requires b < |s.place|
  {
    && (s.place[b] != Listed <==> b in s.fl.owned)
    && (s.place[b] == Untaken <==> Fresh(s, b))
    && (s.place[b].Hands? ==> s.place[b].t < |s.pcs| && s.pcs[s.place[b].t] == Has(b))
  }

  /** The call of try_get is going to end without a node: the head it loaded last was null. */
  predicate EndsEmpty(pc: FreeList.Pc) {
    match pc
    case GetDrop1(_, top) => top.Null?
    case PutLoad(_, resume) => resume.Retry? && resume.top.Null?
    case PutNext(_, _, resume) => resume.Retry? && resume.top.Null?
    case PutRef(_, _, resume) => resume.Retry? && resume.top.Null?
    case PutCas(_, _, resume) => resume.Retry? && resume.top.Null?
    case PutUndo(_, _, resume) => resume.Retry? && resume.top.Null?
    case _ => false
  }

  predicate SeenOk(fl: FreeList.Pc, pc: Pc, seen: Seen) {
    && (pc.Getting? || pc.Create? ==> seen.pool)
    && (pc.Getting? ==> !OnAddPath(fl) && (EndsEmpty(fl) ==> seen.list))
    && (pc.Create? ==> seen.list)
  }

  ghost predicate ThreadOk(s: State, t: nat)
    requires t < |s.pcs| == |s.fl.pcs| == |s.seen|
  {
    && SeenOk(s.fl.pcs[t], s.pcs[t], s.seen[t])
    && (s.fl.pcs[t] != FreeList.Idle <==> InList(s.pcs[t]))
    && (s.pcs[t].Adding? ==> OnAddPath(s.fl.pcs[t]))
    && (s.pcs[t].Has? ==> s.pcs[t].block < |s.place| && s.place[s.pcs[t].block] == Hands(t))
  }

  ghost predicate Inv(s: State) {
    && FreeList.Inv(s.fl) && |s.fl.refs| == |s.place| && |s.fl.pcs| == |s.pcs| == |s.seen|
      && s.size <= s.made <= |s.place|
    && (forall b {:trigger s.place[b]} :: 0 <= b < |s.place| ==> BlockOk(s, b))
    && (forall t {:trigger s.pcs[t]} :: 0 <= t < |s.pcs| ==> ThreadOk(s, t))
  }

  // ---------------------------------------------------------------- the free list underneath

  /** What a step of thread t inside the free list does to the parts this module depends on. */
  ghost predicate Goes(fl: FreeList.State, fl': FreeList.State, t: nat)
    requires t < |fl.pcs|
  {
    && |fl'.pcs| == |fl.pcs| && |fl'.refs| == |fl.refs| && fl'.pcs == fl.pcs[t := fl'.pcs[t]]
    && (if fl.pcs[t].GetDrop2?
        then var n := fl.pcs[t].head;
             n < |fl.refs| && n !in fl.owned && fl'.owned == fl.owned + {n} && fl'.pcs[t] == FreeList.Idle
        else fl'.owned == fl.owned)
    && (OnAddPath(fl.pcs[t]) ==> fl'.pcs[t] == FreeList.Idle || OnAddPath(fl'.pcs[t]))
  }

  lemma ListDrops(fl: FreeList.State, t: nat)
    requires FreeList.Inv(fl) && t < |fl.pcs| && fl.pcs[t].GetDrop2?
    ensures Goes(fl, FreeList.Step(fl, t, FreeList.Go), t)
  {
    var n := fl.pcs[t].head;
    assert FreeList.NodeInv(fl, n);
    TotalMember(fl.pcs, FreeList.BusyW(n), t);
    hide FreeList.Inv, FreeList.NodeInv;
  }

  lemma ListAdds(fl: FreeList.State, t: nat)
    requires t < |fl.pcs| && OnAddPath(fl.pcs[t])
    ensures Goes(fl, FreeList.Step(fl, t, FreeList.Go), t)
  {}

  lemma ListGets(fl: FreeList.State, t: nat)
    requires t < |fl.pcs| && !OnAddPath(fl.pcs[t]) && !fl.pcs[t].GetDrop2?
    ensures Goes(fl, FreeList.Step(fl, t, FreeList.Go), t)
  {}

  lemma ListGoes(fl: FreeList.State, t: nat)
    requires FreeList.Inv(fl) && t < |fl.pcs|
    ensures Goes(fl, FreeList.Step(fl, t, FreeList.Go), t)
  {
    hide FreeList.Step, FreeList.PcInv, FreeList.NodeInv, OnAddPath, Goes;
    if fl.pcs[t].GetDrop2? { ListDrops(fl, t); }
    else if OnAddPath(fl.pcs[t]) { ListAdds(fl, t); }
    else { ListGets(fl, t); }
  }

  /** A call of try_get that is going to end without a node has seen the list empty. */
  lemma ListSees(fl: FreeList.State, t: nat)
    requires t < |fl.pcs| && fl.pcs[t] != FreeList.Idle && !OnAddPath(fl.pcs[t])
    ensures var fl' := FreeList.Step(fl, t, FreeList.Go);
      && t < |fl'.pcs| && !OnAddPath(fl'.pcs[t])
      && (EndsEmpty(fl'.pcs[t]) || (fl'.pcs[t] == FreeList.Idle && !fl.pcs[t].GetDrop2?) ==>
            EndsEmpty(fl.pcs[t]) || fl.head.Null?)
  {}

  lemma ListStarts(fl: FreeList.State, t: nat, b: nat)
    requires FreeList.Inv(fl) && t < |fl.pcs| && fl.pcs[t] == FreeList.Idle
    ensures var fl' := FreeList.Step(fl, t, FreeList.StartGet);
      && |fl'.pcs| == |fl.pcs| && |fl'.refs| == |fl.refs| && fl'.pcs == fl.pcs[t := fl'.pcs[t]] && fl'.owned == fl.owned
      && fl'.pcs[t] == FreeList.GetLoad
    ensures b in fl.owned && b < |fl.refs| ==>
      var fl' := FreeList.Step(fl, t, FreeList.StartAdd(b));
      && |fl'.pcs| == |fl.pcs| && |fl'.refs| == |fl.refs| && fl'.pcs == fl.pcs[t := fl'.pcs[t]]
      && fl'.owned == fl.owned - {b} && OnAddPath(fl'.pcs[t])
  {}

  // ---------------------------------------------------------------- steps

  lemma HoldKeeps(s: State, s1: State, t: nat, b: nat)
    requires Inv(s) && t < |s.pcs| && b < |s.place| && FreeList.Inv(s1.fl)
    requires !s.pcs[t].Has? && (s.place[b] == Untaken || s.place[b] == Listed)
    requires |s1.fl.refs| == |s1.place| && |s1.fl.pcs| == |s.pcs| && s1.size == s.size <= s1.made <= |s1.place|
    requires s1.place == s.place && s1.pcs == s.pcs && s1.fl.pcs == s.fl.pcs[t := FreeList.Idle]
    requires |s1.seen| == |s.seen| && s1.seen == s.seen[t := s1.seen[t]]
    requires s1.fl.owned == s.fl.owned + {b} && !Fresh(s1, b)
    requires forall c: nat {:trigger Fresh(s1, c)} :: c < |s.place| && c != b ==> Fresh(s1, c) == Fresh(s, c)
    ensures Inv(Hold(s1, t, b))
  {
    hide FreeList.Inv, Fresh;
    var s' := Hold(s1, t, b);
    forall c: nat | c < |s'.place| ensures BlockOk(s', c) {
      SameFresh(s1, s', c);
    }
    forall u | 0 <= u < |s'.pcs| ensures ThreadOk(s', u) { assert ThreadOk(s, u); }
  }

  /** A step that moves no block. */
  lemma MoveKeeps(s: State, s1: State, t: nat, pc: Pc)
    requires Inv(s) && t < |s.pcs| && FreeList.Inv(s1.fl) && !s.pcs[t].Has? && !pc.Has?
    requires |s1.fl.refs| == |s1.place| && |s1.fl.pcs| == |s.pcs| && s1.size == s.size && s1.made == s.made
    requires s1.place == s.place && s1.pcs == s.pcs && s1.fl.pcs == s.fl.pcs[t := s1.fl.pcs[t]]
    requires |s1.seen| == |s.seen| && s1.seen == s.seen[t := s1.seen[t]] && SeenOk(s1.fl.pcs[t], pc, s1.seen[t])
    requires s1.fl.owned == s.fl.owned
    requires s1.fl.pcs[t] != FreeList.Idle <==> InList(pc)
    requires pc.Adding? ==> OnAddPath(s1.fl.pcs[t])
    requires forall c: nat {:trigger Fresh(s1, c)} :: c < |s.place| ==> Fresh(s1, c) == Fresh(s, c)
    ensures Inv(At(s1, t, pc))
  {
    hide FreeList.Inv, Fresh;
    var s' := At(s1, t, pc);
    forall c: nat | c < |s'.place| ensures BlockOk(s', c) {
      SameFresh(s1, s', c);
    }
    forall u | 0 <= u < |s'.pcs| ensures ThreadOk(s', u) { assert ThreadOk(s, u); }
  }

  lemma SameFresh(s: State, s': State, c: nat)
    requires s'.size == s.size && s'.index == s.index && s'.made == s.made
    ensures Fresh(s', c) == Fresh(s, c)
  {}

  lemma ListKeeps(s: State, t: nat)
    requires Inv(s) && t < |s.pcs| && InList(s.pcs[t])
    ensures Inv(ListStep(s, t))
  {
    hide FreeList.Inv, FreeList.Step;
    assert ThreadOk(s, t);
    ListGoes(s.fl, t);
    FreeList.StepKeeps(s.fl, t, FreeList.Go);
    var s1 := s.(fl := FreeList.Step(s.fl, t, FreeList.Go),
                 seen := s.seen[t := s.seen[t].(list := s.seen[t].list || s.fl.head.Null?)]);
    if s.pcs[t].Getting? { ListSees(s.fl, t); }
    if s.fl.pcs[t].GetDrop2? {
      HoldKeeps(s, s1, t, s.fl.pcs[t].head);
    } else {
      var pc := ListStep(s, t).pcs[t];
      MoveKeeps(s, s1, t, pc);
      assert ListStep(s, t).pcs == s1.pcs[t := pc];
    }
  }

  lemma GoKeeps(s: State, t: nat)
    requires Inv(s) && t < |s.pcs|
    ensures Inv(Advance(s, t))
  {
    hide FreeList.Inv, FreeList.Step;
    assert ThreadOk(s, t);
    if InList(s.pcs[t]) {
      ListKeeps(s, t);
    } else if !s.pcs[t].Has? && s.pcs[t] != Idle {
      ListStarts(s.fl, t, 0);
      FreeList.StepKeeps(s.fl, t, FreeList.StartGet);
      RequisitionKeeps(s, t);
    }
  }

  lemma RequisitionKeeps(s: State, t: nat)
    requires Inv(s) && t < |s.pcs| && (s.pcs[t].LoadIndex? || s.pcs[t].AddIndex? || s.pcs[t].Create?)
    requires var fl' := FreeList.Step(s.fl, t, FreeList.StartGet);
      && FreeList.Inv(fl') && |fl'.pcs| == |s.fl.pcs| && |fl'.refs| == |s.fl.refs|
      && fl'.pcs == s.fl.pcs[t := fl'.pcs[t]] && fl'.owned == s.fl.owned && fl'.pcs[t] == FreeList.GetLoad
    ensures Inv(Advance(s, t))
  {
    hide FreeList.Inv, FreeList.Step;
    assert ThreadOk(s, t);
    var fl' := FreeList.Step(s.fl, t, FreeList.StartGet);
    match s.pcs[t]
    case LoadIndex(canAlloc) =>
      if s.index >= s.size {
        MoveKeeps(s, s.(fl := fl', seen := s.seen[t := Seen(true, false)]), t, Getting(canAlloc));
      } else {
        MoveKeeps(s, s, t, AddIndex(canAlloc));
      }
    case AddIndex(canAlloc) =>
      var s1 := s.(index := s.index + 1);
      if s.index < s.size {
        HoldKeeps(s, s1, t, s.index);
      } else {
        MoveKeeps(s, s1.(fl := fl', seen := s.seen[t := Seen(true, false)]), t, Getting(canAlloc));
      }
    case Create(canAlloc) =>
      if canAlloc && s.made < |s.place| {
        HoldKeeps(s, s.(made := s.made + 1), t, s.made);
      } else {
        MoveKeeps(s, s, t, Idle);
      }
  }

  lemma UseKeeps(s: State, t: nat, p: nat)
    requires Inv(s)
    ensures Inv(Step(s, Use(t, p)))
  {
    hide FreeList.Inv, FreeList.Step;
    var s' := Step(s, Use(t, p));
    if s' != s {
      assert ThreadOk(s, t);
      forall b | 0 <= b < |s'.place| ensures BlockOk(s', b) { assert BlockOk(s, b); }
      forall u | 0 <= u < |s'.pcs| ensures ThreadOk(s', u) { assert ThreadOk(s, u); }
    }
  }

  lemma GiveKeeps(s: State, t: nat, b: nat)
    requires Inv(s) && MayGive(s, t, b)
    ensures Inv(Step(s, Give(t, b)))
  {
    hide FreeList.Inv, FreeList.Step;
    var s' := Step(s, Give(t, b));
    assert ThreadOk(s, t) && BlockOk(s, b);
    ListStarts(s.fl, t, b);
    FreeList.StepKeeps(s.fl, t, FreeList.StartAdd(b));
    forall c | 0 <= c < |s'.place| ensures BlockOk(s', c) { assert BlockOk(s, c); }
    forall u | 0 <= u < |s'.pcs| ensures ThreadOk(s', u) { assert ThreadOk(s, u); }
  }

  lemma StartKeeps(s: State, t: nat, canAlloc: bool)
    requires Inv(s) && t < |s.pcs| && s.pcs[t] == Idle
    ensures Inv(At(s, t, LoadIndex(canAlloc)))
  {
    hide FreeList.Inv;
    var s' := At(s, t, LoadIndex(canAlloc));
    forall b | 0 <= b < |s'.place| ensures BlockOk(s', b) { assert BlockOk(s, b); }
    forall u | 0 <= u < |s'.pcs| ensures ThreadOk(s', u) { assert ThreadOk(s, u); }
  }

  lemma StepKeeps(s: State, a: Action)
    requires Inv(s)
    ensures Inv(Step(s, a))
  {
    hide Inv;
    match a
    case Requisition(t, canAlloc) => if t < |s.pcs| && s.pcs[t] == Idle { StartKeeps(s, t, canAlloc); }
    case Go(t) => if t < |s.pcs| == |s.fl.pcs| == |s.seen| { GoKeeps(s, t); }
    case Use(t, p) => UseKeeps(s, t, p);
    case Give(t, b) => if MayGive(s, t, b) { GiveKeeps(s, t, b); }
  }

  lemma {:induction false} RunKeeps(s: State, schedule: seq<Action>)
    requires Inv(s)
    ensures Inv(Run(s, schedule))
    decreases |schedule|
  {
    hide Inv;
    if schedule != [] {
      StepKeeps(s, schedule[0]);
      RunKeeps(Step(s, schedule[0]), schedule[1..]);
    }
  }

  lemma ReachableInv(s0: State, schedule: seq<Action>)
    requires Init(s0)
    ensures Inv(Run(s0, schedule))
  {
    FreeList.InitInv(s0.fl);
    hide FreeList.Inv;
    forall b | 0 <= b < |s0.place| ensures BlockOk(s0, b) {}
    forall t | 0 <= t < |s0.pcs| ensures ThreadOk(s0, t) {}
    RunKeeps(s0, schedule);
  }

  // ---------------------------------------------------------------- what holds in every run

  function HasW(b: nat): Pc -> nat { (pc: Pc) => if pc == Has(b) then 1 else 0 }

  /** Threads that have block b in their hands. */
  function Holders(s: State, b: nat): nat { Total(s.pcs, HasW(b)) }

  lemma {:induction false} OneHolder(pcs: seq<Pc>, b: nat, t: nat)
    requires t < |pcs| && pcs[t] == Has(b) && forall u :: 0 <= u < |pcs| && u != t ==> pcs[u] != Has(b)
    ensures Total(pcs, HasW(b)) == 1
  {
    TotalUpdate(pcs, HasW(b), t, Idle);
    TotalZero(pcs[t := Idle], HasW(b));
  }

  /** In every reachable state a block is in exactly one place: not handed out yet, in the hands of one
      thread, with a producer, linked in the free list, being moved there or back by one thread, or marked
      for it. */
  lemma OnePlace(s0: State, schedule: seq<Action>, b: nat)
    requires Init(s0) && b < |Run(s0, schedule).place|
    ensures var s := Run(s0, schedule);
      && b < |s.fl.refs|
      && FreeList.B(Fresh(s, b)) + Holders(s, b) + FreeList.B(s.place[b].Used?)
           + FreeList.B(b in s.fl.list) + FreeList.BusyCount(s.fl, b) + FreeList.B(FreeList.Marked(s.fl, b)) == 1
  {
    var s := Run(s0, schedule);
    ReachableInv(s0, schedule);
    ListPlaces(s.fl, b);
    HoldersAre(s, b);
    hide FreeList.Inv, FreeList.Marked;
  }

  lemma HoldersAre(s: State, b: nat)
    requires Inv(s) && b < |s.place|
    ensures Holders(s, b) == FreeList.B(s.place[b].Hands?)
  {
    hide FreeList.Inv;
    forall u | 0 <= u < |s.pcs| && s.pcs[u] == Has(b) ensures s.place[b] == Hands(u) { assert ThreadOk(s, u); }
    if s.place[b].Hands? {
      OneHolder(s.pcs, b, s.place[b].t);
    } else {
      TotalZero(s.pcs, HasW(b));
    }
  }

  lemma ListPlaces(fl: FreeList.State, n: nat)
    requires FreeList.Inv(fl) && n < |fl.refs|
    ensures FreeList.B(n in fl.owned) + FreeList.B(n in fl.list) + FreeList.BusyCount(fl, n)
              + FreeList.B(FreeList.Marked(fl, n)) == 1
  {
    FreeList.WordShape(fl, n);
  }

  /** A block that a requisition comes back with was nobody's: never handed out, or given back. */
  lemma HandedOutWasFree(s0: State, schedule: seq<Action>, t: nat)
    requires Init(s0) && t < |Run(s0, schedule).pcs| && !Run(s0, schedule).pcs[t].Has?
    requires t < |Step(Run(s0, schedule), Go(t)).pcs| && Step(Run(s0, schedule), Go(t)).pcs[t].Has?
    ensures var s := Run(s0, schedule);
      var b := Step(s, Go(t)).pcs[t].block;
      b < |s.place| && (s.place[b] == Untaken || s.place[b] == Listed) && Holders(s, b) == 0
  {
    var s := Run(s0, schedule);
    ReachableInv(s0, schedule);
    hide FreeList.Inv, FreeList.Step;
    var b := Step(s, Go(t)).pcs[t].block;
    if InList(s.pcs[t]) { ListGoes(s.fl, t); }
    HoldersAre(s, b);
  }

  /** A requisition that comes back empty-handed has seen, during its call, the initial pool used up and the
      free list empty; and it was not to allocate, or memory has run out. */
  lemma EmptyHandedSawNothing(s0: State, schedule: seq<Action>, t: nat)
    requires Init(s0) && t < |Run(s0, schedule).pcs| && !Run(s0, schedule).pcs[t].Idle?
    requires Step(Run(s0, schedule), Go(t)).pcs[t] == Idle && !Run(s0, schedule).pcs[t].Adding?
    ensures var s := Run(s0, schedule);
      && s.pcs[t].Create? && |s.seen| == |s.pcs| && s.seen[t].pool && s.seen[t].list
      && (s.pcs[t].canAlloc ==> s.made == |s.place|)
  {
    hide FreeList.Inv, FreeList.Step;
    var s := Run(s0, schedule);
    ReachableInv(s0, schedule);
    assert ThreadOk(s, t);
  }

  /** Where a requisition's block comes from: the initial pool while there is some of it, in its order; the free list
      only once the call has seen the pool used up; and a new one only if the call is to allocate and has seen the
      pool used up and the list empty. */
  lemma SourcesInOrder(s0: State, schedule: seq<Action>, t: nat)
    requires Init(s0) && t < |Run(s0, schedule).pcs| && !Run(s0, schedule).pcs[t].Has?
    requires t < |Step(Run(s0, schedule), Go(t)).pcs| && Step(Run(s0, schedule), Go(t)).pcs[t].Has?
    ensures var s, s' := Run(s0, schedule), Step(Run(s0, schedule), Go(t));
      var b := s'.pcs[t].block;
      && b < |s.place| && |s.seen| == |s.pcs| == |s.fl.pcs|
      && (if s.place[b] == Listed then s.pcs[t].Getting? && s.seen[t].pool && s'.made == s.made
          else if b < s.size then s.pcs[t].AddIndex? && b == s.index && s'.index == b + 1 && s'.made == s.made
          else s.pcs[t] == Create(true) && s.seen[t].pool && s.seen[t].list && b == s.made && s'.made == b + 1)
  {
    hide FreeList.Inv, FreeList.Step;
    var s := Run(s0, schedule);
    ReachableInv(s0, schedule);
    assert ThreadOk(s, t);
    if InList(s.pcs[t]) { ListGoes(s.fl, t); }
  }

  /** The call is a requisition that is not to allocate. */
  predicate Declines(pc: Pc) { (pc.LoadIndex? || pc.AddIndex? || pc.Getting? || pc.Create?) && !pc.canAlloc }

  predicate InCall(s: State, schedule: seq<Action>, t: nat)
    decreases |schedule|
  {
    && t < |s.pcs| && s.pcs[t] != Idle && !s.pcs[t].Has?
    && (schedule == [] || InCall(Step(s, schedule[0]), schedule[1..], t))
  }

  lemma StaysDeclined(s: State, a: Action, t: nat)
    requires t < |s.pcs| && Declines(s.pcs[t]) && t < |Step(s, a).pcs|
    ensures var pc := Step(s, a).pcs[t]; Declines(pc) || pc == Idle || pc.Has?
    ensures a == Go(t) ==> Step(s, a).made == s.made
  {
    hide FreeList.Step;
  }

  lemma {:induction false} DeclinesRun(s: State, schedule: seq<Action>, t: nat)
    requires InCall(s, schedule, t) && Declines(s.pcs[t])
    ensures var s' := Run(s, schedule); t < |s'.pcs| && Declines(s'.pcs[t])
    decreases |schedule|
  {
    hide Step;
    if schedule != [] {
      StaysDeclined(s, schedule[0], t);
      DeclinesRun(Step(s, schedule[0]), schedule[1..], t);
    }
  }

  /** A requisition that is not to allocate never does, in any run, whatever the other threads do. */
  lemma NeverAllocates(s: State, during: seq<Action>, t: nat)
    requires t < |s.pcs| && s.pcs[t] == Idle && InCall(Step(s, Requisition(t, false)), during, t)
    ensures var s' := Run(Step(s, Requisition(t, false)), during);
      Step(s', Go(t)).made == s'.made
  {
    var s1 := Step(s, Requisition(t, false));
    DeclinesRun(s1, during, t);
    StaysSized(Run(s1, during), Go(t));
    StaysDeclined(Run(s1, during), Go(t), t);
    hide Step, Run;
  }

  lemma StaysSized(s: State, a: Action)
    ensures |Step(s, a).pcs| == |s.pcs|
  {
    hide FreeList.Step;
  }

  /** Only a requisition that is to allocate, at its last stage, makes a block. */
  lemma MadeByRequisition(s: State, a: Action)
    requires Step(s, a).made != s.made
    ensures a.Go? && a.t < |s.pcs| && s.pcs[a.t] == Create(true) && Step(s, a).made == s.made + 1
  {
    hide FreeList.Step;
  }

  // ---------------------------------------------------------------- a requisition that runs alone

  /** Thread t takes n steps in a row. */
  function Solo(s: State, t: nat, n: nat): State {
    if n == 0 then s else Step(Solo(s, t, n - 1), Go(t))
  }

  /** A step inside the free list's call that does not end it. */
  lemma ListGoesOn(s: State, t: nat)
    requires t < |s.pcs| == |s.fl.pcs| == |s.seen| && s.pcs[t].Getting?
    requires var fl := FreeList.Step(s.fl, t, FreeList.Go); t < |fl.pcs| == |s.fl.pcs| && fl.pcs[t] != FreeList.Idle
    ensures var s' := Step(s, Go(t));
      s'.fl == FreeList.Step(s.fl, t, FreeList.Go) && s'.pcs == s.pcs && |s'.seen| == |s.seen|
      && s'.place == s.place
  {
    hide FreeList.Step;
  }

  /** The free list's part of n steps inside its call. */
  lemma {:induction false} SoloList(s: State, t: nat, n: nat)
    requires t < |s.pcs| == |s.fl.pcs| == |s.seen| && s.pcs[t].Getting?
    requires forall k {:trigger FreeList.Solo(s.fl, t, k)} :: 0 < k <= n ==>
      |FreeList.Solo(s.fl, t, k).pcs| == |s.fl.pcs| && FreeList.Solo(s.fl, t, k).pcs[t] != FreeList.Idle
    ensures var s' := Solo(s, t, n);
      && |s'.fl.pcs| == |s'.seen| == |s.pcs| && s'.fl == FreeList.Solo(s.fl, t, n) && s'.pcs == s.pcs
      && s'.place == s.place
  {
    hide FreeList.Step, Step;
    if n > 0 {
      SoloList(s, t, n - 1);
      assert FreeList.Solo(s.fl, t, n) == FreeList.Step(FreeList.Solo(s.fl, t, n - 1), t, FreeList.Go);
      ListGoesOn(Solo(s, t, n - 1), t);
    }
  }

  lemma FrontIsTaken(s: State, t: nat, n: nat)
    requires t < |s.pcs| == |s.fl.pcs| == |s.seen| && s.pcs[t].Getting? && s.fl.pcs[t] == FreeList.GetLoad
    requires s.fl.list != [] && s.fl.head == FreeList.To(n) && n < |s.fl.refs| == |s.fl.next| && n < |s.place|
    requires 0 < s.fl.refs[n] < FreeList.SHOULD_BE_ON_FREELIST
    ensures var s' := Solo(s, t, 7); s'.pcs == s.pcs[t := Has(n)] && s'.place == s.place[n := Hands(t)]
  {
    hide FreeList.Step, FreeList.Solo, Step;
    StagesOf(s.fl, t, n);
    SoloList(s, t, 6);
    ListEnds(Solo(s, t, 6), t, n);
    assert Solo(s, t, 7) == Step(Solo(s, t, 6), Go(t));
    hide Solo;
  }

  lemma StagesOf(fl: FreeList.State, t: nat, n: nat)
    requires t < |fl.pcs| && fl.pcs[t] == FreeList.GetLoad && fl.list != [] && fl.head == FreeList.To(n)
    requires n < |fl.refs| == |fl.next| && 0 < fl.refs[n] < FreeList.SHOULD_BE_ON_FREELIST
    ensures forall k {:trigger FreeList.Solo(fl, t, k)} :: 0 < k <= 6 ==>
      |FreeList.Solo(fl, t, k).pcs| == |fl.pcs| && FreeList.Solo(fl, t, k).pcs[t] != FreeList.Idle
    ensures var fl' := FreeList.Solo(fl, t, 6);
      t < |fl'.pcs| && fl'.pcs[t] == FreeList.GetDrop2(n) && |fl'.refs| == |fl'.next| == |fl.refs|
  {
    hide FreeList.Solo;
    assert fl.pcs[t := FreeList.GetLoad] == fl.pcs;
    forall k {:trigger FreeList.Solo(fl, t, k)} | 0 < k <= 6
      ensures |FreeList.Solo(fl, t, k).pcs| == |fl.pcs| && FreeList.Solo(fl, t, k).pcs[t] != FreeList.Idle
    {
      FreeList.GetStages(fl, t, n, k);
    }
    FreeList.GetStages(fl, t, n, 6);
  }

  lemma ListEnds(s: State, t: nat, n: nat)
    requires t < |s.pcs| == |s.fl.pcs| == |s.seen| && s.pcs[t].Getting? && s.fl.pcs[t] == FreeList.GetDrop2(n)
    requires n < |s.place| && n < |s.fl.refs| == |s.fl.next|
    ensures var s' := Step(s, Go(t)); s'.pcs == s.pcs[t := Has(n)] && s'.place == s.place[n := Hands(t)]
  {}

  /** Alone, from any reachable state, a requisition comes back with the next block of the initial pool; or, that used
      up, with the front of the free list; or, that empty, with a new block, if it is to allocate and memory has not
      run out; and otherwise with none. */
  lemma RequisitionAlone(s0: State, schedule: seq<Action>, t: nat, canAlloc: bool)
    requires Init(s0) && t < |Run(s0, schedule).pcs| && Run(s0, schedule).pcs[t] == Idle
    ensures var s := Run(s0, schedule);
      var s1 := Step(s, Requisition(t, canAlloc));
      if s.index < s.size then Solo(s1, t, 2).pcs == s.pcs[t := Has(s.index)]
      else if s.fl.list != [] then Solo(s1, t, 8).pcs == s.pcs[t := Has(s.fl.list[0])]
      else Solo(s1, t, 3).pcs == if canAlloc && s.made < |s.place| then s.pcs[t := Has(s.made)] else s.pcs
  {
    hide Run, Init;
    var s := Run(s0, schedule);
    ReachableInv(s0, schedule);
    ListParts(s, t);
    hide Inv;
    if s.index < s.size { PoolAlone(s, t, canAlloc); }
    else if s.fl.list != [] { FrontAlone(s, t, canAlloc); }
    else { NewAlone(s, t, canAlloc); }
  }

  lemma ListParts(s: State, t: nat)
    requires Inv(s) && t < |s.pcs| && s.pcs[t] == Idle
    ensures |s.pcs| == |s.fl.pcs| == |s.seen| && s.fl.pcs[t] == FreeList.Idle && s.size <= s.made <= |s.place|
    ensures s.fl.head == if s.fl.list == [] then FreeList.Null else FreeList.To(s.fl.list[0])
    ensures s.fl.list != [] ==>
      var n := s.fl.list[0];
      n < |s.fl.refs| == |s.fl.next| == |s.place| && 0 < s.fl.refs[n] < FreeList.SHOULD_BE_ON_FREELIST
  {
    assert ThreadOk(s, t);
    FreeList.HeadIsFront(s.fl);
    if s.fl.list != [] { FreeList.ListedWord(s.fl, s.fl.list[0]); }
    hide FreeList.Inv;
  }

  lemma PoolAlone(s: State, t: nat, canAlloc: bool)
    requires t < |s.pcs| == |s.fl.pcs| == |s.seen| && s.pcs[t] == Idle && s.index < s.size <= |s.place|
    ensures Solo(Step(s, Requisition(t, canAlloc)), t, 2).pcs == s.pcs[t := Has(s.index)]
  {
    hide FreeList.Step;
    var s1 := Step(s, Requisition(t, canAlloc));
    assert Solo(s1, t, 1) == Step(s1, Go(t));
  }

  lemma FrontAlone(s: State, t: nat, canAlloc: bool)
    requires t < |s.pcs| == |s.fl.pcs| == |s.seen| && s.pcs[t] == Idle && s.fl.pcs[t] == FreeList.Idle
    requires s.index >= s.size && s.fl.list != [] && s.fl.head == FreeList.To(s.fl.list[0])
    requires var n := s.fl.list[0];
      n < |s.fl.refs| == |s.fl.next| == |s.place| && 0 < s.fl.refs[n] < FreeList.SHOULD_BE_ON_FREELIST
    ensures Solo(Step(s, Requisition(t, canAlloc)), t, 8).pcs == s.pcs[t := Has(s.fl.list[0])]
  {
    var s1 := Step(s, Requisition(t, canAlloc));
    var s2 := Step(s1, Go(t));
    assert s2.fl == FreeList.At(s.fl, t, FreeList.GetLoad) && s2.pcs == s.pcs[t := Getting(canAlloc)];
    hide Step;
    FrontIsTaken(s2, t, s.fl.list[0]);
    SoloFirst(s1, t, 7);
    hide Solo;
  }

  lemma {:induction false} SoloFirst(s: State, t: nat, n: nat)
    ensures Solo(s, t, n + 1) == Solo(Step(s, Go(t)), t, n)
  {
    if n > 0 { SoloFirst(s, t, n - 1); }
  }

  lemma NewAlone(s: State, t: nat, canAlloc: bool)
    requires t < |s.pcs| == |s.fl.pcs| == |s.seen| && s.pcs[t] == Idle && s.fl.pcs[t] == FreeList.Idle
    requires s.index >= s.size && s.fl.head == FreeList.Null && s.made <= |s.place|
    ensures Solo(Step(s, Requisition(t, canAlloc)), t, 3).pcs
         == if canAlloc && s.made < |s.place| then s.pcs[t := Has(s.made)] else s.pcs
  {
    var s1 := Step(s, Requisition(t, canAlloc));
    var s2 := Step(s1, Go(t));
    assert s2.fl == FreeList.At(s.fl, t, FreeList.GetLoad) && s2.pcs == s.pcs[t := Getting(canAlloc)];
    var s3 := Step(s2, Go(t));
    assert s3.pcs == s.pcs[t := Create(canAlloc)];
    assert Solo(s1, t, 1) == s2;
    assert Solo(s1, t, 2) == s3;
    assert Solo(s1, t, 3) == Step(s3, Go(t));
  }
}
