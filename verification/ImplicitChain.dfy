/** The blocks of an implicit producer as the producer itself reaches them: its tail block, the links between
    the blocks of a bulk insertion, and the elements it writes, as a step machine built on module
    ImplicitIndex.

    The rollback and the writing of the elements follow pointers: which block comes next, and whether there is
    one, is read from the blocks' `next` fields.  A block that has been given back may be changed by its next
    owner at any moment.  One step is one step of module ImplicitIndex, with the accesses to links and
    pointers that only this producer makes, or the writing of one block's elements.

    A single insertion neither resets nor follows links.  `items` is bookkeeping: every element published. */
module ImplicitChain {
  import opened Arith
  import opened ImplicitIndex
  import opened Wrappers

  datatype Link = NoBlock | To(block: nat)

  /** How far the writing of the call's elements is: the next index to write. */
  datatype Fill = NotYet | Filling(i: nat) | Filled

  /** The locals of a call: startBlock, firstAllocatedBlock, endBlock, and the block a loop has come to. */
  datatype Call<T> = Call(xs: seq<T>, single: bool, start: Link, first: Link, end: Link, at: Link, fill: Fill)

  datatype State<T> = State(core: ImplicitIndex.State, tailBlock: Link, next: seq<Link>, cells: seq<seq<Cell<T>>>,
                            items: seq<T>, call: Call<T>)

  /** Others: a step of a consumer.  Scribble: another owner changes block b, which has been given back. */
  datatype Action<T> =
    | Insert(xs: seq<T>, single: bool)
    | Go(ok: bool, full: bool, block: nat)
    | Others(a: ImplicitIndex.Action)
    | Scribble(b: nat, link: Link, row: seq<Cell<T>>)

  function NextOf(next: seq<Link>, l: Link): Link {
    if l.To? && l.block < |next| then next[l.block] else NoBlock
  }

  function SetNext(next: seq<Link>, l: Link, to: Link): seq<Link> {
    if l.To? && l.block < |next| then next[l.block := to] else next
  }

  /** The new block becomes part of the call, linked from the tail block unless that is full and old. */
  function Linked<T>(s: State<T>, b: nat): State<T>
    requires s.core.bs > 0
  {
    if s.call.single then s.(tailBlock := To(b), call := s.call.(end := To(b)))
    else
      var next := SetNext(s.next, To(b), NoBlock);
      s.(next := if LinksNow(s) then SetNext(next, s.tailBlock, To(b)) else next, tailBlock := To(b),
         call := s.call.(end := To(b), first := if s.call.first == NoBlock then To(b) else s.call.first))
  }

  /** The tail block is linked to the next block: it is partly filled, or new itself. */
  predicate LinksNow<T>(s: State<T>)
    requires s.core.bs > 0
  {
    !s.call.single && (s.core.tailIndex % s.core.bs != 0 || s.call.first != NoBlock)
  }

  /** All blocks are there: back to the block where writing starts. */
  function StartFill<T>(s: State<T>): State<T>
    requires s.core.bs > 0
  {
    var from :=
      if s.call.single then s.tailBlock
      else if s.core.tailIndex % s.core.bs == 0 && s.call.first != NoBlock then s.call.first
      else s.call.start;
    s.(tailBlock := from, call := s.call.(fill := Filling(s.core.tailIndex)))
  }

  function IfReady<T>(s: State<T>): State<T>
    requires s.core.bs > 0
  {
    if s.core.prod == Publish then StartFill(s) else s
  }

  /** Where the writing of one block's elements stops. */
  function StopAt<T>(s: State<T>, i: nat): nat
    requires s.core.bs > 0
  {
    var stop := (i / s.core.bs + 1) * s.core.bs;
    if s.core.tailIndex + |s.call.xs| < stop then s.core.tailIndex + |s.call.xs| else stop
  }

  /** The elements xs written from slot j of a row on. */
  function Written<T>(row: seq<Cell<T>>, j: nat, xs: seq<T>): (r: seq<Cell<T>>)
    ensures |r| == |row|
    ensures forall m :: 0 <= m < |row| ==> r[m] == if j <= m < j + |xs| then Full(xs[m - j]) else row[m]
  {
    seq(|row|, m requires 0 <= m < |row| => if j <= m < j + |xs| then Full(xs[m - j]) else row[m])
  }

  /** The elements from index i to the end of its block, or of the call, are written to the tail block. */
  function FillStep<T>(s: State<T>, i: nat): State<T>
    requires s.core.bs > 0
  {
    var stop, tail, b := StopAt(s, i), s.core.tailIndex, s.tailBlock;
    var s1 :=
      if b.To? && b.block < |s.cells| && tail <= i <= stop <= tail + |s.call.xs| then
        s.(cells := s.cells[b.block := Written(s.cells[b.block], i % s.core.bs, s.call.xs[i - tail..stop - tail])])
      else s;
    if b == s.call.end then s1.(call := s.call.(fill := Filled))
    else s1.(tailBlock := NextOf(s.next, b), call := s.call.(fill := Filling(stop)))
  }

  /** Block b is given back, as the call's block number j. */
  function GiveBack(c: ImplicitIndex.State, b: nat, j: nat): ImplicitIndex.State {
    c.(place := if b < |c.place| then c.place[b := Pool] else c.place,
       uses := if c.committed + j < |c.uses| then c.uses[c.committed + j := c.uses[c.committed + j].(held := false)]
               else c.uses,
       prod := Return(j + 1))
  }

  function ChainStep<T>(s: State<T>, ok: bool, full: bool, block: nat): State<T>
    requires Sound(s.core)
  {
    var c, call := s.core, s.call;
    var c' := ProducerStep(c, ok, full, block);
    match c.prod
    case Check(_) => s.(core := c', call := call.(at := call.first))
    case Requisition(_) =>
      var fresh' := |c'.place| > |c.place|;
      s.(core := c', next := if fresh' then s.next + [NoBlock] else s.next,
         cells := if fresh' then s.cells + [seq(c.bs, _ => Cell.Junk)] else s.cells)
    case StoreValue(_, b) => IfReady(Linked(s, b).(core := c'))
    case DropValue(_) => s.(core := c', call := call.(at := call.first))
    case Undo(j) =>
      if call.at == NoBlock then s.(core := c.(prod := Return(0)), call := call.(at := call.first))
      else s.(core := c')
    case UndoTail(j) => s.(core := c', call := call.(at := NextOf(s.next, call.at)))
    case Return(j) => (
      match call.at
      case To(b) => s.(core := GiveBack(c, b, j), call := call.(at := NextOf(s.next, call.at)))
      case NoBlock => s.(core := c.(uses := c.uses[..c.committed], prod := Ready), tailBlock := call.start)
      )
    case Publish => (
      match call.fill
      case NotYet => s
      case Filling(i) => FillStep(s, i)
      case Filled => s.(core := c', items := s.items + call.xs)
      )
    case _ => s.(core := c')
  }

  function Step<T>(s: State<T>, a: Action<T>): State<T> {
    match a
    case Insert(xs, single) =>
      if s.core.prod == Ready && s.core.bs > 0 && (single ==> |xs| == 1) then
        IfReady(s.(core := ImplicitIndex.Step(s.core, ImplicitIndex.Enqueue(|xs|)),
                   call := Call(xs, single, s.tailBlock, NoBlock, s.tailBlock, NoBlock, NotYet)))
      else s
    case Go(ok, full, block) => if Sound(s.core) then ChainStep(s, ok, full, block) else s
    case Others(b) => if b.Claim? || b.Consume? then s.(core := ImplicitIndex.Step(s.core, b)) else s
    case Scribble(b, link, row) =>
      if b < |s.core.place| && s.core.place[b] == Pool && b < |s.next| && b < |s.cells| && |row| == |s.cells[b]| then
        s.(next := s.next[b := link], cells := s.cells[b := row])
      else s
  }

  function Run<T>(s: State<T>, schedule: seq<Action<T>>): State<T>
    decreases |schedule|
  {
    if schedule == [] then s else Run(Step(s, schedule[0]), schedule[1..])
  }

  /** Calls of consumers that ask for nothing are careful, as in module ImplicitIndex. */
  predicate Careful<T>(s: State<T>, a: Action<T>) { a.Others? ==> ImplicitIndex.Careful(s.core, a.a) }

  predicate CarefulRun<T>(s: State<T>, schedule: seq<Action<T>>)
    decreases |schedule|
  {
    schedule == [] || (Careful(s, schedule[0]) && CarefulRun(Step(s, schedule[0]), schedule[1..]))
  }

  ghost predicate Init<T>(s: State<T>, capacity: nat) {
    && ImplicitIndex.Init(s.core, capacity) && s.tailBlock == NoBlock && s.items == []
    && |s.next| == |s.core.place| == |s.cells| && (forall b :: 0 <= b < |s.cells| ==> |s.cells[b]| == s.core.bs)
  }

  // ---------------------------------------------------------------- the invariant

  function Blocks(uses: seq<Use>): (blocks: seq<nat>)
    ensures |blocks| == |uses| && forall k :: 0 <= k < |uses| ==> blocks[k] == uses[k].block
  {
    seq(|uses|, k requires 0 <= k < |uses| => uses[k].block)
  }

  function LinkOf(blocks: seq<nat>, k: int): Link { if 0 <= k < |blocks| then To(blocks[k]) else NoBlock }

  /** Block number k is in use as that. */
  predicate InPlace(place: seq<Place>, blocks: seq<nat>, k: int) {
    0 <= k < |blocks| && blocks[k] < |place| && place[blocks[k]] == InUse(k)
  }

  /** From block number lo on each links to the next; the last links nowhere, if it is one of this call's. */
  ghost predicate Linkage(next: seq<Link>, blocks: seq<nat>, lo: int, committed: nat) {
    forall k {:trigger blocks[k]} :: 0 <= k && lo <= k < |blocks| ==>
      && blocks[k] < |next|
      && (k + 1 < |blocks| ==> next[blocks[k]] == LinkOf(blocks, k + 1))
      && (k + 1 == |blocks| && k >= committed ==> next[blocks[k]] == NoBlock)
  }

  /** The first block that the call's links matter for. */
  function Lo(c: ImplicitIndex.State): int
    requires c.bs > 0
  {
    if c.prod.Return? then c.committed + c.prod.j
    else if c.tailIndex % c.bs != 0 then c.committed - 1
    else c.committed
  }

  predicate Allocating(prod: Producer) {
    || prod.Check? || prod.StoreKey? || prod.StoreTail? || prod.Requisition? || prod.StoreValue?
    || prod.DropTail? || prod.DropValue?
  }

  predicate Rolling(prod: Producer) { prod.Undo? || prod.UndoTail? || prod.Return? }

  /** The pointers of a call that allocates blocks or takes them back. */
  ghost predicate ChainOk(c: ImplicitIndex.State, tailBlock: Link, next: seq<Link>, call: Call) {
    var blocks, q := Blocks(c.uses), c.committed;
    && c.bs > 1 && |call.xs| == c.want && call.start == LinkOf(blocks, q - 1) && call.first == LinkOf(blocks, q)
    && (if call.single then |c.uses| == q && |call.xs| == 1 else Linkage(next, blocks, Lo(c), q))
    && (Allocating(c.prod) ==> tailBlock == call.end == LinkOf(blocks, |blocks| - 1))
    && (Rolling(c.prod) ==> call.at == LinkOf(blocks, q + c.prod.j))
  }

  /** The pointers of a call that writes its elements. */
  ghost predicate FillOk(c: ImplicitIndex.State, tailBlock: Link, next: seq<Link>, call: Call) {
    var blocks, q, k := Blocks(c.uses), c.committed, if c.bs > 0 && call.fill.Filling? then call.fill.i / c.bs else 0;
    && c.bs > 1 && |call.xs| == c.want && call.end == LinkOf(blocks, |blocks| - 1)
    && (call.fill.Filling? && call.xs == [] ==> tailBlock == call.end && call.fill.i == c.tailIndex)
    && (call.fill.Filling? && call.xs != [] ==>
          && c.tailIndex <= call.fill.i < c.tailIndex + |call.xs| && tailBlock == LinkOf(blocks, k)
          && (k >= q || (k == q - 1 && c.tailIndex % c.bs != 0))
          && Linkage(next, blocks, k, |blocks|))
    && (call.fill.Filled? ==> tailBlock == call.end)
    && !call.fill.NotYet?
  }

  ghost predicate CallOk<T>(s: State<T>) {
    if s.core.prod == Ready then s.tailBlock == LinkOf(Blocks(s.core.uses), |s.core.uses| - 1)
    else if s.core.prod == Publish then FillOk(s.core, s.tailBlock, s.next, s.call)
    else ChainOk(s.core, s.tailBlock, s.next, s.call)
  }

  /** Element x, of index i, is in its block. */
  ghost predicate CellAt<T>(bs: nat, blocks: seq<nat>, cells: seq<seq<Cell<T>>>, x: T, i: nat) {
    && bs > 0 && i / bs < |blocks| && blocks[i / bs] < |cells| && i % bs < |cells[blocks[i / bs]]|
    && cells[blocks[i / bs]][i % bs] == Full(x)
  }

  /** The elements below `bound` are in their blocks, while these are in use. */
  ghost predicate CellsIn<T>(bs: nat, place: seq<Place>, blocks: seq<nat>, cells: seq<seq<Cell<T>>>, all: seq<T>,
                             bound: nat)
  {
    && bs > 1 && bound <= |all|
    && forall i {:trigger all[i]} :: 0 <= i < bound && InPlace(place, blocks, i / bs) ==>
         CellAt(bs, blocks, cells, all[i], i)
  }

  /** How many elements are written. */
  function Bound<T>(s: State<T>): nat {
    if s.core.prod != Publish then s.core.tailIndex
    else match s.call.fill
      case NotYet => s.core.tailIndex
      case Filling(i) => i
      case Filled => s.core.tailIndex + |s.call.xs|
  }

  ghost predicate CellsOk<T>(s: State<T>) {
    CellsIn(s.core.bs, s.core.place, Blocks(s.core.uses), s.cells, s.items + s.call.xs, Bound(s))
  }

  ghost predicate Shapes<T>(s: State<T>) {
    && |s.next| == |s.core.place| == |s.cells| && |s.items| == s.core.tailIndex
    && forall b :: 0 <= b < |s.cells| ==> |s.cells[b]| == s.core.bs
  }

  ghost predicate Inv<T>(s: State<T>) {
    ImplicitIndex.Inv(s.core) && Shapes(s) && CallOk(s) && CellsOk(s)
  }

  // ---------------------------------------------------------------- links

  /** A new block b becomes number |blocks|. */
  lemma LinkageGrows(next: seq<Link>, blocks: seq<nat>, place: seq<Place>, lo: int, committed: nat, b: nat, now: bool)
    requires Linkage(next, blocks, lo, committed) && |next| == |place| && committed <= |blocks|
    requires committed - 1 <= lo <= committed && (now <==> |blocks| > committed || (lo < committed && |blocks| > 0))
    requires forall k :: 0 <= k && lo <= k < |blocks| ==> InPlace(place, blocks, k)
    requires b < |place| && place[b] == InUse(|blocks|)
    ensures var next' := SetNext(next, To(b), NoBlock);
      Linkage(if now then SetNext(next', LinkOf(blocks, |blocks| - 1), To(b)) else next', blocks + [b], lo, committed)
  {
    var blocks' := blocks + [b];
    var m := |blocks|;
    var cleared := next[b := NoBlock];
    var next' := if now then cleared[blocks[m - 1] := To(b)] else cleared;
    forall k | 0 <= k && lo <= k < |blocks'|
      ensures && blocks'[k] < |next'|
              && (k + 1 < |blocks'| ==> next'[blocks'[k]] == LinkOf(blocks', k + 1))
              && (k + 1 == |blocks'| && k >= committed ==> next'[blocks'[k]] == NoBlock)
    {
      if k < m { assert InPlace(place, blocks, k); }
      if m > 0 && lo <= m - 1 { assert InPlace(place, blocks, m - 1); }
    }
  }

  lemma LinkageShrinks(next: seq<Link>, blocks: seq<nat>, lo: int, lo': int, committed: nat, committed': nat)
    requires Linkage(next, blocks, lo, committed) && lo <= lo' && committed <= committed'
    ensures Linkage(next, blocks, lo', committed')
  {}

  /** A block that is not in use is linked from nowhere that matters. */
  lemma LinkageScribbled(next: seq<Link>, blocks: seq<nat>, place: seq<Place>, lo: int, committed: nat, b: nat,
      link: Link)
    requires Linkage(next, blocks, lo, committed) && b < |place| == |next| && place[b] == Pool
    requires forall k :: 0 <= k && lo <= k < |blocks| ==> InPlace(place, blocks, k)
    ensures Linkage(next[b := link], blocks, lo, committed)
  {
    forall k | 0 <= k && lo <= k < |blocks| ensures blocks[k] != b { assert InPlace(place, blocks, k); }
  }

  lemma LinkageLonger(next: seq<Link>, blocks: seq<nat>, lo: int, committed: nat, link: Link)
    requires Linkage(next, blocks, lo, committed)
    ensures Linkage(next + [link], blocks, lo, committed)
  {}

  // ---------------------------------------------------------------- cells

  /** Blocks only went out of use. */
  lemma CellsPlace<T>(bs: nat, place: seq<Place>, place': seq<Place>, blocks: seq<nat>, cells: seq<seq<Cell<T>>>,
                      all: seq<T>, bound: nat)
    requires CellsIn(bs, place, blocks, cells, all, bound)
    requires forall k :: 0 <= k < |blocks| && InPlace(place', blocks, k) ==> InPlace(place, blocks, k)
    ensures CellsIn(bs, place', blocks, cells, all, bound)
  {}

  lemma CellsTruncated<T>(bs: nat, place: seq<Place>, blocks: seq<nat>, q: nat, cells: seq<seq<Cell<T>>>, all: seq<T>,
                          bound: nat)
    requires CellsIn(bs, place, blocks, cells, all, bound) && q <= |blocks|
    ensures CellsIn(bs, place, blocks[..q], cells, all, bound)
  {
    forall i | 0 <= i < bound && InPlace(place, blocks[..q], i / bs) ensures CellAt(bs, blocks[..q], cells, all[i], i) {
    }
  }

  /** A block is taken into use, for the elements from bound on. */
  lemma CellsAppended<T>(bs: nat, place: seq<Place>, blocks: seq<nat>, b: nat, cells: seq<seq<Cell<T>>>, all: seq<T>,
                         bound: nat)
    requires CellsIn(bs, place, blocks, cells, all, bound) && bound <= |blocks| * bs
    ensures CellsIn(bs, place, blocks + [b], cells, all, bound)
  {
    forall i | 0 <= i < bound
      && InPlace(place, blocks + [b], i / bs) ensures CellAt(bs, blocks + [b], cells, all[i], i) {
    }
  }

  lemma CellsLonger<T>(bs: nat, place: seq<Place>, blocks: seq<nat>, cells: seq<seq<Cell<T>>>, row: seq<Cell<T>>,
                       all: seq<T>, bound: nat)
    requires CellsIn(bs, place, blocks, cells, all, bound)
    ensures CellsIn(bs, place, blocks, cells + [row], all, bound)
  {
    forall i | 0 <= i < bound && InPlace(place, blocks, i / bs) ensures CellAt(bs, blocks, cells + [row], all[i], i) {
    }
  }

  lemma CellsScribbled<T>(bs: nat, place: seq<Place>, blocks: seq<nat>, cells: seq<seq<Cell<T>>>, b: nat,
                          row: seq<Cell<T>>, all: seq<T>, bound: nat)
    requires CellsIn(bs, place, blocks, cells, all, bound) && b < |place| == |cells| && place[b] == Pool
    ensures CellsIn(bs, place, blocks, cells[b := row], all, bound)
  {
    forall i | 0 <= i < bound && InPlace(place, blocks, i / bs)
      ensures CellAt(bs, blocks, cells[b := row], all[i], i)
    {}
  }

  /** The elements from i to `stop` are written to the block of i. */
  lemma CellsFilled<T>(bs: nat, place: seq<Place>, blocks: seq<nat>, cells: seq<seq<Cell<T>>>, all: seq<T>,
                       i: nat, stop: nat)
    requires CellsIn(bs, place, blocks, cells, all, i) && InPlace(place, blocks, i / bs) && |place| == |cells|
    requires i <= stop <= |all| && stop <= (i / bs + 1) * bs && |cells[blocks[i / bs]]| == bs
    ensures var b := blocks[i / bs];
      CellsIn(bs, place, blocks, cells[b := Written(cells[b], i % bs, all[i..stop])], all, stop)
  {
    var k, b := i / bs, blocks[i / bs];
    var row := Written(cells[b], i % bs, all[i..stop]);
    DivBounds(i, bs);
    forall x | 0 <= x < stop && InPlace(place, blocks, x / bs) ensures CellAt(bs, blocks, cells[b := row], all[x], x) {
      DivBounds(x, bs);
      if x / bs != k {
        if x >= i { SameBlock(i, x, stop, bs); }
      }
    }
  }

  lemma SameBlock(i: nat, x: nat, stop: nat, b: nat)
    requires b > 0 && i <= x < stop <= (i / b + 1) * b
    ensures x / b == i / b
  {
    DivUnique(x, b, i / b);
  }

  // ---------------------------------------------------------------- what the index underneath does

  /** Nothing that the pointers depend on changes. */
  ghost predicate Same(c: ImplicitIndex.State, c': ImplicitIndex.State) {
    && c'.bs == c.bs && c'.tailIndex == c.tailIndex && c'.committed == c.committed && c'.want == c.want
    && Blocks(c'.uses) == Blocks(c.uses) && |c'.place| == |c.place|
    && forall k :: InPlace(c'.place, Blocks(c.uses), k) ==> InPlace(c.place, Blocks(c.uses), k)
  }

  /** Stages that neither take nor give back a block. */
  predicate Quiet(c: ImplicitIndex.State) {
    || c.prod.Check? || c.prod.StoreKey? || c.prod.StoreTail? || c.prod.DropTail? || c.prod.DropValue?
    || (c.prod.Undo? && c.committed + c.prod.j < |c.uses|) || c.prod.UndoTail?
  }

  predicate QuietNext(prod: Producer, prod': Producer) {
    match prod
    case Check(todo) => prod' == Undo(0) || prod' == StoreKey(todo)
    case StoreKey(todo) => prod' == StoreTail(todo)
    case StoreTail(todo) => prod' == Requisition(todo)
    case DropTail => prod'.DropValue?
    case DropValue(_) => prod' == Undo(0)
    case Undo(j) => prod' == UndoTail(j)
    case UndoTail(j) => prod' == Undo(j + 1)
    case _ => false
  }

  lemma QuietStep(c: ImplicitIndex.State, ok: bool, full: bool, block: nat)
    requires Sound(c) && Quiet(c)
    ensures var c' := ProducerStep(c, ok, full, block); Same(c, c') && c'.place == c.place && QuietNext(c.prod, c'.prod)
  {
    hide Sound, At, LookUp, GrownIndex;
  }

  lemma RequisitionStep(c: ImplicitIndex.State, ok: bool, full: bool, block: nat)
    requires Sound(c) && c.prod.Requisition?
    ensures var c' := ProducerStep(c, ok, full, block);
      && c'.bs == c.bs && c'.tailIndex == c.tailIndex && c'.committed == c.committed && c'.want == c.want
      && c'.uses == c.uses && |c.place| <= |c'.place| <= |c.place| + 1
      && (c'.prod == c.prod || c'.prod == DropTail || (c'.prod.StoreValue? && c'.prod.todo == c.prod.todo))
      && (forall b :: 0 <= b < |c.place| && c'.place[b] != c.place[b] ==>
            c.place[b] == Pool && c'.place[b] == InUse(|c.uses|))
      && (|c'.place| > |c.place| ==> c'.place[|c.place|] == InUse(|c.uses|))
  {
    hide Sound;
  }

  lemma StoreValueStep(c: ImplicitIndex.State, ok: bool, full: bool, block: nat)
    requires Sound(c) && c.prod.StoreValue?
    ensures var c' := ProducerStep(c, ok, full, block);
      && c'.bs == c.bs && c'.tailIndex == c.tailIndex && c'.committed == c.committed && c'.want == c.want
      && c'.place == c.place && Blocks(c'.uses) == Blocks(c.uses) + [c.prod.block]
      && c'.prod == if c.prod.todo > 1 then Check(c.prod.todo - 1) else Publish
  {
    hide Sound;
  }

  lemma ConsumerStepSame(c: ImplicitIndex.State, a: ImplicitIndex.Action)
    requires a.Claim? || a.Consume?
    ensures var c' := ImplicitIndex.Step(c, a); Same(c, c') && c'.prod == c.prod
  {
    if a.Consume? && a.u < |c.cons| { ConsumeSame(c, a.u); }
  }

  predicate NeedsBlocks(prod: Producer) {
    prod.Check? || prod.StoreKey? || prod.StoreTail? || prod.Requisition? || prod.StoreValue?
  }

  /** What the index module proves of the blocks of a call. */
  lemma CallBlocks(c: ImplicitIndex.State)
    requires ImplicitIndex.Inv(c)
    ensures Sound(c) && c.bs > 1 && c.committed <= |c.uses| && |c.count| == |c.place|
    ensures c.committed == Ceil(c.tailIndex, c.bs) && c.tailIndex <= c.committed * c.bs
    ensures c.prod.Undo? || c.prod.UndoTail? || c.prod.Return? ==> c.committed + c.prod.j <= |c.uses|
    ensures c.prod.Publish? ==> |c.uses| == Ceil(c.tailIndex + c.want, c.bs)
    ensures c.prod.Ready? ==> |c.uses| == c.committed
    ensures c.prod.StoreValue? ==> c.prod.block < |c.place| && c.place[c.prod.block] == InUse(|c.uses|)
    ensures c.prod.UndoTail? ==> c.committed + c.prod.j < |c.uses|
    ensures NeedsBlocks(c.prod) ==> c.prod.todo > 0 && |c.uses| + c.prod.todo == Ceil(c.tailIndex + c.want, c.bs)
  {
    ProducerSound(c);
    hide Sound, IndexInv, LiveInv, ValueInv, OldInv, TentativeInv, InsertInv, ZeroInv, JunkInv, ConsAll, CountInv;
  }

  /** The blocks that the call's links lead through are in use. */
  lemma LinkedInPlace(c: ImplicitIndex.State)
    requires ImplicitIndex.Inv(c) && c.bs > 0 && !c.prod.Ready?
    ensures forall k :: 0 <= k && Lo(c) <= k < |c.uses| ==> InPlace(c.place, Blocks(c.uses), k)
  {
    hide ImplicitIndex.Inv;
    forall k | 0 <= k && Lo(c) <= k < |c.uses| ensures InPlace(c.place, Blocks(c.uses), k) {
      if k < c.committed { TailIsKept(c); } else { TentativeIsKept(c, k); }
    }
  }

  // ---------------------------------------------------------------- steps

  function CoreAction<T>(a: Action<T>): ImplicitIndex.Action {
    match a
    case Insert(xs, _) => ImplicitIndex.Enqueue(|xs|)
    case Go(ok, full, block) => ImplicitIndex.Produce(ok, full, block)
    case Others(b) => b
    case Scribble(_, _, _) => ImplicitIndex.Produce(false, false, 0)
  }

  /** The pointers lead through the call's blocks as the counters of module ImplicitIndex do. */
  lemma RollsBackAlike<T>(s: State<T>, ok: bool, full: bool, block: nat)
    requires Inv(s) && (s.core.prod.Undo? || s.core.prod.Return?)
    ensures Sound(s.core) && ChainStep(s, ok, full, block).core == ProducerStep(s.core, ok, full, block)
    ensures s.call.at == NoBlock <==> s.core.committed + s.core.prod.j == |s.core.uses|
  {
    hide ImplicitIndex.Inv, Shapes, CellsOk, Linkage, Sound, LookUp, At;
    CallBlocks(s.core);
    if s.core.prod.Return? && s.call.at.To? { GivesBackAlike(s, ok, full, block); }
  }

  lemma GivesBackAlike<T>(s: State<T>, ok: bool, full: bool, block: nat)
    requires Sound(s.core) && s.core.prod.Return? && s.core.committed + s.core.prod.j < |s.core.uses|
    requires s.call.at == To(s.core.uses[s.core.committed + s.core.prod.j].block)
    ensures ChainStep(s, ok, full, block).core == ProducerStep(s.core, ok, full, block)
  {}

  /** Every step is a step of module ImplicitIndex, or none. */
  lemma Refines<T>(s: State<T>, a: Action<T>)
    requires Inv(s)
    ensures Step(s, a).core == s.core || Step(s, a).core == ImplicitIndex.Step(s.core, CoreAction(a))
  {
    hide Inv, Sound, ProducerStep, ConsumerStep, StopAt, LinksNow;
    match a
    case Insert(xs, single) =>
    case Go(ok, full, block) =>
      if Sound(s.core) && (s.core.prod.Undo? || s.core.prod.Return?) { RollsBackAlike(s, ok, full, block); }
    case Others(b) =>
    case Scribble(_, _, _) =>
  }

  lemma ChainQuiet(c: ImplicitIndex.State, c': ImplicitIndex.State, tailBlock: Link, next: seq<Link>, call: Call,
      at: Link)
    requires ChainOk(c, tailBlock, next, call) && Same(c, c') && QuietNext(c.prod, c'.prod) && c.committed <= |c.uses|
    requires c.prod.UndoTail? ==> c.committed + c.prod.j < |c.uses|
    requires at == if c.prod.Check? || c.prod.DropValue? then call.first
                   else if c.prod.UndoTail? then NextOf(next, call.at) else call.at
    ensures ChainOk(c', tailBlock, next, call.(at := at))
  {
    hide Linkage, Blocks;
    if c.prod.UndoTail? { NextInChain(next, Blocks(c.uses), Lo(c), c.committed, c.committed + c.prod.j); }
    hide Same;
  }

  lemma NextInChain(next: seq<Link>, blocks: seq<nat>, lo: int, committed: nat, k: nat)
    requires lo <= k < |blocks| && committed <= k
    ensures Linkage(next, blocks, lo, committed) ==> NextOf(next, To(blocks[k])) == LinkOf(blocks, k + 1)
  {}

  lemma QuietKeeps<T>(s: State<T>, ok: bool, full: bool, block: nat)
    requires Inv(s) && Sound(s.core) && Quiet(s.core)
    ensures Inv(ChainStep(s, ok, full, block))
  {
    hide ImplicitIndex.Inv, Sound, ProducerStep, ChainOk, CellsIn, Quiet;
    var c, c' := s.core, ProducerStep(s.core, ok, full, block);
    var s' := ChainStep(s, ok, full, block);
    CallBlocks(c);
    QuietStep(c, ok, full, block);
    QuietIs(s, ok, full, block);
    ImplicitIndex.StepKeeps(c, ImplicitIndex.Produce(ok, full, block));
    ChainQuiet(c, c', s.tailBlock, s.next, s.call, s'.call.at);
  }

  lemma QuietIs<T>(s: State<T>, ok: bool, full: bool, block: nat)
    requires Inv(s) && Sound(s.core) && Quiet(s.core)
    ensures var s' := ChainStep(s, ok, full, block);
      && s' == s.(core := ProducerStep(s.core, ok, full, block), call := s.call.(at := s'.call.at))
      && s'.call.at == (if s.core.prod.Check? || s.core.prod.DropValue? then s.call.first
                        else if s.core.prod.UndoTail? then NextOf(s.next, s.call.at) else s.call.at)
      && s.core.prod != Publish && s.core.prod != Ready
  {
    hide ImplicitIndex.Inv, Sound, ProducerStep, CellsOk, Shapes, Linkage;
  }

  // ---- a block is handed out

  lemma ChainRequisition(c: ImplicitIndex.State, c': ImplicitIndex.State, tailBlock: Link, next: seq<Link>,
                         next': seq<Link>, call: Call)
    requires ChainOk(c, tailBlock, next, call) && c.prod.Requisition? && (next' == next || next' == next + [NoBlock])
    requires c'.bs == c.bs && c'.tailIndex == c.tailIndex && c'.committed == c.committed && c'.want == c.want
    requires c'.uses == c.uses && Allocating(c'.prod)
    ensures ChainOk(c', tailBlock, next', call)
  {
    hide Linkage;
    if !call.single { LinkageLonger(next, Blocks(c.uses), Lo(c), c.committed, NoBlock); }
  }

  lemma RequisitionCells<T>(s: State<T>, c': ImplicitIndex.State, cells': seq<seq<Cell<T>>>)
    requires CellsOk(s) && s.core.prod.Requisition? && |s.core.place| <= |c'.place| <= |s.core.place| + 1
    requires cells' == s.cells || exists row :: cells' == s.cells + [row]
    requires c'.uses == s.core.uses && c'.bs == s.core.bs && c'.tailIndex == s.core.tailIndex && c'.prod != Publish
    requires forall b :: 0 <= b < |s.core.place| && c'.place[b] != s.core.place[b] ==> c'.place[b] == InUse(|c'.uses|)
    requires |c'.place| > |s.core.place| ==> c'.place[|s.core.place|] == InUse(|c'.uses|)
    ensures CellsOk(s.(core := c', cells := cells'))
  {
    hide CellsIn;
    var c, all := s.core, s.items + s.call.xs;
    CellsPlace(c.bs, c.place, c'.place, Blocks(c.uses), s.cells, all, c.tailIndex);
    if cells' != s.cells {
      var row :| cells' == s.cells + [row];
      CellsLonger(c.bs, c'.place, Blocks(c.uses), s.cells, row, all, c.tailIndex);
    }
  }

  lemma RequisitionIs<T>(s: State<T>, ok: bool, full: bool, block: nat)
    requires Sound(s.core) && s.core.prod.Requisition?
    ensures var s' := ChainStep(s, ok, full, block);
      var c' := ProducerStep(s.core, ok, full, block);
      && s' == s.(core := c', next := s'.next, cells := s'.cells)
      && (if |c'.place| > |s.core.place| then s'.next == s.next + [NoBlock]
        && s'.cells == s.cells + [seq(s.core.bs, _ => Cell.Junk)]
          else s'.next == s.next && s'.cells == s.cells)
  {}

  lemma RequisitionKeeps<T>(s: State<T>, ok: bool, full: bool, block: nat)
    requires Inv(s) && Sound(s.core) && s.core.prod.Requisition?
    ensures Inv(ChainStep(s, ok, full, block))
  {
    hide ImplicitIndex.Inv, Sound, ProducerStep, CellsOk, ChainOk, ChainStep;
    var c, c' := s.core, ProducerStep(s.core, ok, full, block);
    var s' := ChainStep(s, ok, full, block);
    RequisitionStep(c, ok, full, block);
    ImplicitIndex.StepKeeps(c, ImplicitIndex.Produce(ok, full, block));
    RequisitionIs(s, ok, full, block);
    ChainRequisition(c, c', s.tailBlock, s.next, s'.next, s.call);
    RequisitionCells(s, c', s'.cells);
    CellsOkSame(s.(core := c', cells := s'.cells), s');
  }

  lemma CellsOkSame<T>(s: State<T>, s': State<T>)
    requires CellsOk(s) && s'.core == s.core && s'.cells == s.cells && s'.items == s.items && s'.call.xs == s.call.xs
    requires s.core.prod == Publish ==> s'.call.fill == s.call.fill
    ensures CellsOk(s')
  {}

  // ---- a block becomes part of the call

  lemma LinkedIs<T>(s: State<T>, b: nat)
    requires s.core.bs > 0
    ensures var s1 := Linked(s, b);
      && s1.core == s.core && s1.cells == s.cells && s1.items == s.items && |s1.next| == |s.next|
      && s1.tailBlock == To(b) && s1.call.end == To(b) && s1.call.xs == s.call.xs && s1.call.single == s.call.single
      && s1.call.start == s.call.start && s1.call.fill == s.call.fill
      && s1.call.first == (if s.call.single || s.call.first != NoBlock then s.call.first else To(b))
      && s1.next == (if s.call.single then s.next
                     else if LinksNow(s) then SetNext(SetNext(s.next, To(b), NoBlock), s.tailBlock, To(b))
                     else SetNext(s.next, To(b), NoBlock))
  {}

  /** The chain after block b has been linked, in the terms of the state before. */
  lemma LinkedChain<T>(s: State<T>)
    requires Inv(s) && s.core.prod.StoreValue? && s.core.bs > 0
    ensures var c, b := s.core, s.core.prod.block;
      var s1, blocks := Linked(s, b), Blocks(c.uses) + [b];
      && s1.call.start == LinkOf(blocks, c.committed - 1)
      && (c.committed <= |c.uses|)
      && (!s.call.single ==>
            s1.call.first == LinkOf(blocks, c.committed) && Linkage(s1.next, blocks, Lo(c), c.committed))
      && (s.call.single ==> |c.uses| == c.committed && s1.call.first == NoBlock && |s.call.xs| == 1)
      && |s.call.xs| == c.want
  {
    hide ImplicitIndex.Inv, Shapes, CellsOk, Linkage, Linked;
    var c, b := s.core, s.core.prod.block;
    CallBlocks(c);
    LinkedIs(s, b);
    if !s.call.single {
      LinkedInPlace(c);
      NextSized(s);
      LinkageGrows(s.next, Blocks(c.uses), c.place, Lo(c), c.committed, b, LinksNow(s));
    }
  }

  lemma NextSized<T>(s: State<T>)
    requires Shapes(s)
    ensures |s.next| == |s.core.place| == |s.cells| && |s.items| == s.core.tailIndex
  {}

  /** What remains to be shown of a step that leads to Publish is where writing starts. */
  lemma StartsFill(c: ImplicitIndex.State, next: seq<Link>, call: Call, tailBlock: Link)
    requires c.bs > 1 && c.committed == Ceil(c.tailIndex, c.bs) <= |c.uses| == Ceil(c.tailIndex + |call.xs|, c.bs)
    requires |call.xs| == c.want && call.end == LinkOf(Blocks(c.uses), |c.uses| - 1)
    requires call.start == LinkOf(Blocks(c.uses), c.committed - 1)
    requires if call.single then tailBlock == call.end && |c.uses| <= c.committed + 1 && |call.xs| == 1
             else call.first == LinkOf(Blocks(c.uses), c.committed)
                  && Linkage(next, Blocks(c.uses),
                             if c.tailIndex % c.bs != 0 then c.committed - 1 else c.committed, c.committed)
    requires call.fill == Filling(c.tailIndex)
    requires |c.uses| > c.committed && call.single ==> c.tailIndex % c.bs == 0
    requires call.xs != [] ==> |c.uses| > 0 && c.uses[|c.uses| - 1].block < |next|
    ensures var from :=
        if call.single then tailBlock
        else if c.tailIndex % c.bs == 0 && call.first != NoBlock then call.first
        else call.start;
      FillOk(c, from, next, call)
  {
    hide Blocks;
    assert |Blocks(c.uses)| == |c.uses|;
    FillStarts(c.tailIndex, |call.xs|, c.bs);
  }

  /** The block that writing starts in. */
  lemma FillStarts(tail: nat, n: nat, b: nat)
    requires b > 1
    ensures tail / b == (if tail % b == 0 then Ceil(tail, b) else Ceil(tail, b) - 1)
    ensures n > 0 && tail % b == 0 ==> Ceil(tail, b) < Ceil(tail + n, b)
    ensures n == 0 ==> Ceil(tail + n, b) == Ceil(tail, b)
  {
    if tail % b == 0 {
      DivUnique(tail + b - 1, b, tail / b);
    } else {
      PartBlock(tail, b);
    }
  }

  lemma OneMore(tail: nat, b: nat)
    requires b > 1
    ensures Ceil(tail + 1, b) <= Ceil(tail, b) + 1
    ensures tail % b != 0 ==> Ceil(tail + 1, b) == Ceil(tail, b)
  {
    if tail % b == 0 {
      FillStarts(tail, 0, b);
      DivUnique(tail + 1 + b - 1, b, tail / b + 1);
    } else {
      PartBlock(tail, b);
      DivUnique(tail + 1 + b - 1, b, tail / b + 1);
    }
  }

  lemma StoreValueGoesOn<T>(s: State<T>, c': ImplicitIndex.State)
    requires Inv(s) && s.core.prod.StoreValue? && s.core.bs > 0
    requires c'.bs == s.core.bs && c'.tailIndex == s.core.tailIndex && c'.committed == s.core.committed
    requires c'.want == s.core.want && c'.place == s.core.place && |c'.uses| == |s.core.uses| + 1
    requires Blocks(c'.uses) == Blocks(s.core.uses) + [s.core.prod.block]
    requires c'.prod == Check(s.core.prod.todo - 1) && s.core.prod.todo > 1
    ensures CallOk(Linked(s, s.core.prod.block).(core := c'))
  {
    hide ImplicitIndex.Inv, CellsOk, Linkage, Linked, Blocks, Shapes;
    CallBlocks(s.core);
    LinkedIs(s, s.core.prod.block);
    LinkedChain(s);
    OneMore(s.core.tailIndex, s.core.bs);
  }

  lemma StoreValueEnds<T>(s: State<T>, c': ImplicitIndex.State)
    requires Inv(s) && s.core.prod.StoreValue? && s.core.bs > 0
    requires c'.bs == s.core.bs && c'.tailIndex == s.core.tailIndex && c'.committed == s.core.committed
    requires c'.want == s.core.want && c'.place == s.core.place && |c'.uses| == |s.core.uses| + 1
    requires Blocks(c'.uses) == Blocks(s.core.uses) + [s.core.prod.block]
    requires c'.prod == Publish && s.core.prod.todo == 1
    ensures CallOk(StartFill(Linked(s, s.core.prod.block).(core := c')))
  {
    hide ImplicitIndex.Inv, CellsOk, Linkage, Linked, Blocks, Shapes, FillOk;
    var c, b := s.core, s.core.prod.block;
    var s1 := Linked(s, b);
    CallBlocks(c);
    LinkedIs(s, b);
    LinkedChain(s);
    NextSized(s);
    OneMore(c.tailIndex, c.bs);
    StartsFill(c', s1.next, s1.call.(fill := Filling(c.tailIndex)), To(b));
  }

  lemma StoreValueCells<T>(s: State<T>, c': ImplicitIndex.State)
    requires Inv(s) && s.core.prod.StoreValue? && s.core.bs > 0
    requires c'.bs == s.core.bs && c'.tailIndex == s.core.tailIndex && c'.place == s.core.place && !c'.prod.Ready?
    requires Blocks(c'.uses) == Blocks(s.core.uses) + [s.core.prod.block]
    ensures CellsOk(IfReady(Linked(s, s.core.prod.block).(core := c')))
        && Shapes(IfReady(Linked(s, s.core.prod.block).(core := c')))
  {
    hide ImplicitIndex.Inv, CellsIn, Linked, Blocks, ChainOk;
    var c, b := s.core, s.core.prod.block;
    CallBlocks(c);
    LinkedIs(s, b);
    CellsAppended(c.bs, c.place, Blocks(c.uses), b, s.cells, s.items + s.call.xs, c.tailIndex);
  }

  lemma StoreValueKeeps<T>(s: State<T>, ok: bool, full: bool, block: nat)
    requires Inv(s) && Sound(s.core) && s.core.prod.StoreValue?
    ensures Inv(ChainStep(s, ok, full, block))
  {
    hide ImplicitIndex.Inv, Sound, ProducerStep, CellsOk, CallOk, Shapes, Linked, Blocks;
    var c, c' := s.core, ProducerStep(s.core, ok, full, block);
    CallBlocks(c);
    StoreValueStep(c, ok, full, block);
    ImplicitIndex.StepKeeps(c, ImplicitIndex.Produce(ok, full, block));
    if c.prod.todo > 1 { StoreValueGoesOn(s, c'); } else { StoreValueEnds(s, c'); }
    StoreValueCells(s, c');
  }

  // ---- rolling back

  lemma UndoEndKeeps<T>(s: State<T>, ok: bool, full: bool, block: nat)
    requires Inv(s) && Sound(s.core) && s.core.prod.Undo? && s.call.at == NoBlock
    ensures Inv(ChainStep(s, ok, full, block))
  {
    hide ImplicitIndex.Inv, Sound, ProducerStep, CellsIn, Linkage;
    RollsBackAlike(s, ok, full, block);
    ImplicitIndex.StepKeeps(s.core, ImplicitIndex.Produce(ok, full, block));
    CallBlocks(s.core);
    var c := s.core;
    if !s.call.single { LinkageShrinks(s.next, Blocks(c.uses), Lo(c), c.committed, c.committed, c.committed); }
  }

  lemma GiveBackChain(c: ImplicitIndex.State, c': ImplicitIndex.State, tailBlock: Link, next: seq<Link>, call: Call)
    requires ChainOk(c, tailBlock, next, call) && c.prod.Return? && c.committed + c.prod.j < |c.uses|
    requires c'.bs == c.bs && c'.tailIndex == c.tailIndex && c'.committed == c.committed && c'.want == c.want
    requires Blocks(c'.uses) == Blocks(c.uses) && |c'.uses| == |c.uses| && c'.prod == Return(c.prod.j + 1)
    ensures ChainOk(c', tailBlock, next, call.(at := NextOf(next, call.at)))
  {
    hide Linkage, Blocks;
    var blocks := Blocks(c.uses);
    NextInChain(next, blocks, Lo(c), c.committed, c.committed + c.prod.j);
    if !call.single { LinkageShrinks(next, blocks, Lo(c), Lo(c) + 1, c.committed, c.committed); }
  }

  lemma GiveBackKeeps<T>(s: State<T>, ok: bool, full: bool, block: nat)
    requires Inv(s) && Sound(s.core) && s.core.prod.Return? && s.call.at.To?
    ensures Inv(ChainStep(s, ok, full, block))
  {
    hide ImplicitIndex.Inv, Sound, ProducerStep, CellsIn, ChainOk;
    RollsBackAlike(s, ok, full, block);
    ImplicitIndex.StepKeeps(s.core, ImplicitIndex.Produce(ok, full, block));
    CallBlocks(s.core);
    var c, c' := s.core, ChainStep(s, ok, full, block).core;
    GiveBackChain(c, c', s.tailBlock, s.next, s.call);
    CellsPlace(c.bs, c.place, c'.place, Blocks(c.uses), s.cells, s.items + s.call.xs, c.tailIndex);
  }

  lemma ReturnEndKeeps<T>(s: State<T>, ok: bool, full: bool, block: nat)
    requires Inv(s) && Sound(s.core) && s.core.prod.Return? && s.call.at == NoBlock
    ensures Inv(ChainStep(s, ok, full, block))
  {
    hide ImplicitIndex.Inv, Sound, ProducerStep, CellsIn, Linkage;
    RollsBackAlike(s, ok, full, block);
    ImplicitIndex.StepKeeps(s.core, ImplicitIndex.Produce(ok, full, block));
    var c := s.core;
    assert Blocks(c.uses[..c.committed]) == Blocks(c.uses)[..c.committed];
    CellsTruncated(c.bs, c.place, Blocks(c.uses), c.committed, s.cells, s.items + s.call.xs, c.tailIndex);
  }

  // ---- writing the elements

  /** Where the writing of the block of index i stops, and whether it is the last. */
  lemma Stops(i: nat, end: nat, b: nat)
    requires b > 1 && i < end
    ensures var stop := if end < (i / b + 1) * b then end else (i / b + 1) * b;
      && i < stop <= end && stop <= (i / b + 1) * b && i / b < Ceil(end, b)
      && (i / b == Ceil(end, b) - 1 ==> stop == end)
      && (i / b < Ceil(end, b) - 1 ==> stop < end && stop / b == i / b + 1)
  {
    var k, m := i / b, Ceil(end, b);
    if k >= m { MulMono(m, k, b); }
    if k < m - 1 {
      MulMono(k + 1, m - 1, b);
      DivExact(k + 1, b);
    }
  }

  /** The block being written is in use for the elements being written. */
  lemma WritesOwnBlock(c: ImplicitIndex.State, tailBlock: Link, next: seq<Link>, call: Call)
    requires ImplicitIndex.Inv(c) && c.prod == Publish && FillOk(c, tailBlock, next, call)
    requires call.fill.Filling? && call.xs != []
    ensures c.bs > 1 && var k := call.fill.i / c.bs;
      && InPlace(c.place, Blocks(c.uses), k) && tailBlock == To(Blocks(c.uses)[k]) && k < |c.uses|
      && InPlace(c.place, Blocks(c.uses), |c.uses| - 1)
      && (tailBlock == call.end <==> k == |c.uses| - 1)
  {
    hide ImplicitIndex.Inv, Linkage;
    CallBlocks(c);
    var i := call.fill.i;
    Stops(i, c.tailIndex + c.want, c.bs);
    LinkedInPlace(c);
  }

  lemma FillPointers(c: ImplicitIndex.State, tailBlock: Link, next: seq<Link>, call: Call, stop: nat)
    requires ImplicitIndex.Inv(c) && c.prod == Publish && FillOk(c, tailBlock, next, call) && call.fill.Filling?
        && c.bs > 0
    requires var end := c.tailIndex + |call.xs|; var stop' := (call.fill.i / c.bs + 1) * c.bs;
      stop == if end < stop' then end else stop'
    ensures if tailBlock == call.end then FillOk(c, tailBlock, next, call.(fill := Filled))
            else FillOk(c, NextOf(next, tailBlock), next, call.(fill := Filling(stop)))
    ensures call.xs != [] ==> call.fill.i < stop <= c.tailIndex + |call.xs| && stop <= (call.fill.i / c.bs + 1) * c.bs
    ensures tailBlock == call.end && call.xs != [] ==> stop == c.tailIndex + |call.xs|
  {
    hide ImplicitIndex.Inv, Linkage;
    CallBlocks(c);
    if call.xs != [] {
      WritesOwnBlock(c, tailBlock, next, call);
      var k := call.fill.i / c.bs;
      Stops(call.fill.i, c.tailIndex + |call.xs|, c.bs);
      if tailBlock != call.end {
        NextLinked(next, Blocks(c.uses), k);
        LinkageShrinks(next, Blocks(c.uses), k, k + 1, |c.uses|, |c.uses|);
      }
    }
  }

  lemma NextLinked(next: seq<Link>, blocks: seq<nat>, k: nat)
    requires Linkage(next, blocks, k, |blocks|) && k + 1 < |blocks|
    ensures NextOf(next, To(blocks[k])) == LinkOf(blocks, k + 1)
  {}

  lemma FillCells<T>(s: State<T>)
    requires Inv(s) && s.core.prod == Publish && s.call.fill.Filling? && s.core.bs > 0
    ensures Shapes(FillStep(s, s.call.fill.i)) && CellsOk(FillStep(s, s.call.fill.i))
  {
    hide ImplicitIndex.Inv, CellsIn, Linkage;
    var c, i, xs := s.core, s.call.fill.i, s.call.xs;
    var stop, all := StopAt(s, i), s.items + xs;
    FillPointers(c, s.tailBlock, s.next, s.call, stop);
    if xs != [] {
      WritesOwnBlock(c, s.tailBlock, s.next, s.call);
      CellsFilled(c.bs, c.place, Blocks(c.uses), s.cells, all, i, stop);
      assert all[i..stop] == xs[i - c.tailIndex..stop - c.tailIndex];
    } else {
      NothingWritten(s);
    }
  }

  lemma NothingWritten<T>(s: State<T>)
    requires Inv(s) && s.core.prod == Publish && s.call.fill.Filling? && s.core.bs > 0 && s.call.xs == []
    ensures Shapes(FillStep(s, s.call.fill.i)) && CellsOk(FillStep(s, s.call.fill.i))
  {
    hide ImplicitIndex.Inv, CellsIn, Linkage;
    var b, i := s.tailBlock, s.call.fill.i;
    if b.To? && b.block < |s.cells| {
      assert s.call.xs[0..0] == [] && Written(s.cells[b.block], i % s.core.bs, []) == s.cells[b.block];
      assert s.cells[b.block := s.cells[b.block]] == s.cells;
    }
  }

  lemma FillKeeps<T>(s: State<T>)
    requires Inv(s) && s.core.prod == Publish && s.call.fill.Filling? && s.core.bs > 0
    ensures Inv(FillStep(s, s.call.fill.i))
  {
    hide ImplicitIndex.Inv, CellsOk, Shapes, FillOk;
    FillPointers(s.core, s.tailBlock, s.next, s.call, StopAt(s, s.call.fill.i));
    FillCells(s);
  }

  lemma PublishKeeps<T>(s: State<T>, ok: bool, full: bool, block: nat)
    requires Inv(s) && Sound(s.core) && s.core.prod == Publish && s.call.fill == Filled
    ensures Inv(ChainStep(s, ok, full, block))
  {
    hide ImplicitIndex.Inv, CellsIn, Linkage, Blocks;
    ImplicitIndex.StepKeeps(s.core, ImplicitIndex.Produce(ok, full, block));
    var s' := ChainStep(s, ok, full, block);
    MoreItems(s.core.bs, s.core.place, Blocks(s.core.uses), s.cells, s'.items, s'.items + s.call.xs, |s'.items|);
  }

  lemma MoreItems<T>(bs: nat, place: seq<Place>, blocks: seq<nat>, cells: seq<seq<Cell<T>>>, all: seq<T>, all': seq<T>,
                     bound: nat)
    requires CellsIn(bs, place, blocks, cells, all, bound) && bound <= |all'|
        && forall i :: 0 <= i < bound ==> all'[i] == all[i]
    ensures CellsIn(bs, place, blocks, cells, all', bound)
  {}

  // ---- beginning a call, and what others do

  /** Between calls only the tail block matters, and only if it is partly filled. */
  lemma TailLinkage(c: ImplicitIndex.State, next: seq<Link>)
    requires ImplicitIndex.Inv(c) && c.bs > 1 && |c.uses| == c.committed && |next| == |c.place|
    ensures Linkage(next, Blocks(c.uses), if c.tailIndex % c.bs != 0 then c.committed - 1 else c.committed, c.committed)
    ensures c.tailIndex % c.bs != 0 ==> |c.uses| > 0 && c.uses[|c.uses| - 1].block < |next|
  {
    hide ImplicitIndex.Inv;
    if c.tailIndex % c.bs != 0 { TailIsKept(c); }
  }

  lemma EnqueueIs<T>(s: State<T>, xs: seq<T>, single: bool)
    requires s.core.prod == Ready && s.core.bs > 0 && (single ==> |xs| == 1)
    ensures var s' := Step(s, Insert(xs, single));
      && s' == s.(core := ImplicitIndex.Step(s.core, ImplicitIndex.Enqueue(|xs|)), call := s'.call)
      && s'.call == Call(xs, single, s.tailBlock, NoBlock, s.tailBlock, NoBlock,
                         if s'.core.prod == Publish then Filling(s.core.tailIndex) else NotYet)
  {}

  lemma EnqueueCall<T>(s: State<T>, c': ImplicitIndex.State, xs: seq<T>, single: bool)
    requires Inv(s) && s.core.prod == Ready && (single ==> |xs| == 1) && ImplicitIndex.Inv(c')
    requires c' == s.core.(prod := c'.prod, want := |xs|) && (c'.prod == Publish || c'.prod.Check?)
    ensures c'.prod.Check? ==>
      ChainOk(c', s.tailBlock, s.next, Call(xs, single, s.tailBlock, NoBlock, s.tailBlock, NoBlock, NotYet))
    ensures c'.prod == Publish ==>
      FillOk(c', s.tailBlock, s.next, Call(xs, single, s.tailBlock, NoBlock, s.tailBlock, NoBlock,
        Filling(s.core.tailIndex)))
  {
    hide ImplicitIndex.Inv, CellsOk, Linkage, Blocks, FillOk;
    var c := s.core;
    CallBlocks(c);
    CallBlocks(c');
    TailLinkage(c, s.next);
    FillStarts(c.tailIndex, |xs|, c.bs);
    if c'.prod == Publish {
      StartsFill(c', s.next, Call(xs, single, s.tailBlock, NoBlock, s.tailBlock, NoBlock, Filling(c.tailIndex)),
        s.tailBlock);
    }
  }

  lemma EnqueueKeeps<T>(s: State<T>, xs: seq<T>, single: bool)
    requires Inv(s) && s.core.prod == Ready && s.core.bs > 0 && (single ==> |xs| == 1)
    ensures Inv(Step(s, Insert(xs, single)))
  {
    hide ImplicitIndex.Inv, CellsIn, ChainOk, FillOk, Step, Blocks;
    var c, s' := s.core, Step(s, Insert(xs, single));
    ImplicitIndex.StepKeeps(c, ImplicitIndex.Enqueue(|xs|));
    EnqueueIs(s, xs, single);
    EnqueueCall(s, s'.core, xs, single);
    MoreItems(c.bs, c.place, Blocks(c.uses), s.cells, s.items + s.call.xs, s.items + xs, c.tailIndex);
  }

  lemma OthersKeep<T>(s: State<T>, a: ImplicitIndex.Action)
    requires Inv(s) && (a.Claim? || a.Consume?) && ImplicitIndex.Careful(s.core, a)
    ensures Inv(s.(core := ImplicitIndex.Step(s.core, a)))
  {
    hide ImplicitIndex.Inv, ImplicitIndex.Careful, ImplicitIndex.Step, CellsIn, Linkage, Blocks;
    var c, c' := s.core, ImplicitIndex.Step(s.core, a);
    ImplicitIndex.StepKeeps(c, a);
    ConsumerStepSame(c, a);
    CellsPlace(c.bs, c.place, c'.place, Blocks(c.uses), s.cells, s.items + s.call.xs, Bound(s));
  }

  lemma ScribbleKeeps<T>(s: State<T>, b: nat, link: Link, row: seq<Cell<T>>)
    requires Inv(s) && b < |s.core.place| && s.core.place[b] == Pool && |row| == s.core.bs
    ensures Inv(s.(next := s.next[b := link], cells := s.cells[b := row]))
  {
    hide ImplicitIndex.Inv, CellsIn, Linkage, Blocks;
    var c := s.core;
    CellsScribbled(c.bs, c.place, Blocks(c.uses), s.cells, b, row, s.items + s.call.xs, Bound(s));
    if c.prod != Ready {
      LinkedInPlace(c);
      if c.prod == Publish {
        ScribbledFill(s, b, link);
      } else if !s.call.single {
        LinkageScribbled(s.next, Blocks(c.uses), c.place, Lo(c), c.committed, b, link);
      }
    }
  }

  lemma ScribbledFill<T>(s: State<T>, b: nat, link: Link)
    requires Inv(s) && b < |s.core.place| && s.core.place[b] == Pool && s.core.prod == Publish && s.core.bs > 0
    requires forall k :: 0 <= k && Lo(s.core) <= k < |s.core.uses| ==> InPlace(s.core.place, Blocks(s.core.uses), k)
    ensures FillOk(s.core, s.tailBlock, s.next[b := link], s.call)
  {
    hide ImplicitIndex.Inv, CellsOk, Linkage, Blocks;
    var c := s.core;
    if s.call.fill.Filling? && s.call.xs != [] {
      LinkageScribbled(s.next, Blocks(c.uses), c.place, s.call.fill.i / c.bs, |c.uses|, b, link);
    }
  }

  // ---------------------------------------------------------------- the invariant over runs

  lemma ProduceKeeps<T>(s: State<T>, ok: bool, full: bool, block: nat)
    requires Inv(s) && Sound(s.core)
    ensures Inv(ChainStep(s, ok, full, block))
  {
    hide Inv, Sound, ProducerStep, Quiet;
    var c := s.core;
    if c.prod == Ready {
      ReadyStays(c, ok, full, block);
    } else if c.prod.Requisition? {
      RequisitionKeeps(s, ok, full, block);
    } else if c.prod.StoreValue? {
      StoreValueKeeps(s, ok, full, block);
    } else if c.prod.Return? {
      if s.call.at == NoBlock { ReturnEndKeeps(s, ok, full, block); } else { GiveBackKeeps(s, ok, full, block); }
    } else if c.prod == Publish {
      BlockSizeOf(s);
      if s.call.fill.Filling? { FillKeeps(s); } else if s.call.fill == Filled { PublishKeeps(s, ok, full, block); }
    } else if c.prod.Undo? && s.call.at == NoBlock {
      UndoEndKeeps(s, ok, full, block);
    } else {
      IsQuiet(s);
      QuietKeeps(s, ok, full, block);
    }
  }

  lemma BlockSizeOf<T>(s: State<T>)
    requires Inv(s)
    ensures s.core.bs > 1
  {
    hide ImplicitIndex.Inv;
  }

  lemma IsQuiet<T>(s: State<T>)
    requires Inv(s) && s.core.prod != Ready && s.core.prod != Publish
    requires !s.core.prod.Requisition? && !s.core.prod.StoreValue? && !s.core.prod.Return?
    requires s.core.prod.Undo? ==> s.call.at != NoBlock
    ensures Quiet(s.core)
  {
    hide ImplicitIndex.Inv, CellsOk, Shapes, Linkage;
  }

  lemma StepKeeps<T>(s: State<T>, a: Action<T>)
    requires Inv(s) && Careful(s, a)
    ensures Inv(Step(s, a))
  {
    hide Inv, Sound, ImplicitIndex.Step;
    match a
    case Insert(xs, single) =>
      if s.core.prod == Ready && s.core.bs > 0 && (single ==> |xs| == 1) { EnqueueKeeps(s, xs, single); }
    case Go(ok, full, block) => if Sound(s.core) { ProduceKeeps(s, ok, full, block); }
    case Others(b) => if b.Claim? || b.Consume? { OthersKeep(s, b); }
    case Scribble(b, link, row) =>
      if b < |s.core.place| && s.core.place[b] == Pool && b < |s.cells| && |row| == |s.cells[b]| {
        RowSize(s, b);
        ScribbleKeeps(s, b, link, row);
      }
  }

  lemma RowSize<T>(s: State<T>, b: nat)
    requires Inv(s) && b < |s.cells|
    ensures |s.cells[b]| == s.core.bs
  {
    hide ImplicitIndex.Inv, CellsOk, CallOk;
  }

  lemma {:induction false} RunKeeps<T>(s: State<T>, schedule: seq<Action<T>>)
    requires Inv(s) && CarefulRun(s, schedule)
    ensures Inv(Run(s, schedule))
    decreases |schedule|
  {
    hide Inv, Step, Careful;
    if schedule != [] {
      StepKeeps(s, schedule[0]);
      RunKeeps(Step(s, schedule[0]), schedule[1..]);
    }
  }

  lemma StartInv<T>(s: State<T>, capacity: nat)
    requires Init(s, capacity)
    ensures Inv(s)
  {
    hide ImplicitIndex.Inv;
    ImplicitIndex.InitInv(s.core, capacity);
  }

  lemma ReachableInv<T>(s0: State<T>, capacity: nat, schedule: seq<Action<T>>)
    requires Init(s0, capacity) && CarefulRun(s0, schedule)
    ensures Inv(Run(s0, schedule))
  {
    hide Inv, Init;
    StartInv(s0, capacity);
    RunKeeps(s0, schedule);
  }

  // ---------------------------------------------------------------- what holds in every run

  /** Action a is what an action of the schedule does underneath. */
  ghost predicate From<T>(schedule: seq<Action<T>>, a: ImplicitIndex.Action) {
    exists b :: b in schedule && a == CoreAction(b) && Moves(b)
  }

  predicate Moves<T>(b: Action<T>) { b.Insert? || b.Go? || (b.Others? && (b.a.Claim? || b.a.Consume?)) }

  /** Something that the producer asks for is refused, as in module ImplicitIndex. */
  predicate Refused<T>(s: State<T>, a: Action<T>) {
    a.Go? && ImplicitIndex.Refused(s.core, ImplicitIndex.Produce(a.ok, a.full, a.block))
  }

  predicate RefusedIn<T>(s: State<T>, schedule: seq<Action<T>>)
    decreases |schedule|
  {
    schedule != [] && (Refused(s, schedule[0]) || RefusedIn(Step(s, schedule[0]), schedule[1..]))
  }

  /** A run of this machine is, underneath, a run of module ImplicitIndex: what the producer does by following
      pointers is what it does there by counting, so all that holds there holds here. */
  lemma {:induction false} RunsAlike<T>(s: State<T>, schedule: seq<Action<T>>) returns (core: seq<ImplicitIndex.Action>)
    requires Inv(s) && CarefulRun(s, schedule)
    ensures ImplicitIndex.Run(s.core, core) == Run(s, schedule).core
    ensures forall a :: a in core ==> From(schedule, a)
    ensures ImplicitIndex.CarefulRun(s.core, core)
    ensures ImplicitIndex.RefusedIn(s.core, core) <==> RefusedIn(s, schedule)
    decreases |schedule|
  {
    hide Inv, Step, CoreAction, Moves, Careful, Refused;
    hide ImplicitIndex.Step, ImplicitIndex.Careful, ImplicitIndex.Refused;
    if schedule == [] { return []; }
    var a := schedule[0];
    StepKeeps(s, a);
    Refines(s, a);
    var rest := RunsAlike(Step(s, a), schedule[1..]);
    RefusedAlike(s, a);
    if Step(s, a).core == s.core { return rest; }
    CoreMoves(s, a);
    CarefulAlike(s, a);
    core := [CoreAction(a)] + rest;
  }

  lemma RefusedAlike<T>(s: State<T>, a: Action<T>)
    requires Inv(s)
    ensures Moves(a) ==> (ImplicitIndex.Refused(s.core, CoreAction(a)) <==> Refused(s, a))
    ensures Refused(s, a) ==> Step(s, a).core != s.core
  {
    hide Inv, Step, ImplicitIndex.Step, ImplicitIndex.Inv, SlotTaken, Sound;
    if Refused(s, a) {
      CoreInv(s);
      ReachableSound(s.core);
      AsksAlike(s, a);
      GoingBackStep(s.core, s.core.tailIndex, CoreAction(a));
    }
  }

  /** Where the producer asks for something, no pointer is followed. */
  lemma AsksAlike<T>(s: State<T>, a: Action<T>)
    requires Sound(s.core) && a.Go? && (s.core.prod.Check? || s.core.prod.Requisition?)
    ensures Step(s, a).core == ImplicitIndex.Step(s.core, CoreAction(a))
  {
    hide ProducerStep, Sound;
  }

  lemma CoreInv<T>(s: State<T>)
    requires Inv(s)
    ensures ImplicitIndex.Inv(s.core)
  {
    hide ImplicitIndex.Inv;
  }

  lemma CarefulAlike<T>(s: State<T>, a: Action<T>)
    requires Careful(s, a)
    ensures ImplicitIndex.Careful(s.core, CoreAction(a))
  {}

  lemma CoreMoves<T>(s: State<T>, a: Action<T>)
    requires Step(s, a).core != s.core
    ensures Moves(a)
  {
    hide Sound, ProducerStep, ConsumerStep, StopAt, LinksNow;
  }

  /** If every call asks for something, all are careful. */
  lemma {:induction false} AskingCallsAreCareful<T>(s: State<T>, schedule: seq<Action<T>>)
    requires forall u :: 0 <= u < |s.core.cons| ==> !AsksNothing(s.core.cons[u])
    requires forall a :: a in schedule && a.Others? && a.a.Claim? ==> a.a.n > 0
    ensures CarefulRun(s, schedule)
    decreases |schedule|
  {
    if schedule != [] {
      var s' := Step(s, schedule[0]);
      hide AsksNothing;
      forall u | 0 <= u < |s'.core.cons| ensures !AsksNothing(s'.core.cons[u]) { StillAsksHere(s, schedule[0], u); }
      AskingCallsAreCareful(s', schedule[1..]);
    }
  }

  lemma StillAsksHere<T>(s: State<T>, a: Action<T>, u: nat)
    requires forall v :: 0 <= v < |s.core.cons| ==> !AsksNothing(s.core.cons[v])
    requires (a.Others? && a.a.Claim? ==> a.a.n > 0) && u < |Step(s, a).core.cons|
    ensures |Step(s, a).core.cons| == |s.core.cons| && !AsksNothing(Step(s, a).core.cons[u])
  {
    hide Sound, ProducerStep, ImplicitIndex.Step, StopAt, LinksNow, AsksNothing;
    if a.Others? && (a.a.Claim? || a.a.Consume?) { StillAsks(s.core, a.a, u); }
    if a.Insert? && s.core.prod == Ready && s.core.bs > 0 { StartSameCons(s.core, |a.xs|); }
    if a.Go? && Sound(s.core) { GoSameCons(s.core, a.ok, a.full, a.block); }
  }

  lemma StartSameCons(c: ImplicitIndex.State, count: nat)
    ensures ImplicitIndex.Step(c, ImplicitIndex.Enqueue(count)).cons == c.cons
  {}

  lemma GoSameCons(c: ImplicitIndex.State, ok: bool, full: bool, block: nat)
    requires Sound(c)
    ensures ProducerStep(c, ok, full, block).cons == c.cons
  {
    ProduceCons(c, ok, full, block);
    hide ProducerStep, Sound;
  }

  // ---- the tail block

  /** The tail block is the one in use as number k. */
  predicate TailIs<T>(s: State<T>, k: int) {
    && 0 <= k < |s.core.uses| && s.tailBlock == To(s.core.uses[k].block)
    && s.core.uses[k].block < |s.core.place| && s.core.place[s.core.uses[k].block] == InUse(k)
  }

  /** The producer never writes to, or links through, a block it has given up: when the tail block is partly
      filled, when a new block is linked from it, and when elements are written to it, it is in use as the block
      that these belong to. */
  lemma TailBlockIsOurs<T>(s0: State<T>, capacity: nat, schedule: seq<Action<T>>)
    requires Init(s0, capacity) && CarefulRun(s0, schedule)
    ensures var s := Run(s0, schedule);
      && s.core.bs > 0
      && (s.core.prod == Ready && s.core.tailIndex % s.core.bs != 0 ==> TailIs(s, s.core.tailIndex / s.core.bs))
      && (s.core.prod.StoreValue? && LinksNow(s) ==> TailIs(s, |s.core.uses| - 1))
      && (s.core.prod == Publish && s.call.fill.Filling? && s.call.xs != [] ==> TailIs(s, s.call.fill.i / s.core.bs))
  {
    hide ImplicitIndex.Inv, CellsOk, Linkage;
    var s := Run(s0, schedule);
    var c := s.core;
    ReachableInv(s0, capacity, schedule);
    CallBlocks(c);
    if c.prod == Ready && c.tailIndex % c.bs != 0 { TailIsKept(c); }
    if c.prod.StoreValue? && LinksNow(s) {
      if |c.uses| > c.committed { TentativeIsKept(c, |c.uses| - 1); } else { TailIsKept(c); }
    }
    if c.prod == Publish && s.call.fill.Filling? && s.call.xs != [] {
      WritesOwnBlock(c, s.tailBlock, s.next, s.call);
    }
  }

  /** The loop that writes the elements stops at the end of the call's elements: the assertion there holds. */
  lemma WritingEndsRight<T>(s0: State<T>, capacity: nat, schedule: seq<Action<T>>)
    requires Init(s0, capacity) && CarefulRun(s0, schedule)
    ensures var s := Run(s0, schedule);
      && s.core.bs > 0
      && (s.core.prod == Publish && s.call.fill.Filling? && s.tailBlock == s.call.end ==>
            StopAt(s, s.call.fill.i) == s.core.tailIndex + |s.call.xs|)
  {
    hide ImplicitIndex.Inv, CellsOk, Linkage, FillOk;
    var s := Run(s0, schedule);
    ReachableInv(s0, capacity, schedule);
    CallBlocks(s.core);
    if s.core.prod == Publish && s.call.fill.Filling? {
      FillPointers(s.core, s.tailBlock, s.next, s.call, StopAt(s, s.call.fill.i));
      if s.call.xs == [] { EmptyStops(s); }
    }
  }

  lemma EmptyStops<T>(s: State<T>)
    requires FillOk(s.core, s.tailBlock, s.next, s.call) && s.call.fill.Filling? && s.call.xs == []
    ensures s.core.bs > 0 && StopAt(s, s.call.fill.i) == s.core.tailIndex
  {}

  // ---- rolling back

  /** The rollback gives back its own blocks, each once: the block it has come to is in use for this call, no
      index entry leads to it any more, and after the step it is the pool's. */
  lemma GivesBackOwnBlock<T>(s0: State<T>, capacity: nat, schedule: seq<Action<T>>, ok: bool, full: bool, block: nat)
    requires Init(s0, capacity) && CarefulRun(s0, schedule)
    requires Run(s0, schedule).core.prod.Return? && Run(s0, schedule).call.at.To?
    ensures var s := Run(s0, schedule);
      var b, k := s.call.at.block, s.core.committed + s.core.prod.j;
      && b < |s.core.place| && k < |s.core.uses| && s.core.uses[k].block == b
      && s.core.place[b] == InUse(k) && !s.core.uses[k].live
      && var s' := Step(s, Go(ok, full, block)); b < |s'.core.place| && s'.core.place[b] == Pool
  {
    hide ImplicitIndex.Inv, CellsOk, Linkage, ProducerStep, Sound;
    var s := Run(s0, schedule);
    ReachableInv(s0, capacity, schedule);
    CallBlocks(s.core);
    TentativeIsKept(s.core, s.core.committed + s.core.prod.j);
    Unlinks(s.core, s.core.committed + s.core.prod.j);
  }

  lemma Unlinks(c: ImplicitIndex.State, k: nat)
    requires ImplicitIndex.Inv(c) && c.prod.Return? && c.committed <= k < |c.uses|
    ensures !c.uses[k].live
  {
    hide IndexInv, LiveInv, ValueInv, OldInv, InsertInv, ZeroInv, JunkInv, ConsAll, StageOk, CountInv;
  }

  /** The call for xs that started in s is not over, or has failed, or has succeeded. */
  ghost predicate Outcome<T>(s: State<T>, s': State<T>, xs: seq<T>) {
    s'.call.xs == xs && (s'.items == s.items || (s'.core.prod == Ready && s'.items == s.items + xs))
  }

  lemma OutcomeStep<T>(s: State<T>, s': State<T>, xs: seq<T>, a: Action<T>)
    requires Outcome(s, s', xs) && !a.Insert?
    ensures Outcome(s, Step(s', a), xs)
  {
    hide Sound, ProducerStep, ConsumerStep, ImplicitIndex.Step, StopAt, LinksNow;
    if a.Go? && Sound(s'.core) {
      if s'.core.prod == Ready { ReadyStays(s'.core, a.ok, a.full, a.block); }
      if s'.core.prod == Publish { PublishStep(s'.core, a.ok, a.full, a.block); }
    }
    if a.Others? && (a.a.Claim? || a.a.Consume?) { ConsumerStepSame(s'.core, a.a); }
  }

  lemma PublishStep(c: ImplicitIndex.State, ok: bool, full: bool, block: nat)
    requires Sound(c) && c.prod == Publish
    ensures ProducerStep(c, ok, full, block).prod == Ready
  {}

  lemma {:induction false} OutcomeRun<T>(s: State<T>, s': State<T>, xs: seq<T>, schedule: seq<Action<T>>)
    requires Outcome(s, s', xs) && forall a :: a in schedule ==> !a.Insert?
    ensures Outcome(s, Run(s', schedule), xs)
    decreases |schedule|
  {
    hide Outcome, Step;
    if schedule != [] {
      OutcomeStep(s, s', xs, schedule[0]);
      OutcomeRun(s, Step(s', schedule[0]), xs, schedule[1..]);
    }
  }

  lemma NoEnqueue<T>(schedule: seq<Action<T>>, core: seq<ImplicitIndex.Action>)
    requires (forall a :: a in schedule ==> !a.Insert?) && forall a :: a in core ==> From(schedule, a)
    ensures forall a :: a in core ==> !IsEnqueue(a)
  {}

  /** An insertion is all or nothing, as the producer's own pointers have it: when it is over, either its
      elements have been appended, in exactly as many blocks as they need, with the last of these as the tail
      block; or the sub-queue has the same elements, blocks and tail block as before.  Either way the index
      leads to exactly the live blocks, and no other block is kept.  With an index present, it is the former
      exactly if nothing it asked for was refused. */
  lemma InsertAllOrNothing<T>(s0: State<T>, capacity: nat, before: seq<Action<T>>, xs: seq<T>, single: bool,
                              during: seq<Action<T>>)
    requires Init(s0, capacity) && Run(s0, before).core.prod == Ready && (single ==> |xs| == 1)
    requires CarefulRun(s0, before) && CarefulRun(Step(Run(s0, before), Insert(xs, single)), during)
    requires forall a :: a in during ==> !a.Insert?
    requires Run(Step(Run(s0, before), Insert(xs, single)), during).core.prod == Ready
    ensures var s := Run(s0, before);
      var s' := Run(Step(s, Insert(xs, single)), during);
      && s.core.bs > 0 && |s.items| == s.core.tailIndex && |s'.items| == s'.core.tailIndex
      && |s.core.uses| <= |s'.core.uses|
      && (forall k :: 0 <= k < |s.core.uses| ==> s'.core.uses[k].block == s.core.uses[k].block)
      && (|| (s'.items == s.items + xs && |s'.core.uses| == Ceil(|s'.items|, s.core.bs)
              && (|s'.core.uses| > 0 ==> s'.tailBlock == To(s'.core.uses[|s'.core.uses| - 1].block)))
          || (s'.items == s.items && |s'.core.uses| == |s.core.uses| && s'.tailBlock == s.tailBlock))
      && Exactly(s'.core)
      && (s.core.headers != [] ==>
            s'.items == s.items + if RefusedIn(Step(s, Insert(xs, single)), during) then [] else xs)
  {
    hide Inv, Step, Exactly, Init, Outcome, RefusedIn;
    hide ImplicitIndex.Inv, ImplicitIndex.Step, ImplicitIndex.Init, ImplicitIndex.RefusedIn;
    var s, s1 := Run(s0, before), Step(Run(s0, before), Insert(xs, single));
    var s' := Run(s1, during);
    StartInv(s0, capacity);
    ReachableInv(s0, capacity, before);
    StepKeeps(s, Insert(xs, single));
    RunKeeps(s1, during);
    var cb := RunsAlike(s0, before);
    var cd := RunsAlike(s1, during);
    NoEnqueue(during, cd);
    InsertCore(s, xs, single);
    StartCore(s0, capacity);
    EnqueueAllOrNothing(s0.core, capacity, cb, |xs|, cd);
    if s.core.headers != [] {
      SucceedsUnlessRefused(s0.core, capacity, cb, |xs|, cd);
    }
    OutcomeRun(s, s1, xs, during);
    BetweenCalls(s);
    BetweenCalls(s');
    Conclude(s, s', xs);
  }

  lemma StartCore<T>(s0: State<T>, capacity: nat)
    requires Init(s0, capacity)
    ensures ImplicitIndex.Init(s0.core, capacity)
  {}

  lemma InsertCore<T>(s: State<T>, xs: seq<T>, single: bool)
    requires Inv(s) && s.core.prod == Ready && (single ==> |xs| == 1)
    ensures var s1 := Step(s, Insert(xs, single));
      s1.core == ImplicitIndex.Step(s.core, ImplicitIndex.Enqueue(|xs|)) && Outcome(s, s1, xs)
  {
    hide ImplicitIndex.Inv, ImplicitIndex.Step;
  }

  lemma BetweenCalls<T>(s: State<T>)
    requires Inv(s) && s.core.prod == Ready
    ensures |s.items| == s.core.tailIndex && s.core.bs > 0
    ensures s.tailBlock == if |s.core.uses| > 0 then To(s.core.uses[|s.core.uses| - 1].block) else NoBlock
  {
    hide ImplicitIndex.Inv;
  }

  lemma Conclude<T>(s: State<T>, s': State<T>, xs: seq<T>)
    requires Outcome(s, s', xs) && |s.items| == s.core.tailIndex && |s'.items| == s'.core.tailIndex
    ensures s'.core.tailIndex == s.core.tailIndex ==> s'.items == s.items
    ensures s'.core.tailIndex == s.core.tailIndex + |xs| ==> s'.items == s.items + xs
    ensures xs == [] ==> s.items + xs == s.items
  {}

  // ---- the elements

  /** A consumer about to read finds, in the block its lookup led to, exactly the elements of its indices. */
  lemma ReadsItsElements<T>(s0: State<T>, capacity: nat, schedule: seq<Action<T>>, u: nat, x: nat)
    requires Init(s0, capacity) && CarefulRun(s0, schedule)
    requires u < |Run(s0, schedule).core.cons| && Run(s0, schedule).core.cons[u].Reading?
    requires Run(s0, schedule).core.bs > 0
    requires var s := Run(s0, schedule);
      var pc := s.core.cons[u]; pc.i <= x < pc.i + InBlock(pc.i, pc.n, s.core.bs)
    ensures var s := Run(s0, schedule);
      var b := s.core.cons[u].block;
      && x < |s.items| && b < |s.cells| && x % s.core.bs < |s.cells[b]|
      && s.cells[b][x % s.core.bs] == Full(s.items[x])
  {
    hide Inv, Init;
    ReachableInv(s0, capacity, schedule);
    ReadsIn(Run(s0, schedule), u, x);
  }

  lemma ReadsIn<T>(s: State<T>, u: nat, x: nat)
    requires Inv(s) && u < |s.core.cons| && s.core.cons[u].Reading? && s.core.bs > 0
    requires var pc := s.core.cons[u]; pc.i <= x < pc.i + InBlock(pc.i, pc.n, s.core.bs)
    ensures var b := s.core.cons[u].block;
      && x < |s.items| && b < |s.cells| && |s.cells[b]| == s.core.bs
      && s.cells[b][x % s.core.bs] == Full(s.items[x])
  {
    hide ImplicitIndex.Inv, CallOk, CellsOk, InBlock;
    var c, pc := s.core, s.core.cons[u];
    RunInBlock(pc.i, pc.n, c.bs, x);
    ReadingBlock(c, u);
    WrittenUpTo(s);
    CellIsThere(s, x);
  }

  lemma CellIsThere<T>(s: State<T>, x: nat)
    requires CellsOk(s) && Shapes(s) && x < s.core.tailIndex <= Bound(s) && s.core.bs > 0
    requires InPlace(s.core.place, Blocks(s.core.uses), x / s.core.bs)
    ensures x < |s.items| && CellAt(s.core.bs, Blocks(s.core.uses), s.cells, s.items[x], x)
  {
    assert (s.items + s.call.xs)[x] == s.items[x];
  }

  lemma RunInBlock(i: nat, n: nat, b: nat, x: nat)
    requires b > 0 && i <= x < i + InBlock(i, n, b)
    ensures x / b == i / b && x < i + n
  {
    SameBlock(i, x, i + InBlock(i, n, b), b);
  }

  lemma WrittenUpTo<T>(s: State<T>)
    requires CallOk(s)
    ensures Bound(s) >= s.core.tailIndex
  {}

  lemma ReadingBlock(c: ImplicitIndex.State, u: nat)
    requires ImplicitIndex.Inv(c) && u < |c.cons| && c.cons[u].Reading? && c.cons[u].n > 0 && c.bs > 0
    ensures var pc := c.cons[u];
      var k := pc.i / c.bs;
      && k < |c.uses| && pc.block == c.uses[k].block < |c.place| && c.place[pc.block] == InUse(k)
      && pc.i + pc.n <= c.tailIndex
  {
    hide IndexInv, LiveInv, ValueInv, OldInv, TentativeInv, InsertInv, ZeroInv, JunkInv, StageOk, TailInv;
    MarkRoom(c, u);
  }
}
