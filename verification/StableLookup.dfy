/** Consumers looking up blocks in an explicit producer's circular block index while the producer keeps
    enqueueing, reusing emptied blocks and doubling the index, as a step machine.

    One step is one atomic operation.  The producer runs enqueue and enqueue_bulk (allocation succeeds and
    constructors do not throw); each consumer has claimed a range of indices (module Tickets) and then
    loads the index header, its front, the base stored there, and the entries, reads its elements and marks
    their slots empty.

    The ring of blocks and the slots in use are a window on `blk`, the blocks in the order in which the
    producer put them to use: block number k of that order holds the indices from k * bs on.  The ring is
    blk[|blk| - used..], oldest first.  The fields `blk`, `items`, `origin`, `newest` and a consumer's
    `ord` are bookkeeping that no step decides on, except that `used` and the oldest ring block come from
    the window. */
module StableLookup {
  import opened Arith
  import opened Wrappers

  datatype Entry = Entry(base: int, block: nat)

  /** A block index.  Block number k goes to slot (k - origin) mod size; `newest` is the number of the
      block that `front` points at. */
  datatype Header = Header(size: nat, front: int, entries: seq<Entry>, origin: int, newest: int)

  datatype Consumer<T> =
    | Idle
    | Claimed(first: nat, end: nat)
    | GotHeader(first: nat, end: nat, h: nat)
    | GotFront(first: nat, end: nat, h: nat, f: int, ord: int)
    | GotBase(first: nat, end: nat, h: nat, f: int, base: int, ord: int)
    | AtSlot(first: nat, at: nat, end: nat, h: nat, slot: int, got: seq<T>)
    | Reading(first: nat, start: nat, at: nat, end: nat, h: nat, slot: int, block: nat, got: seq<T>)
    | Emptying(first: nat, at: nat, stop: nat, end: nat, h: nat, slot: int, block: nat, got: seq<T>)
    | Done(first: nat, end: nat, got: seq<T>)

  /** Where the producer is: `left` blocks are still to be prepared, `orig` slots were in use when the
      call began, and once a block has been appended none is reused. */
  datatype Producer<T> =
    | PIdle
    | PPrep(xs: seq<T>, left: nat, orig: nat, appending: bool)
    | PBase(xs: seq<T>, left: nat, orig: nat, appending: bool)
    | PBlock(xs: seq<T>, left: nat, orig: nat, appending: bool)
    | PFront(xs: seq<T>)
    | PWrite(xs: seq<T>)
    | PTail

  datatype State<T> = State(
    bs: nat,                      // block size
    headers: seq<Header>,         // the last one is the current index
    cells: seq<seq<Cell<T>>>,     // per block
    flags: seq<seq<bool>>,        // per block: slot emptied
    used: nat, prFront: int,
    head: nat, tail: nat,
    prod: Producer<T>, cons: seq<Consumer<T>>,
    blk: seq<nat>, items: seq<T>)

  datatype Action<T> =
    | Enqueue(xs: seq<T>)
    | Produce(reuse: bool)        // whether the block ahead was seen to be empty
    | Claim(u: nat, n: nat)       // a consumer's fetch_add of the head
    | Consume(u: nat)
    | Return(u: nat)

  function Slot(h: Header, k: int): int
    requires h.size > 0
  {
    (k - h.origin) % h.size
  }

  function Cur<T>(s: State<T>): nat
    requires s.headers != []
  {
    |s.headers| - 1
  }

  function CurHeader<T>(s: State<T>): Header
    requires s.headers != []
  {
    s.headers[|s.headers| - 1]
  }

  function SetEntry<T>(s: State<T>, slot: int, e: Entry): State<T>
    requires s.headers != [] && 0 <= slot < |CurHeader(s).entries|
  {
    s.(headers := s.headers[Cur(s) := CurHeader(s).(entries := CurHeader(s).entries[slot := e])])
  }

  /** Every slot of the block has been emptied. */
  predicate BlockEmpty(flags: seq<bool>) { forall j :: 0 <= j < |flags| ==> flags[j] }

  // ---------------------------------------------------------------- the producer

  /** What the producer's local state and the shapes of the arrays must be for its step to be defined. */
  predicate ProducerOk<T>(s: State<T>) {
    && s.bs > 0 && s.headers != [] && CurHeader(s).size > 0 && |CurHeader(s).entries| == CurHeader(s).size
    && s.used <= |s.blk| && 0 <= s.prFront < CurHeader(s).size && |s.flags| == |s.cells|
    && (forall k :: |s.blk| - s.used <= k < |s.blk| ==> s.blk[k] < |s.cells|)
    && (s.prod.PBase? || s.prod.PBlock? ==> s.used > 0)
    && (s.prod.PWrite? && s.prod.xs != [] ==>
          var k := |s.items| / s.bs;
          |s.blk| - s.used <= k < |s.blk| && |s.cells[s.blk[k]]| == s.bs)
  }

  /** The copy made by new_block_index: the slots in use, oldest first. */
  function Copied<T>(s: State<T>): seq<Entry>
    requires ProducerOk(s)
  {
    var h := CurHeader(s);
    seq(2 * h.size, j requires 0 <= j =>
      if j < s.used then h.entries[(s.prFront - s.used + j) % h.size] else Entry(0, 0))
  }

  function Grow<T>(s: State<T>, orig: nat): State<T>
    requires ProducerOk(s)
  {
    var h := Header(2 * CurHeader(s).size, orig - 1, Copied(s), |s.blk| - s.used,
                    |s.blk| - s.used + orig - 1);
    s.(headers := s.headers + [h], prFront := s.used)
  }

  /** Blocks put to use by the running call. */
  function Fresh<T>(s: State<T>): int
    requires s.bs > 0
  {
    |s.blk| - Ceil(s.tail, s.bs)
  }

  predicate CanReuse<T>(s: State<T>)
    requires ProducerOk(s)
  {
    && s.used > 0 && Fresh(s) < s.used
    && BlockEmpty(s.flags[s.blk[|s.blk| - s.used]])
  }

  /** The oldest ring block becomes the newest.  (enqueue_bulk resets the flags of all its blocks after the
      last one is prepared; until then nobody looks at them or sets them.) */
  function Reuse<T>(s: State<T>): State<T>
    requires ProducerOk(s) && CanReuse(s)
  {
    var b := s.blk[|s.blk| - s.used];
    s.(blk := s.blk + [b], flags := s.flags[b := seq(s.bs, _ => false)])
  }

  function Append<T>(s: State<T>): State<T> {
    s.(blk := s.blk + [|s.cells|], used := s.used + 1,
       cells := s.cells + [seq(s.bs, _ => Junk)], flags := s.flags + [seq(s.bs, _ => false)])
  }

  function ProducerStep<T>(s: State<T>, reuse: bool): State<T>
    requires ProducerOk(s)
  {
    match s.prod
    case PIdle => s
    case PPrep(xs, left, orig, appending) =>
      if left == 0 then
        s.(prod := if Fresh(s) > 0 then PFront(xs) else PWrite(xs))
      else if reuse && !appending then
        if CanReuse(s) then Reuse(s).(prod := PBase(xs, left, orig, false)) else s
      else if s.used == CurHeader(s).size then Grow(s, orig).(prod := PPrep(xs, left, orig, true))
      else Append(s).(prod := PBase(xs, left, orig, true))
    case PBase(xs, left, orig, appending) =>
      var e := CurHeader(s).entries[s.prFront];
      SetEntry(s, s.prFront, e.(base := (|s.blk| - 1) * s.bs)).(prod := PBlock(xs, left, orig, appending))
    case PBlock(xs, left, orig, appending) =>
      var e := CurHeader(s).entries[s.prFront];
      SetEntry(s, s.prFront, e.(block := s.blk[|s.blk| - 1]))
        .(prFront := (s.prFront + 1) % CurHeader(s).size,
          prod := PPrep(xs, if left > 0 then left - 1 else 0, orig, appending))
    case PFront(xs) =>
      var h := CurHeader(s);
      s.(headers := s.headers[Cur(s) := h.(front := (s.prFront - 1) % h.size, newest := |s.blk| - 1)],
         prod := PWrite(xs))
    case PWrite(xs) =>
      if xs == [] then s.(prod := PTail)
      else
        var b, j := s.blk[|s.items| / s.bs], |s.items| % s.bs;
        s.(cells := s.cells[b := s.cells[b][j := Full(xs[0])]], items := s.items + [xs[0]],
           prod := PWrite(xs[1..]))
    case PTail => s.(tail := |s.items|, prod := PIdle)
  }

  // ---------------------------------------------------------------- consumers

  function Stop(start: nat, end: nat, b: nat): nat
    requires b > 0
  {
    var boundary := (start / b + 1) * b;
    if end < boundary then end else boundary
  }

  predicate ConsumerOk<T>(s: State<T>, pc: Consumer<T>) {
    && s.bs > 0 && s.headers != []
    && (pc.GotHeader? ==> pc.h < |s.headers|)
    && (pc.GotFront? ==> pc.h < |s.headers| && 0 <= pc.f < |s.headers[pc.h].entries|)
    && (pc.GotBase? ==> pc.h < |s.headers| && s.headers[pc.h].size > 0)
    && (pc.AtSlot? ==> pc.h < |s.headers| && 0 <= pc.slot < |s.headers[pc.h].entries|)
    && (pc.Reading? && pc.at < Stop(pc.start, pc.end, s.bs) ==>
          && pc.block < |s.cells| && |s.cells[pc.block]| == s.bs
          && s.cells[pc.block][pc.at % s.bs].Full?)
    && (pc.Emptying? ==>
          && pc.h < |s.headers| && s.headers[pc.h].size > 0
          && (pc.at < pc.stop ==> pc.block < |s.flags| && |s.flags[pc.block]| == s.bs))
  }

  /** The consumer's locals after its step. */
  function Moved<T>(s: State<T>, pc: Consumer<T>): Consumer<T>
    requires ConsumerOk(s, pc)
  {
    match pc
    case Idle => pc
    case Claimed(first, end) => GotHeader(first, end, Cur(s))
    case GotHeader(first, end, h) => GotFront(first, end, h, s.headers[h].front, s.headers[h].newest)
    case GotFront(first, end, h, f, ord) => GotBase(first, end, h, f, s.headers[h].entries[f].base, ord)
    case GotBase(first, end, h, f, base, _) =>
      var offset := ((first / s.bs) * s.bs - base) / s.bs;
      AtSlot(first, first, end, h, (f + offset) % s.headers[h].size, [])
    case AtSlot(first, at, end, h, slot, got) =>
      Reading(first, at, at, end, h, slot, s.headers[h].entries[slot].block, got)
    case Reading(first, start, at, end, h, slot, block, got) =>
      if at < Stop(start, end, s.bs) then
        Reading(first, start, at + 1, end, h, slot, block, got + [s.cells[block][at % s.bs].x])
      else Emptying(first, start, at, end, h, slot, block, got)
    case Emptying(first, at, stop, end, h, slot, block, got) =>
      if at < stop then Emptying(first, at + 1, stop, end, h, slot, block, got)
      else if stop < end then AtSlot(first, stop, end, h, (slot + 1) % s.headers[h].size, got)
      else Done(first, end, got)
    case Done(_, _, _) => pc
  }

  /** The only shared words a consumer writes here are the flags of its own slots. */
  function ConsumerStep<T>(s: State<T>, u: nat): State<T>
    requires u < |s.cons| && ConsumerOk(s, s.cons[u])
  {
    var s1 := s.(cons := s.cons[u := Moved(s, s.cons[u])]);
    match s.cons[u]
    case Emptying(_, at, stop, _, _, _, block, _) =>
      if at < stop then s1.(flags := s.flags[block := s.flags[block][at % s.bs := true]]) else s1
    case _ => s1
  }

  /** One step of the system.  A claim takes indices below the tail only, and is made only when something has
      been published, as module ExplicitDequeue establishes; it may be of no index at all. */
  function Step<T>(s: State<T>, a: Action<T>): State<T> {
    match a
    case Enqueue(xs) =>
      if s.bs > 0 && s.prod == PIdle && Ceil(|s.items| + |xs|, s.bs) >= |s.blk| then
        s.(prod := PPrep(xs, Ceil(|s.items| + |xs|, s.bs) - |s.blk|, s.used, false))
      else s
    case Produce(reuse) => if ProducerOk(s) then ProducerStep(s, reuse) else s
    case Claim(u, n) =>
      if u < |s.cons| && s.cons[u] == Idle && 0 < s.tail && s.head + n <= s.tail then
        s.(head := s.head + n, cons := s.cons[u := Claimed(s.head, s.head + n)])
      else s
    case Consume(u) => if u < |s.cons| && ConsumerOk(s, s.cons[u]) then ConsumerStep(s, u) else s
    case Return(u) =>
      if u < |s.cons| && s.cons[u].Done? then s.(cons := s.cons[u := Idle]) else s
  }

  function Run<T>(s: State<T>, schedule: seq<Action<T>>): State<T>
    decreases |schedule|
  {
    if schedule == [] then s else Run(Step(s, schedule[0]), schedule[1..])
  }

  /** A new producer: an empty index of some size, no block yet. */
  ghost predicate Init<T>(s: State<T>, size: nat) {
    && s.bs > 1 && size > 0
    && s.headers == [Header(size, -1, seq(size, _ => Entry(0, 0)), 0, -1)]
    && s.cells == [] && s.flags == [] && s.used == 0 && s.prFront == 0 && s.head == 0 && s.tail == 0
    && s.prod == PIdle && s.blk == [] && s.items == []
    && (forall u :: 0 <= u < |s.cons| ==> s.cons[u] == Idle)
  }

  // ---------------------------------------------------------------- the invariant

  /** Number of the oldest block in the ring. */
  function Oldest<T>(s: State<T>): int { |s.blk| - s.used }

  /** How many blocks have their index entry written. */
  function Indexed<T>(s: State<T>): int {
    if s.prod.PBase? || s.prod.PBlock? then |s.blk| - 1 else |s.blk|
  }

  /** Block number k is found at its slot. */
  predicate Has(b: nat, blk: seq<nat>, h: Header, k: int) {
    && 0 <= k < |blk| && h.size > 0 && Slot(h, k) < |h.entries|
    && h.entries[Slot(h, k)] == Entry(k * b, blk[k])
  }

  predicate HasAll(b: nat, blk: seq<nat>, h: Header, lo: int, hi: int) {
    forall k {:trigger Has(b, blk, h, k)} :: lo <= k <= hi ==> Has(b, blk, h, k)
  }

  /** The current index: the ring's blocks at consecutive slots, ending before `prFront`. */
  ghost predicate IndexInv<T>(s: State<T>) {
    && s.bs > 1 && s.headers != []
    && var h := CurHeader(s);
    && h.size > 0 && |h.entries| == h.size
    && 0 <= s.used <= h.size && s.used <= |s.blk|
    && s.prFront == Slot(h, Indexed(s))
    && HasAll(s.bs, s.blk, h, Oldest(s), Indexed(s) - 1)
    && Ceil(s.tail, s.bs) - 1 <= h.newest < Indexed(s)
    && (h.newest >= Oldest(s) ==> h.front == Slot(h, h.newest))
    && (s.prod.PBlock? ==> h.entries[s.prFront].base == (|s.blk| - 1) * s.bs)
  }

  /** The ring's blocks are distinct. */
  ghost predicate RingOk(blk: seq<nat>, used: nat, blocks: nat) {
    && used <= |blk| && (|blk| > 0 ==> used > 0)
    && (forall k :: |blk| - used <= k < |blk| ==> blk[k] < blocks)
    && (forall k, m :: |blk| - used <= k < m < |blk| ==> blk[k] != blk[m])
  }

  ghost predicate Sized<X>(rows: seq<seq<X>>, b: nat) { forall r :: 0 <= r < |rows| ==> |rows[r]| == b }

  ghost predicate BlocksInv<T>(s: State<T>) {
    && RingOk(s.blk, s.used, |s.cells|) && |s.flags| == |s.cells|
    && Sized(s.cells, s.bs) && Sized(s.flags, s.bs)
  }

  /** The producer's counts. */
  ghost predicate ProducerInv<T>(s: State<T>) {
    && s.bs > 1 && s.head <= s.tail <= |s.items|
    && (s.prod.PIdle? ==> s.tail == |s.items| && |s.blk| == Ceil(|s.items|, s.bs))
    && (s.prod.PPrep? ==>
          && s.tail == |s.items| && |s.blk| + s.prod.left == Ceil(|s.items| + |s.prod.xs|, s.bs)
          && s.prod.orig <= s.used && s.used - s.prod.orig <= Fresh(s))
    && (s.prod.PBase? || s.prod.PBlock? ==>
          && s.tail == |s.items| && s.prod.left > 0 && s.used > 0
          && |s.blk| - 1 + s.prod.left == Ceil(|s.items| + |s.prod.xs|, s.bs)
          && s.prod.orig <= s.used && s.used - s.prod.orig <= Fresh(s)
          && Fresh(s) > 0)
    && (s.prod.PFront? ==> |s.blk| > 0 && s.tail == |s.items| && |s.blk| == Ceil(|s.items| + |s.prod.xs|, s.bs))
    && (s.prod.PWrite? ==> |s.blk| == Ceil(|s.items| + |s.prod.xs|, s.bs))
    && (s.prod.PTail? ==> |s.blk| == Ceil(|s.items|, s.bs))
    && (s.prod.PWrite? || s.prod.PTail? ==> CurNewest(s) == |s.blk| - 1)
    && Ceil(s.tail, s.bs) <= |s.blk|
  }

  function CurNewest<T>(s: State<T>): int { if s.headers == [] then -1 else CurHeader(s).newest }

  /** Indices a consumer has claimed and not emptied: lo <= i < hi. */
  function LiveLo<T>(pc: Consumer<T>): int {
    match pc
    case Idle => 0
    case Claimed(first, _) => first
    case GotHeader(first, _, _) => first
    case GotFront(first, _, _, _, _) => first
    case GotBase(first, _, _, _, _, _) => first
    case AtSlot(_, at, _, _, _, _) => at
    case Reading(_, start, _, _, _, _, _, _) => start
    case Emptying(_, at, _, _, _, _, _, _) => at
    case Done(_, _, _) => 0
  }

  function LiveHi<T>(pc: Consumer<T>): int { if pc.Idle? || pc.Done? then 0 else pc.end }

  /** The call asked for no elements. */
  predicate AsksNothing<T>(pc: Consumer<T>) { !pc.Idle? && !pc.Done? && pc.first == pc.end }

  predicate Live<T>(pc: Consumer<T>, i: int) { LiveLo(pc) <= i < LiveHi(pc) }

  predicate Found<T>(s: State<T>, h: Header, lo: int, hi: int)
    requires s.bs > 0
  {
    lo < hi ==> HasAll(s.bs, s.blk, h, lo / s.bs, (hi - 1) / s.bs)
  }

  predicate AtFront<T>(s: State<T>, h: nat, f: int, ord: int)
  {
    && h < |s.headers| && Has(s.bs, s.blk, s.headers[h], ord) && f == Slot(s.headers[h], ord)
    && (h == |s.headers| - 1 ==> ord <= CurNewest(s))
  }

  predicate SlotOf<T>(s: State<T>, h: nat, slot: int, ord: int) {
    h < |s.headers| && s.headers[h].size > 0 && slot == Slot(s.headers[h], ord)
  }

  /** Everything up to index `end` lies in blocks up to number `ord`, and from `lo` on header h shows it. */
  ghost predicate Loaded<T>(s: State<T>, h: nat, lo: int, end: int)
    requires s.bs > 0
  {
    h < |s.headers| && Found(s, s.headers[h], lo, end)
  }

  /** What a consumer has loaded leads to its first block. */
  ghost predicate LookupInv<T>(s: State<T>, pc: Consumer<T>)
    requires s.bs > 0
  {
    match pc
    case Claimed(first, end) => first < end
    case GotHeader(first, end, h) =>
      && first < end && Loaded(s, h, first, end) && (end - 1) / s.bs <= s.headers[h].newest
      && AtFront(s, h, s.headers[h].front, s.headers[h].newest)
    case GotFront(first, end, h, f, ord) =>
      first < end && Loaded(s, h, first, end) && (end - 1) / s.bs <= ord && AtFront(s, h, f, ord)
    case GotBase(first, end, h, f, base, ord) =>
      && first < end && Loaded(s, h, first, end) && (end - 1) / s.bs <= ord && AtFront(s, h, f, ord)
      && base == ord * s.bs
    case _ => true
  }

  predicate InBlock<T>(s: State<T>, block: nat, ord: int) { 0 <= ord < |s.blk| && block == s.blk[ord] }

  ghost predicate Slice<T>(s: State<T>, got: seq<T>, first: nat, at: nat) {
    first <= at <= |s.items| && got == s.items[first..at]
  }

  /** The consumer is at the right slot, and what it has read is what was enqueued. */
  ghost predicate ReadInv<T>(s: State<T>, pc: Consumer<T>)
    requires s.bs > 0
  {
    match pc
    case AtSlot(first, at, end, h, slot, got) =>
      at < end && Loaded(s, h, at, end) && SlotOf(s, h, slot, at / s.bs) && Slice(s, got, first, at)
    case Reading(first, start, at, end, h, slot, block, got) =>
      && first <= start <= at <= Stop(start, end, s.bs) && start < end && Loaded(s, h, start, end)
      && SlotOf(s, h, slot, start / s.bs) && InBlock(s, block, start / s.bs) && Slice(s, got, first, at)
    case Emptying(first, at, stop, end, h, slot, block, got) =>
      && first <= at <= stop <= end && first < stop && (stop == end || stop % s.bs == 0)
      && (at < stop ==> at / s.bs == (stop - 1) / s.bs) && Loaded(s, h, at, end)
      && SlotOf(s, h, slot, (stop - 1) / s.bs) && InBlock(s, block, (stop - 1) / s.bs)
      && Slice(s, got, first, stop)
    case Done(first, end, got) => end <= s.head && Slice(s, got, first, end)
    case _ => true
  }

  ghost predicate ConsInv<T>(s: State<T>, pc: Consumer<T>) {
    && s.bs > 1 && LiveLo(pc) <= LiveHi(pc) <= s.head <= |s.items|
    && (AsksNothing(pc) || (LookupInv(s, pc) && ReadInv(s, pc)))
  }

  /** A set flag belongs to an index that was claimed and that no consumer still has to empty. */
  predicate FlagFree<T>(s: State<T>, i: int) {
    i < s.head && forall u :: 0 <= u < |s.cons| ==> !Live(s.cons[u], i)
  }

  predicate FlagAt<T>(s: State<T>, k: int, j: int) {
    && 0 <= k < |s.blk| && s.blk[k] < |s.flags| && 0 <= j < |s.flags[s.blk[k]]|
    && s.flags[s.blk[k]][j]
  }

  ghost predicate FlagsInv<T>(s: State<T>) {
    && (forall k, j :: Oldest(s) <= k && FlagAt(s, k, j) ==> FlagFree(s, k * s.bs + j))
    && (forall u, v :: 0 <= u < |s.cons| && 0 <= v < |s.cons| && u != v ==> Separate(s.cons[u], s.cons[v]))
  }

  predicate Separate<T>(p: Consumer<T>, q: Consumer<T>) {
    LiveHi(p) <= LiveLo(q) || LiveHi(q) <= LiveLo(p)
  }

  /** Every index that is still to be read lies in the ring, in the block it was written to. */
  ghost predicate RingInv<T>(s: State<T>) {
    && s.bs > 1
    && (s.head < |s.blk| * s.bs ==> Oldest(s) <= s.head / s.bs)
    && (forall u :: 0 <= u < |s.cons| && LiveLo(s.cons[u]) < LiveHi(s.cons[u]) ==>
          Oldest(s) <= LiveLo(s.cons[u]) / s.bs)
  }

  /** Item i is in its block's slot. */
  ghost predicate CellOk<T>(b: nat, blk: seq<nat>, cells: seq<seq<Cell<T>>>, x: T, i: nat)
    requires b > 0
  {
    && i / b < |blk| && blk[i / b] < |cells| && i % b < |cells[blk[i / b]]|
    && cells[blk[i / b]][i % b] == Full(x)
  }

  ghost predicate CellsOk<T>(b: nat, blk: seq<nat>, oldest: int, cells: seq<seq<Cell<T>>>, items: seq<T>) {
    && b > 1
    && forall i {:trigger items[i]} ::
         0 <= i < |items| && oldest <= i / b ==> CellOk(b, blk, cells, items[i], i)
  }

  ghost predicate CellsInv<T>(s: State<T>) { CellsOk(s.bs, s.blk, Oldest(s), s.cells, s.items) }

  ghost predicate ConsumersInv<T>(s: State<T>) { forall u :: 0 <= u < |s.cons| ==> ConsInv(s, s.cons[u]) }

  /** A header that has been published has its front in range, and only the first may not have been. */
  ghost predicate FrontsInv<T>(s: State<T>) {
    && (forall x {:trigger s.headers[x]} :: 0 <= x < |s.headers| ==>
          && s.headers[x].size > 0 && |s.headers[x].entries| == s.headers[x].size
          && (s.headers[x].newest >= 0 ==> 0 <= s.headers[x].front < s.headers[x].size))
    && (s.prod.PPrep? || s.prod.PBase? || s.prod.PBlock? ==>
          s.prod.orig <= s.used && (s.prod.orig == 0 ==> s.used == |s.blk|))
    && (|s.blk| > 0 ==> s.used > 0)
  }

  /** What a call that asked for nothing has loaded is in range; it reads and marks nothing. */
  predicate HollowOk<T>(headers: seq<Header>, tail: nat, pc: Consumer<T>) {
    AsksNothing(pc) ==>
      match pc
      case Claimed(_, _) => tail > 0
      case GotHeader(_, _, h) => h < |headers| && headers[h].newest >= 0
      case GotFront(_, _, h, f, _) => h < |headers| && 0 <= f < |headers[h].entries|
      case GotBase(_, _, h, _, _, _) => h < |headers|
      case AtSlot(_, at, end, h, slot, got) =>
        h < |headers| && 0 <= slot < |headers[h].entries| && at == end && got == []
      case Reading(_, start, at, end, h, _, _, got) => h < |headers| && start == at == end && got == []
      case Emptying(_, at, stop, end, h, _, _, got) => h < |headers| && at == stop == end && got == []
      case _ => true
  }

  ghost predicate HollowsInv<T>(s: State<T>) {
    forall u :: 0 <= u < |s.cons| ==> HollowOk(s.headers, s.tail, s.cons[u])
  }

  ghost predicate Inv<T>(s: State<T>) {
    && IndexInv(s) && BlocksInv(s) && ProducerInv(s) && FlagsInv(s) && RingInv(s) && CellsInv(s)
    && ConsumersInv(s)
  }

  // ---------------------------------------------------------------- block arithmetic

  lemma CeilBounds(i: int, b: int)
    requires b > 0
    ensures i <= Ceil(i, b) * b < i + b
    ensures i >= 0 ==> Ceil(i, b) >= 0
  {}

  /** The block of index i is below the number of blocks that i + 1 indices need. */
  lemma OrdBelowCeil(i: int, n: int, b: int)
    requires b > 0 && i < n
    ensures i / b < Ceil(n, b)
  {}

  lemma OrdBelow(i: int, k: int, b: int)
    requires b > 0 && i < k * b
    ensures i / b < k
  {}

  /** Adding d to a slot moves d blocks on. */
  lemma SlotStep(h: Header, k: int, d: int)
    requires h.size > 0
    ensures (Slot(h, k) + d) % h.size == Slot(h, k + d)
  {
    ModAdd(k - h.origin, d, h.size);
  }

  // ---------------------------------------------------------------- consumer steps

  lemma {:induction false} StopBounds(start: nat, end: nat, b: nat)
    requires b > 0 && start < end
    ensures start < Stop(start, end, b) <= end
    ensures (Stop(start, end, b) - 1) / b == start / b
    ensures Stop(start, end, b) == end || Stop(start, end, b) % b == 0
    ensures start / b * b <= start
    ensures forall i :: start <= i < Stop(start, end, b) ==> i / b == start / b
  {
    var q := start / b;
    DivExact(q + 1, b);
    forall i | start <= i < Stop(start, end, b) ensures i / b == q { DivUnique(i, b, q); }
  }

  /** A claimed range lies in blocks that the current index shows. */
  lemma ClaimedIsIndexed<T>(s: State<T>, first: nat, end: nat)
    requires IndexInv(s) && ProducerInv(s) && first < end <= s.head && Oldest(s) <= first / s.bs
    ensures Found(s, CurHeader(s), first, end)
    ensures (end - 1) / s.bs <= CurHeader(s).newest
    ensures AtFront(s, Cur(s), CurHeader(s).front, CurHeader(s).newest)
  {
    OrdBelowCeil(end - 1, s.tail, s.bs);
    DivMono(first, end - 1, s.bs);
  }

  /** From the loaded front and base, the slot of the first claimed block. */
  lemma SlotFromBase(h: Header, f: int, ord: int, base: int, first: int, b: int)
    requires h.size > 0 && b > 0 && f == Slot(h, ord) && base == ord * b
    ensures (f + ((first / b) * b - base) / b) % h.size == Slot(h, first / b)
  {
    var k := first / b;
    assert k * b - ord * b == (k - ord) * b;
    DivExact(k - ord, b);
    SlotStep(h, ord, k - ord);
  }

  ghost predicate OwnReady<T>(s: State<T>, pc: Consumer<T>) {
    && ConsInv(s, pc) && !AsksNothing(pc)
    && (LiveLo(pc) < LiveHi(pc) ==> Oldest(s) <= LiveLo(pc) / s.bs)
  }

  /** The step keeps the consumer's invariant, and what it still has to empty. */
  ghost predicate MovedWell<T>(s: State<T>, pc: Consumer<T>) {
    && ConsumerOk(s, pc) && ConsInv(s, Moved(s, pc))
    && LiveHi(Moved(s, pc)) == LiveHi(pc) && LiveLo(Moved(s, pc)) == LiveLo(pc)
  }

  lemma MoveClaimed<T>(s: State<T>, pc: Consumer<T>)
    requires OwnReady(s, pc) && pc.Claimed? && IndexInv(s) && ProducerInv(s)
    ensures MovedWell(s, pc)
  {
    ClaimedIsIndexed(s, pc.first, pc.end);
  }

  lemma MoveHeader<T>(s: State<T>, pc: Consumer<T>)
    requires OwnReady(s, pc) && (pc.GotHeader? || pc.GotFront?)
    ensures MovedWell(s, pc)
  {}

  lemma MoveBase<T>(s: State<T>, pc: Consumer<T>)
    requires OwnReady(s, pc) && pc.GotBase?
    ensures MovedWell(s, pc)
  {
    SlotFromBase(s.headers[pc.h], pc.f, pc.ord, pc.base, pc.first, s.bs);
  }

  lemma MoveSlot<T>(s: State<T>, pc: Consumer<T>)
    requires OwnReady(s, pc) && pc.AtSlot?
    ensures MovedWell(s, pc)
  {
    DivMono(pc.at, pc.end - 1, s.bs);
    assert Has(s.bs, s.blk, s.headers[pc.h], pc.at / s.bs);
  }

  lemma MoveRead<T>(s: State<T>, pc: Consumer<T>)
    requires OwnReady(s, pc) && pc.Reading? && CellsInv(s) && BlocksInv(s)
    ensures MovedWell(s, pc)
  {
    StopBounds(pc.start, pc.end, s.bs);
    if pc.at < Stop(pc.start, pc.end, s.bs) {
      var x := s.items[pc.at];
      assert s.items[pc.first..pc.at + 1] == s.items[pc.first..pc.at] + [x];
    }
  }

  lemma BlockEnds(stop: int, b: int)
    requires b > 1 && stop > 0 && stop % b == 0
    ensures stop / b == (stop - 1) / b + 1
  {
    DivUnique(stop - 1, b, stop / b - 1);
  }

  /** What is still to be emptied loses indices at its low end only, or becomes nothing. */
  predicate Shrinks<T>(p: Consumer<T>, q: Consumer<T>) {
    || (LiveLo(p) <= LiveLo(q) && LiveHi(q) == LiveHi(p))
    || (LiveLo(q) == 0 && LiveHi(q) == 0)
  }

  /** Emptying a slot, or going on from a finished block. */
  lemma MoveEmpty<T>(s: State<T>, pc: Consumer<T>)
    requires OwnReady(s, pc) && pc.Emptying? && BlocksInv(s)
    ensures ConsumerOk(s, pc) && ConsInv(s, Moved(s, pc))
    ensures Shrinks(pc, Moved(s, pc))
    ensures pc.at < pc.stop ==> LiveLo(Moved(s, pc)) == pc.at + 1 && LiveHi(Moved(s, pc)) == pc.end
  {
    if pc.at < pc.stop {
      MoveEmptyOne(s, pc);
    } else if pc.stop < pc.end {
      BlockEnds(pc.stop, s.bs);
      SlotStep(s.headers[pc.h], (pc.stop - 1) / s.bs, 1);
    }
  }

  lemma MoveEmptyOne<T>(s: State<T>, pc: Consumer<T>)
    requires ConsInv(s, pc) && pc.Emptying? && pc.at < pc.stop && !AsksNothing(pc)
    ensures ConsInv(s, pc.(at := pc.at + 1))
  {
    DivMono(pc.at, pc.at + 1, s.bs);
    if pc.at + 1 < pc.stop { DivMono(pc.at + 1, pc.stop - 1, s.bs); }
  }

  lemma HasGrow(b: nat, blk: seq<nat>, blk': seq<nat>, h: Header, lo: int, hi: int)
    requires HasAll(b, blk, h, lo, hi) && blk <= blk'
    ensures HasAll(b, blk', h, lo, hi)
  {
    forall k | lo <= k <= hi ensures Has(b, blk', h, k) { assert Has(b, blk, h, k); }
  }

  predicate HasHeader<T>(pc: Consumer<T>) {
    pc.GotHeader? || pc.GotFront? || pc.GotBase? || pc.AtSlot? || pc.Reading? || pc.Emptying?
  }

  /** s' only adds headers, blocks, items and claims. */
  ghost predicate Extends<T>(s: State<T>, s': State<T>) {
    && s'.bs == s.bs && s.headers <= s'.headers && s.blk <= s'.blk && s.items <= s'.items
    && s.head <= s'.head <= |s'.items|
  }

  lemma LoadedFrame<T>(s: State<T>, s': State<T>, pc: Consumer<T>)
    requires s.bs > 0 && Extends(s, s') && HasHeader(pc) && Loaded(s, pc.h, LiveLo(pc), LiveHi(pc))
    ensures Loaded(s', pc.h, LiveLo(pc), LiveHi(pc))
  {
    if LiveLo(pc) < LiveHi(pc) {
      HasGrow(s.bs, s.blk, s'.blk, s.headers[pc.h], LiveLo(pc) / s.bs, (LiveHi(pc) - 1) / s.bs);
    }
  }

  lemma ReadFrame<T>(s: State<T>, s': State<T>, pc: Consumer<T>)
    requires s.bs > 0 && ReadInv(s, pc) && Extends(s, s')
    requires HasHeader(pc) ==> Loaded(s', pc.h, LiveLo(pc), LiveHi(pc))
    ensures ReadInv(s', pc)
  {}

  lemma HeaderLoaded<T>(s: State<T>, pc: Consumer<T>)
    requires s.bs > 0 && LookupInv(s, pc) && ReadInv(s, pc) && HasHeader(pc)
    ensures Loaded(s, pc.h, LiveLo(pc), LiveHi(pc))
  {}

  /** A consumer's invariant survives whatever only adds headers, blocks, items and claims. */
  lemma ConsFrame<T>(s: State<T>, s': State<T>, pc: Consumer<T>)
    requires ConsInv(s, pc) && Extends(s, s')
    ensures ConsInv(s', pc)
  {
    if !AsksNothing(pc) {
      if HasHeader(pc) { LoadedFrame(s, s', pc); }
      ReadFrame(s, s', pc);
    }
  }

  lemma ConsumerConsInv<T>(s: State<T>, u: nat, v: nat)
    requires u < |s.cons| && v < |s.cons| && ConsInv(s, s.cons[v])
    requires ConsumerOk(s, s.cons[u]) && ConsInv(s, Moved(s, s.cons[u]))
    ensures ConsInv(ConsumerStep(s, u), ConsumerStep(s, u).cons[v])
  {
    ConsFrame(s, ConsumerStep(s, u), if v == u then Moved(s, s.cons[u]) else s.cons[v]);
  }

  /** A call that asked for nothing goes through the same steps without touching anything. */
  lemma MoveHollow<T>(s: State<T>, pc: Consumer<T>)
    requires ConsInv(s, pc) && AsksNothing(pc) && HollowOk(s.headers, s.tail, pc) && FrontsInv(s) && IndexInv(s)
    ensures ConsumerOk(s, pc) && ConsInv(s, Moved(s, pc)) && HollowOk(s.headers, s.tail, Moved(s, pc))
    ensures Shrinks(pc, Moved(s, pc)) && (pc.Emptying? ==> pc.at == pc.stop)
  {
    if pc.Claimed? { CeilBounds(s.tail, s.bs); if Ceil(s.tail, s.bs) <= 0 { MulMono(Ceil(s.tail, s.bs), 0, s.bs); } }
    if pc.Reading? { StopIs(pc.start, s.bs); }
  }

  /** Every consumer step is defined, and keeps that consumer's invariant. */
  lemma MoveAny<T>(s: State<T>, pc: Consumer<T>)
    requires OwnReady(s, pc) && IndexInv(s) && ProducerInv(s) && CellsInv(s) && BlocksInv(s)
    ensures ConsumerOk(s, pc) && ConsInv(s, Moved(s, pc))
    ensures Shrinks(pc, Moved(s, pc))
  {
    match pc
    case Idle =>
    case Claimed(_, _) => MoveClaimed(s, pc);
    case GotHeader(_, _, _) => MoveHeader(s, pc);
    case GotFront(_, _, _, _, _) => MoveHeader(s, pc);
    case GotBase(_, _, _, _, _, _) => MoveBase(s, pc);
    case AtSlot(_, _, _, _, _, _) => MoveSlot(s, pc);
    case Reading(_, _, _, _, _, _, _, _) => MoveRead(s, pc);
    case Emptying(_, _, _, _, _, _, _, _) => MoveEmpty(s, pc);
    case Done(_, _, _) =>
  }

  lemma FlagPosition(k: int, j: int, at: int, b: int)
    requires b > 0 && 0 <= j < b && k == at / b && j == at % b
    ensures k * b + j == at
  {}

  /** Flags are set only for indices that are then live no more. */
  lemma ConsumerFlags<T>(s: State<T>, u: nat)
    requires FlagsInv(s) && BlocksInv(s) && u < |s.cons| && ConsumerOk(s, s.cons[u])
    requires Shrinks(s.cons[u], Moved(s, s.cons[u]))
    requires var pc := s.cons[u];
      pc.Emptying? && pc.at < pc.stop ==>
        && pc.stop <= pc.end <= s.head && Oldest(s) <= pc.at / s.bs
        && InBlock(s, pc.block, pc.at / s.bs) && LiveLo(Moved(s, pc)) == pc.at + 1
    ensures FlagsInv(ConsumerStep(s, u))
  {
    var s', pc := ConsumerStep(s, u), s.cons[u];
    forall v, w | 0 <= v < |s'.cons| && 0 <= w < |s'.cons| && v != w ensures Separate(s'.cons[v], s'.cons[w]) {
    }
    forall k, j | Oldest(s') <= k && FlagAt(s', k, j) ensures FlagFree(s', k * s'.bs + j) {
      if FlagAt(s, k, j) {
        forall v | 0 <= v < |s'.cons| ensures !Live(s'.cons[v], k * s.bs + j) {
        }
      } else {
        SetFlag(s, u, k, j);
      }
    }
  }

  lemma SetFlag<T>(s: State<T>, u: nat, k: int, j: int)
    requires FlagsInv(s) && BlocksInv(s) && u < |s.cons| && ConsumerOk(s, s.cons[u])
    requires Oldest(s) <= k && FlagAt(ConsumerStep(s, u), k, j) && !FlagAt(s, k, j)
    requires var pc := s.cons[u];
      pc.Emptying? && pc.at < pc.stop ==>
        && pc.stop <= pc.end <= s.head && Oldest(s) <= pc.at / s.bs
        && InBlock(s, pc.block, pc.at / s.bs) && LiveLo(Moved(s, pc)) == pc.at + 1
    ensures FlagFree(ConsumerStep(s, u), k * s.bs + j)
  {
    var s', pc := ConsumerStep(s, u), s.cons[u];
    FlagPosition(k, j, pc.at, s.bs);
    forall v | 0 <= v < |s'.cons| ensures !Live(s'.cons[v], pc.at) {
    }
  }

  lemma ConsumerRing<T>(s: State<T>, u: nat)
    requires RingInv(s) && u < |s.cons| && ConsumerOk(s, s.cons[u])
    requires Shrinks(s.cons[u], Moved(s, s.cons[u]))
    ensures RingInv(ConsumerStep(s, u))
  {
    var s' := ConsumerStep(s, u);
    forall v | 0 <= v < |s'.cons| && LiveLo(s'.cons[v]) < LiveHi(s'.cons[v])
      ensures Oldest(s') <= LiveLo(s'.cons[v]) / s'.bs
    {
      DivMono(LiveLo(s.cons[v]), LiveLo(s'.cons[v]), s.bs);
    }
  }

  lemma SameIndex<T>(s: State<T>, s': State<T>)
    requires IndexInv(s) && ProducerInv(s)
    requires s'.bs == s.bs && s'.headers == s.headers && s'.blk == s.blk && s'.used == s.used
    requires s'.prFront == s.prFront && s'.tail == s.tail && s'.prod == s.prod && s'.items == s.items
    requires s.head <= s'.head <= s.tail
    ensures IndexInv(s') && ProducerInv(s')
  {}

  lemma ConsumerKeeps<T>(s: State<T>, u: nat)
    requires Inv(s) && FrontsInv(s) && HollowsInv(s) && u < |s.cons|
    ensures ConsumerOk(s, s.cons[u]) && Inv(ConsumerStep(s, u))
    ensures FrontsInv(ConsumerStep(s, u)) && HollowsInv(ConsumerStep(s, u))
  {
    hide FlagsInv, RingInv, BlocksInv, CellsInv, IndexInv, ProducerInv, Shrinks, Moved, ConsInv, ConsumerOk;
    var pc := s.cons[u];
    OwnMoves(s, u);
    var s' := ConsumerStep(s, u);
    MovesShared(s, u);
    forall v | 0 <= v < |s'.cons| ensures ConsInv(s', s'.cons[v]) { ConsumerConsInv(s, u, v); }
    MovesFronts(s, u);
  }

  lemma OwnMoves<T>(s: State<T>, u: nat)
    requires Inv(s) && FrontsInv(s) && HollowsInv(s) && u < |s.cons|
    ensures var pc := s.cons[u];
      && ConsumerOk(s, pc) && ConsInv(s, Moved(s, pc)) && HollowOk(s.headers, s.tail, Moved(s, pc))
      && Shrinks(pc, Moved(s, pc))
      && (pc.Emptying? && pc.at < pc.stop ==>
            && pc.stop <= pc.end <= s.head && Oldest(s) <= pc.at / s.bs
            && InBlock(s, pc.block, pc.at / s.bs) && LiveLo(Moved(s, pc)) == pc.at + 1)
  {
    hide FlagsInv, FrontsInv, IndexInv, CellsInv, BlocksInv, ProducerInv;
    var pc := s.cons[u];
    if AsksNothing(pc) { MoveHollow(s, pc); } else { MoveAny(s, pc); StillAsks(s, pc); }
  }

  lemma MovesShared<T>(s: State<T>, u: nat)
    requires IndexInv(s) && ProducerInv(s) && BlocksInv(s) && FlagsInv(s) && RingInv(s) && CellsInv(s)
    requires u < |s.cons| && ConsumerOk(s, s.cons[u]) && Shrinks(s.cons[u], Moved(s, s.cons[u]))
    requires var pc := s.cons[u];
      pc.Emptying? && pc.at < pc.stop ==>
        && pc.stop <= pc.end <= s.head && Oldest(s) <= pc.at / s.bs
        && InBlock(s, pc.block, pc.at / s.bs) && LiveLo(Moved(s, pc)) == pc.at + 1
    ensures var s' := ConsumerStep(s, u);
      IndexInv(s') && ProducerInv(s') && BlocksInv(s') && FlagsInv(s') && RingInv(s') && CellsInv(s')
  {
    ConsumerFlags(s, u);
    ConsumerRing(s, u);
    hide FlagsInv, RingInv, Moved, Shrinks;
    SameIndex(s, ConsumerStep(s, u));
  }

  lemma MovesFronts<T>(s: State<T>, u: nat)
    requires FrontsInv(s) && HollowsInv(s) && u < |s.cons| && ConsumerOk(s, s.cons[u])
    requires HollowOk(s.headers, s.tail, Moved(s, s.cons[u]))
    ensures FrontsInv(ConsumerStep(s, u)) && HollowsInv(ConsumerStep(s, u))
  {
    hide HollowOk, Moved;
  }

  lemma StillAsks<T>(s: State<T>, pc: Consumer<T>)
    requires ConsumerOk(s, pc) && !AsksNothing(pc)
    ensures !AsksNothing(Moved(s, pc))
  {}

  // ---------------------------------------------------------------- claims and returns

  lemma ClaimKeeps<T>(s: State<T>, u: nat, n: nat)
    requires Inv(s)
    ensures Inv(Step(s, Claim(u, n)))
  {
    var s' := Step(s, Claim(u, n));
    if u < |s.cons| && s.cons[u] == Idle && 0 < s.tail && s.head + n <= s.tail {
      SameIndex(s, s');
      ClaimConsumers(s, u, n);
      ClaimFlags(s, u, n);
      ClaimRing(s, u, n);
    }
  }

  lemma ClaimConsumers<T>(s: State<T>, u: nat, n: nat)
    requires ConsumersInv(s) && s.bs > 1 && s.head <= s.tail <= |s.items|
    requires u < |s.cons| && s.cons[u] == Idle && 0 < s.tail && s.head + n <= s.tail
    ensures ConsumersInv(Step(s, Claim(u, n)))
    ensures forall v :: 0 <= v < |s.cons| ==> LiveLo(s.cons[v]) <= LiveHi(s.cons[v]) <= s.head
  {
    var s' := Step(s, Claim(u, n));
    forall v | 0 <= v < |s'.cons| ensures ConsInv(s', s'.cons[v]) {
      if v != u { ConsFrame(s, s', s.cons[v]); }
    }
    forall v | 0 <= v < |s.cons| ensures LiveLo(s.cons[v]) <= LiveHi(s.cons[v]) <= s.head {
    }
  }

  lemma ClaimFlags<T>(s: State<T>, u: nat, n: nat)
    requires FlagsInv(s) && u < |s.cons| && s.cons[u] == Idle && 0 < s.tail && s.head + n <= s.tail
    requires forall v :: 0 <= v < |s.cons| ==> LiveLo(s.cons[v]) <= LiveHi(s.cons[v]) <= s.head
    ensures FlagsInv(Step(s, Claim(u, n)))
  {
    var s' := Step(s, Claim(u, n));
    forall v, w | 0 <= v < |s'.cons| && 0 <= w < |s'.cons| && v != w ensures Separate(s'.cons[v], s'.cons[w]) {
    }
    forall k, j | Oldest(s') <= k && FlagAt(s', k, j) ensures FlagFree(s', k * s'.bs + j) {
      assert FlagAt(s, k, j) && FlagFree(s, k * s.bs + j);
      forall v | 0 <= v < |s'.cons| ensures !Live(s'.cons[v], k * s.bs + j) {
      }
    }
  }

  lemma ClaimRing<T>(s: State<T>, u: nat, n: nat)
    requires RingInv(s) && u < |s.cons| && s.cons[u] == Idle && 0 < s.tail && s.head + n <= s.tail
    requires ProducerInv(s)
    ensures RingInv(Step(s, Claim(u, n)))
  {
    var s' := Step(s, Claim(u, n));
    CeilBounds(s.tail, s.bs);
    MulMono(Ceil(s.tail, s.bs), |s.blk|, s.bs);
    DivMono(s.head, s.head + n, s.bs);
    forall v | 0 <= v < |s'.cons| && LiveLo(s'.cons[v]) < LiveHi(s'.cons[v])
      ensures Oldest(s') <= LiveLo(s'.cons[v]) / s'.bs
    {}
  }

  /** Changing consumers to ones with nothing live, or not at all. */
  lemma ReturnKeeps<T>(s: State<T>, u: nat)
    requires Inv(s)
    ensures Inv(Step(s, Return(u)))
  {
    var s' := Step(s, Return(u));
    if u < |s.cons| && s.cons[u].Done? {
      SameIndex(s, s');
      forall v | 0 <= v < |s'.cons| ensures ConsInv(s', s'.cons[v]) {
        assert ConsInv(s, s.cons[v]);
        if v != u { ConsFrame(s, s', s.cons[v]); }
      }
      forall v, w | 0 <= v < |s'.cons| && 0 <= w < |s'.cons| && v != w ensures Separate(s'.cons[v], s'.cons[w]) {
      }
      forall k, j | Oldest(s') <= k && FlagAt(s', k, j) ensures FlagFree(s', k * s'.bs + j) {
        assert FlagAt(s, k, j) && FlagFree(s, k * s.bs + j);
        forall v | 0 <= v < |s'.cons| ensures !Live(s'.cons[v], k * s.bs + j) {
        }
      }
    }
  }

  // ---------------------------------------------------------------- the producer's steps

  /** What the consumers rely on is the same when the producer's step leaves these alone. */
  lemma ConsumersKept<T>(s: State<T>, s': State<T>)
    requires ConsumersInv(s) && Extends(s, s') && s'.cons == s.cons
    ensures ConsumersInv(s')
  {
    forall u | 0 <= u < |s'.cons| ensures ConsInv(s', s'.cons[u]) { ConsFrame(s, s', s.cons[u]); }
  }

  /** A step that changes the producer's locals only. */
  lemma SameButProd<T>(s: State<T>, s': State<T>)
    requires BlocksInv(s) && FlagsInv(s) && RingInv(s) && CellsInv(s) && ConsumersInv(s)
    requires s' == s.(prod := s'.prod) && s.bs > 1 && s.head <= |s.items|
    ensures BlocksInv(s') && FlagsInv(s') && RingInv(s') && CellsInv(s') && ConsumersInv(s')
  {
    ConsumersKept(s, s');
    SameShared(s, s');
  }

  lemma StartKeeps<T>(s: State<T>, xs: seq<T>)
    requires Inv(s)
    ensures Inv(Step(s, Enqueue(xs)))
  {
    hide FlagsInv, RingInv, CellsInv, BlocksInv, ConsumersInv, HasAll;
    if s.prod == PIdle && Ceil(|s.items| + |xs|, s.bs) >= |s.blk| {
      SameButProd(s, Step(s, Enqueue(xs)));
      StartIndex(s, xs);
    }
  }

  lemma SameFlags<T>(s: State<T>, s': State<T>)
    requires FlagsInv(s)
    requires s'.bs == s.bs && s'.flags == s.flags && s'.used == s.used && s'.blk == s.blk
    requires s'.head == s.head && s'.cons == s.cons
    ensures FlagsInv(s')
  {
    forall k, j | Oldest(s') <= k && FlagAt(s', k, j) ensures FlagFree(s', k * s'.bs + j) {
      assert FlagAt(s, k, j) && FlagFree(s, k * s.bs + j);
    }
  }

  /** The invariants about flags, ring and cells do not mention the producer's locals or the index. */
  lemma SameShared<T>(s: State<T>, s': State<T>)
    requires BlocksInv(s) && FlagsInv(s) && RingInv(s) && CellsInv(s)
    requires s'.bs == s.bs && s'.cells == s.cells && s'.flags == s.flags && s'.used == s.used
    requires s'.blk == s.blk && s'.items == s.items && s'.head == s.head && s'.cons == s.cons
    ensures BlocksInv(s') && FlagsInv(s') && RingInv(s') && CellsInv(s')
  {
    SameFlags(s, s');
  }

  lemma StartIndex<T>(s: State<T>, xs: seq<T>)
    requires IndexInv(s) && ProducerInv(s) && s.prod == PIdle && Ceil(|s.items| + |xs|, s.bs) >= |s.blk|
    ensures IndexInv(Step(s, Enqueue(xs))) && ProducerInv(Step(s, Enqueue(xs)))
  {}

  /** Whether to go on preparing blocks, to publish them, or to write at once. */
  lemma PreparedKeeps<T>(s: State<T>)
    requires Inv(s) && s.prod.PPrep? && s.prod.left == 0 && ProducerOk(s)
    ensures Inv(ProducerStep(s, false))
  {
    SameButProd(s, ProducerStep(s, false));
    PreparedIndex(s);
  }

  lemma PreparedIndex<T>(s: State<T>)
    requires IndexInv(s) && ProducerInv(s) && s.prod.PPrep? && s.prod.left == 0 && ProducerOk(s)
    ensures IndexInv(ProducerStep(s, false)) && ProducerInv(ProducerStep(s, false))
  {}

  // ---- taking a block: reuse or append

  lemma ReuseKeeps<T>(s: State<T>)
    requires Inv(s) && s.prod.PPrep? && s.prod.left > 0 && !s.prod.appending && ProducerOk(s) && CanReuse(s)
    ensures Inv(ProducerStep(s, true))
  {
    var s' := ProducerStep(s, true);
    ReuseIndex(s);
    ReuseBlocks(s);
    EmptyBlockIsDead(s);
    ReuseFlags(s);
    ReuseRing(s);
    ConsumersKept(s, s');
  }

  lemma ReuseIndex<T>(s: State<T>)
    requires IndexInv(s) && ProducerInv(s)
    requires s.prod.PPrep? && s.prod.left > 0 && !s.prod.appending && ProducerOk(s) && CanReuse(s)
    ensures IndexInv(ProducerStep(s, true)) && ProducerInv(ProducerStep(s, true))
  {
    var s' := ProducerStep(s, true);
    HasGrow(s.bs, s.blk, s'.blk, CurHeader(s), Oldest(s), |s.blk| - 1);
  }

  lemma ReuseBlocks<T>(s: State<T>)
    requires BlocksInv(s) && s.prod.PPrep? && s.prod.left > 0 && !s.prod.appending
    requires ProducerOk(s) && CanReuse(s)
    ensures BlocksInv(ProducerStep(s, true))
  {}

  /** No index of an emptied block is still to be read: the block may be reused. */
  lemma EmptyBlockIsDead<T>(s: State<T>)
    requires BlocksInv(s) && FlagsInv(s) && s.bs > 0 && s.used > 0
    requires BlockEmpty(s.flags[s.blk[Oldest(s)]])
    ensures forall i :: Oldest(s) * s.bs <= i < Oldest(s) * s.bs + s.bs ==> FlagFree(s, i)
  {
    var k := Oldest(s);
    forall i | k * s.bs <= i < k * s.bs + s.bs ensures FlagFree(s, i) {
      assert FlagAt(s, k, i - k * s.bs);
    }
  }

  lemma ReuseFlags<T>(s: State<T>)
    requires FlagsInv(s) && BlocksInv(s) && s.prod.PPrep? && s.prod.left > 0 && !s.prod.appending
    requires ProducerOk(s) && CanReuse(s)
    ensures FlagsInv(ProducerStep(s, true))
  {
    var s' := ProducerStep(s, true);
    forall k, j | Oldest(s') <= k && FlagAt(s', k, j) ensures FlagFree(s', k * s'.bs + j) {
      assert FlagAt(s, k, j) && FlagFree(s, k * s.bs + j);
    }
  }

  lemma ReuseRing<T>(s: State<T>)
    requires RingInv(s) && s.prod.PPrep? && s.prod.left > 0 && !s.prod.appending
    requires ProducerOk(s) && CanReuse(s)
    requires forall i :: Oldest(s) * s.bs <= i < Oldest(s) * s.bs + s.bs ==> FlagFree(s, i)
    ensures RingInv(ProducerStep(s, true))
  {
    var k := Oldest(s);
    assert FlagFree(s, k * s.bs + s.bs - 1);
    DivExact(k + 1, s.bs);
    DivMono((k + 1) * s.bs, s.head, s.bs);
    forall u | 0 <= u < |s.cons| && LiveLo(s.cons[u]) < LiveHi(s.cons[u])
      ensures k + 1 <= LiveLo(s.cons[u]) / s.bs
    {
      var lo := LiveLo(s.cons[u]);
      DivBounds(lo, s.bs);
      if lo / s.bs == k { assert FlagFree(s, lo) && Live(s.cons[u], lo); }
    }
  }

  predicate AtAppend<T>(s: State<T>) {
    ProducerOk(s) && s.prod.PPrep? && s.prod.left > 0 && s.used != CurHeader(s).size
  }

  lemma AppendKeeps<T>(s: State<T>, reuse: bool)
    requires Inv(s) && AtAppend(s) && (!reuse || s.prod.appending)
    ensures Inv(ProducerStep(s, reuse))
  {
    var s' := ProducerStep(s, reuse);
    AppendIndex(s, reuse);
    AppendBlocks(s, reuse);
    AppendFlags(s, reuse);
    AppendRing(s, reuse);
    AppendCells(s, reuse);
    ConsumersKept(s, s');
  }

  lemma AppendIndex<T>(s: State<T>, reuse: bool)
    requires IndexInv(s) && ProducerInv(s) && AtAppend(s) && (!reuse || s.prod.appending)
    ensures IndexInv(ProducerStep(s, reuse)) && ProducerInv(ProducerStep(s, reuse))
  {
    var s' := ProducerStep(s, reuse);
    HasGrow(s.bs, s.blk, s'.blk, CurHeader(s), Oldest(s), |s.blk| - 1);
  }

  lemma AppendBlocks<T>(s: State<T>, reuse: bool)
    requires BlocksInv(s) && AtAppend(s) && (!reuse || s.prod.appending)
    ensures BlocksInv(ProducerStep(s, reuse))
  {}

  lemma AppendFlags<T>(s: State<T>, reuse: bool)
    requires FlagsInv(s) && BlocksInv(s) && AtAppend(s) && (!reuse || s.prod.appending)
    ensures FlagsInv(ProducerStep(s, reuse))
  {
    var s' := ProducerStep(s, reuse);
    forall k, j | Oldest(s') <= k && FlagAt(s', k, j) ensures FlagFree(s', k * s'.bs + j) {
      assert FlagAt(s, k, j) && FlagFree(s, k * s.bs + j);
    }
  }

  lemma AppendRing<T>(s: State<T>, reuse: bool)
    requires RingInv(s) && AtAppend(s) && (!reuse || s.prod.appending)
    ensures RingInv(ProducerStep(s, reuse))
  {
    if s.head >= |s.blk| * s.bs {
      DivExact(|s.blk|, s.bs);
      DivMono(|s.blk| * s.bs, s.head, s.bs);
    }
  }

  lemma AppendCells<T>(s: State<T>, reuse: bool)
    requires CellsInv(s) && AtAppend(s) && (!reuse || s.prod.appending)
    ensures CellsInv(ProducerStep(s, reuse))
  {
    var s' := ProducerStep(s, reuse);
    forall i | 0 <= i < |s'.items| && Oldest(s') <= i / s.bs
      ensures CellOk(s'.bs, s'.blk, s'.cells, s'.items[i], i)
    {}
  }

  // ---- doubling the index

  lemma GrowKeeps<T>(s: State<T>, reuse: bool)
    requires Inv(s) && ProducerOk(s) && s.prod.PPrep? && s.prod.left > 0 && s.used == CurHeader(s).size
    requires !reuse || s.prod.appending
    ensures Inv(ProducerStep(s, reuse))
  {
    var s' := ProducerStep(s, reuse);
    GrowIndex(s, reuse);
    ConsumersKept(s, s');
    SameShared(s, s');
  }

  /** The copy lists the ring's blocks from slot 0 on, in order. */
  lemma CopiedAt<T>(s: State<T>, k: int)
    requires IndexInv(s) && ProducerOk(s) && s.prod.PPrep? && s.used == CurHeader(s).size
    requires Oldest(s) <= k < |s.blk|
    ensures Copied(s)[k - Oldest(s)] == Entry(k * s.bs, s.blk[k])
  {
    var h := CurHeader(s);
    SlotStep(h, |s.blk|, k - |s.blk|);
    assert Has(s.bs, s.blk, h, k);
  }

  lemma GrowIndex<T>(s: State<T>, reuse: bool)
    requires IndexInv(s) && ProducerInv(s) && ProducerOk(s)
    requires s.prod.PPrep? && s.prod.left > 0 && s.used == CurHeader(s).size && (!reuse || s.prod.appending)
    ensures IndexInv(ProducerStep(s, reuse)) && ProducerInv(ProducerStep(s, reuse))
  {
    var s' := ProducerStep(s, reuse);
    var h := CurHeader(s');
    SmallMod(s.used, h.size);
    forall k | Oldest(s) <= k < |s.blk| ensures Has(s'.bs, s'.blk, h, k) {
      CopiedAt(s, k);
      SmallMod(k - Oldest(s), h.size);
    }
    if h.newest >= Oldest(s') { SmallMod(s.prod.orig - 1, h.size); }
  }

  // ---- writing the entry of the newest block

  /** Writing at `prFront` touches no slot of a block in the ring that is already indexed. */
  lemma OtherSlots<T>(s: State<T>, k: int)
    requires IndexInv(s) && (s.prod.PBase? || s.prod.PBlock?) && Oldest(s) <= k < |s.blk| - 1
    ensures Slot(CurHeader(s), k) != s.prFront
  {
    ModDistinct(k - CurHeader(s).origin, |s.blk| - 1 - CurHeader(s).origin, CurHeader(s).size);
  }

  /** A header that keeps the origin, the size and the entries of blocks lo..hi. */
  predicate SameSlots(h: Header, h': Header, lo: int, hi: int) {
    && h'.size == h.size > 0 && h'.origin == h.origin && |h'.entries| == |h.entries| == h.size
    && h'.front == h.front && h'.newest == h.newest
    && forall k {:trigger Slot(h, k)} :: lo <= k <= hi ==> h'.entries[Slot(h, k)] == h.entries[Slot(h, k)]
  }

  lemma EntrySameSlots<T>(s: State<T>, e: Entry)
    requires IndexInv(s) && ProducerOk(s) && (s.prod.PBase? || s.prod.PBlock?)
    ensures SameSlots(CurHeader(s), CurHeader(SetEntry(s, s.prFront, e)), Oldest(s), |s.blk| - 2)
  {
    forall k | Oldest(s) <= k <= |s.blk| - 2
      ensures CurHeader(SetEntry(s, s.prFront, e)).entries[Slot(CurHeader(s), k)]
           == CurHeader(s).entries[Slot(CurHeader(s), k)]
    {
      OtherSlots(s, k);
    }
  }

  lemma HasSameSlots(b: nat, blk: seq<nat>, h: Header, h': Header, lo: int, hi: int, k: int)
    requires SameSlots(h, h', lo, hi) && lo <= k <= hi && Has(b, blk, h, k)
    ensures Has(b, blk, h', k) && Slot(h', k) == Slot(h, k)
  {}

  /** Consumers on the current header do not notice the write of an entry outside their window. */
  lemma ConsEntry<T>(s: State<T>, s': State<T>, pc: Consumer<T>, lo: int)
    requires ConsInv(s, pc) && s.headers != [] && |s'.headers| == |s.headers|
    requires s'.bs == s.bs && s'.blk == s.blk && s'.items == s.items && s'.head == s.head
    requires s'.headers == s.headers[Cur(s) := CurHeader(s')]
    requires SameSlots(CurHeader(s), CurHeader(s'), lo, CurHeader(s).newest)
    requires LiveLo(pc) < LiveHi(pc) ==>
               lo <= LiveLo(pc) / s.bs && (LiveHi(pc) - 1) / s.bs <= CurHeader(s).newest
    ensures ConsInv(s', pc)
  {
    if HasHeader(pc) && !AsksNothing(pc) {
      HeaderLoaded(s, pc);
      var h := s.headers[pc.h];
      if LiveLo(pc) < LiveHi(pc) {
        DivMono(LiveLo(pc), LiveHi(pc) - 1, s.bs);
        if pc.h == Cur(s) {
          forall k | LiveLo(pc) / s.bs <= k <= (LiveHi(pc) - 1) / s.bs
            ensures Has(s'.bs, s'.blk, s'.headers[pc.h], k)
          {
            HasSameSlots(s.bs, s.blk, h, CurHeader(s'), lo, CurHeader(s).newest, k);
          }
        }
      }
      EntryLookup(s, s', pc, lo);
      EntryRead(s, s', pc);
    }
  }

  lemma EntryRead<T>(s: State<T>, s': State<T>, pc: Consumer<T>)
    requires ConsInv(s, pc) && !AsksNothing(pc) && s.headers != [] && |s'.headers| == |s.headers| && HasHeader(pc)
    requires s'.bs == s.bs && s'.blk == s.blk && s'.items == s.items && s'.head == s.head
    requires s'.headers == s.headers[Cur(s) := CurHeader(s')]
    requires CurHeader(s').size == CurHeader(s).size && CurHeader(s').origin == CurHeader(s).origin
    requires Loaded(s', pc.h, LiveLo(pc), LiveHi(pc))
    ensures ReadInv(s', pc)
  {}

  lemma EntryLookup<T>(s: State<T>, s': State<T>, pc: Consumer<T>, lo: int)
    requires ConsInv(s, pc) && !AsksNothing(pc) && s.headers != [] && |s'.headers| == |s.headers| && HasHeader(pc)
    requires s'.bs == s.bs && s'.blk == s.blk && s'.headers == s.headers[Cur(s) := CurHeader(s')]
    requires SameSlots(CurHeader(s), CurHeader(s'), lo, CurHeader(s).newest)
    requires LiveLo(pc) < LiveHi(pc) ==>
               lo <= LiveLo(pc) / s.bs <= (LiveHi(pc) - 1) / s.bs <= CurHeader(s).newest
    requires Loaded(s', pc.h, LiveLo(pc), LiveHi(pc))
    ensures LookupInv(s', pc)
  {
    if pc.h == Cur(s) {
      match pc
      case GotHeader(_, _, _) =>
        HasSameSlots(s.bs, s.blk, CurHeader(s), CurHeader(s'), lo, CurHeader(s).newest, CurHeader(s).newest);
      case GotFront(_, _, _, _, ord) =>
        HasSameSlots(s.bs, s.blk, CurHeader(s), CurHeader(s'), lo, CurHeader(s).newest, ord);
      case GotBase(_, _, _, _, _, ord) =>
      case _ =>
    }
  }

  /** The blocks a consumer still needs are in the ring and shown by the published front. */
  lemma LiveWindow<T>(s: State<T>, u: nat)
    requires ProducerInv(s) && RingInv(s) && s.headers != [] && u < |s.cons| && ConsInv(s, s.cons[u])
    requires Ceil(s.tail, s.bs) - 1 <= CurHeader(s).newest
    requires LiveLo(s.cons[u]) < LiveHi(s.cons[u])
    ensures Oldest(s) <= LiveLo(s.cons[u]) / s.bs
    ensures (LiveHi(s.cons[u]) - 1) / s.bs <= CurHeader(s).newest
  {
    OrdBelowCeil(LiveHi(s.cons[u]) - 1, s.tail, s.bs);
  }

  lemma EntryConsumers<T>(s: State<T>, s': State<T>, e: Entry)
    requires IndexInv(s) && ProducerInv(s) && RingInv(s) && ConsumersInv(s) && ProducerOk(s)
    requires s.prod.PBase? || s.prod.PBlock?
    requires s'.headers == SetEntry(s, s.prFront, e).headers && s'.cons == s.cons
    requires s'.bs == s.bs && s'.blk == s.blk && s'.items == s.items && s'.head == s.head
    ensures ConsumersInv(s')
  {
    EntrySameSlots(s, e);
    forall u | 0 <= u < |s'.cons| ensures ConsInv(s', s'.cons[u]) {
      if LiveLo(s.cons[u]) < LiveHi(s.cons[u]) { LiveWindow(s, u); }
      ConsEntry(s, s', s.cons[u], Oldest(s));
    }
  }

  lemma BaseIndex<T>(s: State<T>)
    requires IndexInv(s) && ProducerInv(s) && ProducerOk(s) && s.prod.PBase?
    ensures IndexInv(ProducerStep(s, false)) && ProducerInv(ProducerStep(s, false))
  {
    var h := CurHeader(s);
    var e := h.entries[s.prFront].(base := (|s.blk| - 1) * s.bs);
    EntrySameSlots(s, e);
    var h' := CurHeader(ProducerStep(s, false));
    forall k | Oldest(s) <= k <= |s.blk| - 2 ensures Has(s.bs, s.blk, h', k) {
      assert Has(s.bs, s.blk, h, k);
    }
  }

  lemma BlockIndex<T>(s: State<T>)
    requires IndexInv(s) && ProducerInv(s) && ProducerOk(s) && s.prod.PBlock?
    ensures IndexInv(ProducerStep(s, false)) && ProducerInv(ProducerStep(s, false))
  {
    var h := CurHeader(s);
    var e := h.entries[s.prFront].(block := s.blk[|s.blk| - 1]);
    EntrySameSlots(s, e);
    var h' := CurHeader(ProducerStep(s, false));
    forall k | Oldest(s) <= k <= |s.blk| - 1 ensures Has(s.bs, s.blk, h', k) {
      if k < |s.blk| - 1 {
        assert Has(s.bs, s.blk, h, k);
        HasSameSlots(s.bs, s.blk, h, h', Oldest(s), |s.blk| - 2, k);
      }
    }
    SlotStep(h, |s.blk| - 1, 1);
  }

  lemma EntryKeeps<T>(s: State<T>)
    requires Inv(s) && ProducerOk(s) && (s.prod.PBase? || s.prod.PBlock?)
    ensures Inv(ProducerStep(s, false))
  {
    var s' := ProducerStep(s, false);
    var e := CurHeader(s).entries[s.prFront];
    if s.prod.PBase? {
      BaseIndex(s);
      EntryConsumers(s, s', e.(base := (|s.blk| - 1) * s.bs));
    } else {
      BlockIndex(s);
      EntryConsumers(s, s', e.(block := s.blk[|s.blk| - 1]));
    }
    SameShared(s, s');
  }

  // ---- publishing the front

  lemma FrontIndex<T>(s: State<T>)
    requires IndexInv(s) && ProducerInv(s) && ProducerOk(s) && s.prod.PFront? && |s.blk| > 0 && s.used > 0
    ensures IndexInv(ProducerStep(s, false)) && ProducerInv(ProducerStep(s, false))
    ensures var h := CurHeader(ProducerStep(s, false));
      AtFront(ProducerStep(s, false), Cur(s), h.front, h.newest)
  {
    var s' := ProducerStep(s, false);
    var h, h' := CurHeader(s), CurHeader(s');
    SlotStep(h, |s.blk|, -1);
    forall k | Oldest(s) <= k <= |s.blk| - 1 ensures Has(s.bs, s.blk, h', k) {
      assert Has(s.bs, s.blk, h, k);
    }
  }

  lemma FrontLoaded<T>(s: State<T>, pc: Consumer<T>)
    requires s.bs > 0 && ProducerOk(s) && s.prod.PFront? && HasHeader(pc)
    requires Loaded(s, pc.h, LiveLo(pc), LiveHi(pc))
    ensures Loaded(ProducerStep(s, false), pc.h, LiveLo(pc), LiveHi(pc))
  {
    var s' := ProducerStep(s, false);
    if LiveLo(pc) < LiveHi(pc) {
      forall k | LiveLo(pc) / s.bs <= k <= (LiveHi(pc) - 1) / s.bs
        ensures Has(s'.bs, s'.blk, s'.headers[pc.h], k)
      {
        assert Has(s.bs, s.blk, s.headers[pc.h], k);
      }
    }
  }

  lemma FrontLookup<T>(s: State<T>, pc: Consumer<T>)
    requires ConsInv(s, pc) && !AsksNothing(pc) && ProducerOk(s) && s.prod.PFront? && CurHeader(s).newest < |s.blk|
    requires HasHeader(pc) && Loaded(ProducerStep(s, false), pc.h, LiveLo(pc), LiveHi(pc))
    requires var s' := ProducerStep(s, false);
      AtFront(s', Cur(s), CurHeader(s').front, CurHeader(s').newest)
    ensures LookupInv(ProducerStep(s, false), pc)
  {}

  lemma FrontConsumer<T>(s: State<T>, pc: Consumer<T>)
    requires ConsInv(s, pc) && ProducerOk(s) && s.prod.PFront? && CurHeader(s).newest < |s.blk|
    requires var s' := ProducerStep(s, false);
      AtFront(s', Cur(s), CurHeader(s').front, CurHeader(s').newest)
    ensures ConsInv(ProducerStep(s, false), pc)
  {
    if HasHeader(pc) && !AsksNothing(pc) {
      HeaderLoaded(s, pc);
      FrontLoaded(s, pc);
      FrontLookup(s, pc);
      EntryRead(s, ProducerStep(s, false), pc);
    }
  }

  lemma FrontKeeps<T>(s: State<T>)
    requires Inv(s) && ProducerOk(s) && s.prod.PFront? && |s.blk| > 0
    ensures Inv(ProducerStep(s, false))
  {
    var s' := ProducerStep(s, false);
    FrontIndex(s);
    SameShared(s, s');
    forall u | 0 <= u < |s'.cons| ensures ConsInv(s', s'.cons[u]) { FrontConsumer(s, s.cons[u]); }
  }

  // ---- constructing elements and publishing the tail

  lemma WriteTarget<T>(s: State<T>)
    requires ProducerInv(s) && RingInv(s) && s.prod.PWrite? && s.prod.xs != []
    ensures Oldest(s) <= |s.items| / s.bs < |s.blk|
  {
    OrdBelow(|s.items|, |s.blk|, s.bs);
    DivMono(s.head, |s.items|, s.bs);
  }

  lemma WriteKeeps<T>(s: State<T>)
    requires Inv(s) && ProducerOk(s) && s.prod.PWrite?
    ensures Inv(ProducerStep(s, false))
  {
    var s' := ProducerStep(s, false);
    if s.prod.xs == [] {
      SameButProd(s, s');
    } else {
      WriteCells(s);
      WriteRest(s);
      ConsumersKept(s, s');
    }
  }

  lemma WriteRest<T>(s: State<T>)
    requires IndexInv(s) && ProducerInv(s) && BlocksInv(s) && FlagsInv(s) && RingInv(s)
    requires ProducerOk(s) && s.prod.PWrite? && s.prod.xs != []
    ensures var s' := ProducerStep(s, false);
      IndexInv(s') && ProducerInv(s') && BlocksInv(s') && FlagsInv(s') && RingInv(s')
  {
    SameFlags(s, ProducerStep(s, false));
  }

  lemma WriteCells<T>(s: State<T>)
    requires CellsInv(s) && BlocksInv(s) && ProducerOk(s) && s.prod.PWrite? && s.prod.xs != []
    ensures CellsInv(ProducerStep(s, false))
  {
    var s' := ProducerStep(s, false);
    forall i | 0 <= i < |s'.items| && Oldest(s') <= i / s.bs
      ensures CellOk(s'.bs, s'.blk, s'.cells, s'.items[i], i)
    {}
  }

  lemma TailKeeps<T>(s: State<T>)
    requires Inv(s) && ProducerOk(s) && s.prod.PTail?
    ensures Inv(ProducerStep(s, false))
  {
    var s' := ProducerStep(s, false);
    SameShared(s, s');
    ConsumersKept(s, s');
  }

  // ---------------------------------------------------------------- the invariant over runs

  /** The producer's steps are always defined. */
  lemma ProducerDefined<T>(s: State<T>)
    requires Inv(s)
    ensures ProducerOk(s)
  {
    if s.prod.PWrite? && s.prod.xs != [] { WriteTarget(s); }
  }

  lemma ProducerKeeps<T>(s: State<T>, reuse: bool)
    requires Inv(s) && ProducerOk(s)
    ensures Inv(ProducerStep(s, reuse))
  {
    match s.prod
    case PIdle =>
    case PPrep(xs, left, orig, appending) =>
      if left == 0 {
        PreparedKeeps(s);
      } else if reuse && !appending {
        if CanReuse(s) { ReuseKeeps(s); }
      } else if s.used == CurHeader(s).size {
        GrowKeeps(s, reuse);
      } else {
        AppendKeeps(s, reuse);
      }
    case PBase(_, _, _, _) => EntryKeeps(s);
    case PBlock(_, _, _, _) => EntryKeeps(s);
    case PFront(_) => FrontKeeps(s);
    case PWrite(_) => WriteKeeps(s);
    case PTail => TailKeeps(s);
  }

  /** The headers that are there keep their size, and stay published once they are. */
  ghost predicate KeepsHeaders<T>(s: State<T>, s': State<T>) {
    && |s.headers| <= |s'.headers| && s.tail <= s'.tail && s'.cons == s.cons
    && forall x {:trigger s'.headers[x]} :: 0 <= x < |s.headers| ==>
         |s'.headers[x].entries| == |s.headers[x].entries| && s'.headers[x].newest >= s.headers[x].newest
  }

  lemma PrepareFronts<T>(s: State<T>, reuse: bool)
    requires ProducerInv(s) && FrontsInv(s) && ProducerOk(s) && s.prod.PPrep?
    ensures var s' := ProducerStep(s, reuse); FrontsInv(s') && KeepsHeaders(s, s')
  {
    hide Slot;
    assert |s.headers| <= |ProducerStep(s, reuse).headers|;
    assert ProducerStep(s, reuse).headers[..|s.headers|] == s.headers;
  }

  lemma OtherFronts<T>(s: State<T>, reuse: bool)
    requires IndexInv(s) && ProducerInv(s) && FrontsInv(s) && ProducerOk(s) && !s.prod.PPrep?
    ensures var s' := ProducerStep(s, reuse); FrontsInv(s') && KeepsHeaders(s, s')
  {
    hide HasAll, Slot;
  }

  /** The producer keeps the headers that are there, with their fronts in range. */
  lemma ProducerFronts<T>(s: State<T>, reuse: bool)
    requires IndexInv(s) && ProducerInv(s) && FrontsInv(s) && HollowsInv(s) && ProducerOk(s)
    ensures FrontsInv(ProducerStep(s, reuse)) && HollowsInv(ProducerStep(s, reuse))
  {
    hide IndexInv, ProducerInv, FrontsInv, ProducerOk, ProducerStep;
    if s.prod.PPrep? { PrepareFronts(s, reuse); } else { OtherFronts(s, reuse); }
  }

  lemma ProduceKeeps<T>(s: State<T>, reuse: bool)
    requires Inv(s) && FrontsInv(s) && HollowsInv(s)
    ensures var s' := Step(s, Produce(reuse)); Inv(s') && FrontsInv(s') && HollowsInv(s')
  {
    hide FrontsInv, HollowsInv, ProducerOk, ProducerStep;
    ProducerDefined(s);
    ProducerKeeps(s, reuse);
    ProducerFronts(s, reuse);
  }

  /** Beginning calls and ending them does not concern the headers. */
  lemma CallsKeepFronts<T>(s: State<T>, a: Action<T>)
    requires FrontsInv(s) && HollowsInv(s) && !a.Produce? && !a.Consume?
    ensures FrontsInv(Step(s, a)) && HollowsInv(Step(s, a))
  {}

  lemma StepKeeps<T>(s: State<T>, a: Action<T>)
    requires Inv(s) && FrontsInv(s) && HollowsInv(s)
    ensures Inv(Step(s, a)) && FrontsInv(Step(s, a)) && HollowsInv(Step(s, a))
  {
    hide Inv, FrontsInv, HollowsInv, ConsumerOk;
    match a
    case Enqueue(xs) => StartKeeps(s, xs); CallsKeepFronts(s, a);
    case Produce(reuse) => ProduceKeeps(s, reuse);
    case Claim(u, n) => ClaimKeeps(s, u, n); CallsKeepFronts(s, a);
    case Consume(u) => if u < |s.cons| { ConsumerKeeps(s, u); }
    case Return(u) => ReturnKeeps(s, u); CallsKeepFronts(s, a);
  }

  lemma {:induction false} RunKeeps<T>(s: State<T>, schedule: seq<Action<T>>)
    requires Inv(s) && FrontsInv(s) && HollowsInv(s)
    ensures Inv(Run(s, schedule)) && FrontsInv(Run(s, schedule)) && HollowsInv(Run(s, schedule))
    decreases |schedule|
  {
    hide Inv, FrontsInv, HollowsInv;
    if schedule != [] {
      StepKeeps(s, schedule[0]);
      RunKeeps(Step(s, schedule[0]), schedule[1..]);
    }
  }

  lemma ReachableInv<T>(s0: State<T>, size: nat, schedule: seq<Action<T>>)
    requires Init(s0, size)
    ensures Inv(Run(s0, schedule)) && FrontsInv(Run(s0, schedule)) && HollowsInv(Run(s0, schedule))
  {
    RunKeeps(s0, schedule);
  }

  // ---------------------------------------------------------------- what holds in every run

  /** However the producer's steps interleave, a consumer's lookup leads to the block holding the index it
      claimed, each slot it reads still holds the element enqueued there, and no step is undefined.  A call that
      asked for nothing reads and marks nothing. */
  lemma LookupIsStable<T>(s0: State<T>, size: nat, schedule: seq<Action<T>>, u: nat)
    requires Init(s0, size) && u < |Run(s0, schedule).cons|
    ensures var s := Run(s0, schedule);
      var pc := s.cons[u];
      && ConsumerOk(s, pc) && ProducerOk(s)
      && (pc.AtSlot? && pc.first < pc.end ==>
            && pc.at / s.bs < |s.blk|
            && s.headers[pc.h].entries[pc.slot] == Entry(pc.at / s.bs * s.bs, s.blk[pc.at / s.bs]))
      && (pc.Reading? && pc.at < Stop(pc.start, pc.end, s.bs) ==>
            pc.at < |s.items| && s.cells[pc.block][pc.at % s.bs] == Full(s.items[pc.at]))
      && (AsksNothing(pc) ==>
            && (pc.Reading? ==> pc.at == Stop(pc.start, pc.end, s.bs)) && (pc.Emptying? ==> pc.at == pc.stop)
            && ConsumerStep(s, u) == s.(cons := s.cons[u := Moved(s, pc)]))
  {
    var s := Run(s0, schedule);
    ReachableInv(s0, size, schedule);
    ProducerDefined(s);
    var pc := s.cons[u];
    if AsksNothing(pc) {
      MoveHollow(s, pc);
      HollowStops(s, u);
    } else {
      MoveAny(s, pc);
      hide Inv, ProducerOk, ReadInv, LookupInv;
      if pc.AtSlot? { EntryFound(s, pc); }
      if pc.Reading? && pc.at < Stop(pc.start, pc.end, s.bs) { CellFound(s, u); }
    }
  }

  lemma HollowStops<T>(s: State<T>, u: nat)
    requires u < |s.cons| && AsksNothing(s.cons[u])
    requires HollowOk(s.headers, s.tail, s.cons[u]) && ConsumerOk(s, s.cons[u])
    ensures var pc := s.cons[u];
      && (pc.Reading? ==> pc.at == Stop(pc.start, pc.end, s.bs)) && (pc.Emptying? ==> pc.at == pc.stop)
      && ConsumerStep(s, u) == s.(cons := s.cons[u := Moved(s, pc)])
  {
    if s.cons[u].Reading? { StopIs(s.cons[u].start, s.bs); }
  }

  lemma StopIs(i: nat, b: nat)
    requires b > 0
    ensures Stop(i, i, b) == i
  {
    DivBounds(i, b);
    assert (i / b + 1) * b == i / b * b + b;
  }

  lemma EntryFound<T>(s: State<T>, pc: Consumer<T>)
    requires s.bs > 0 && pc.AtSlot? && ReadInv(s, pc)
    requires pc.h < |s.headers| && 0 <= pc.slot < |s.headers[pc.h].entries|
    ensures pc.at / s.bs < |s.blk|
    ensures s.headers[pc.h].entries[pc.slot] == Entry(pc.at / s.bs * s.bs, s.blk[pc.at / s.bs])
  {
    DivMono(pc.at, pc.end - 1, s.bs);
    assert Has(s.bs, s.blk, s.headers[pc.h], pc.at / s.bs);
  }

  lemma CellFound<T>(s: State<T>, u: nat)
    requires Inv(s) && u < |s.cons| && ConsInv(s, s.cons[u]) && ConsumerOk(s, s.cons[u])
    requires var pc := s.cons[u]; pc.Reading? && pc.at < Stop(pc.start, pc.end, s.bs) && !AsksNothing(pc)
    ensures var pc := s.cons[u]; pc.at < |s.items| && s.cells[pc.block][pc.at % s.bs] == Full(s.items[pc.at])
  {
    hide IndexInv, BlocksInv, ProducerInv, FlagsInv;
    var pc := s.cons[u];
    StopBounds(pc.start, pc.end, s.bs);
  }

  /** A dequeue returns exactly the elements at the indices it claimed, in order. */
  lemma DequeueReturnsItsElements<T>(s0: State<T>, size: nat, schedule: seq<Action<T>>, u: nat)
    requires Init(s0, size) && u < |Run(s0, schedule).cons| && Run(s0, schedule).cons[u].Done?
    ensures var s := Run(s0, schedule);
      var pc := s.cons[u];
      pc.first <= pc.end <= s.tail <= |s.items| && pc.got == s.items[pc.first..pc.end]
  {
    ReachableInv(s0, size, schedule);
  }

  /** An index that is published and not emptied keeps its block in the ring, not empty, so the producer
      cannot reuse it; indices in the ring have distinct cells. */
  lemma LiveBlockIsKept<T>(s0: State<T>, size: nat, schedule: seq<Action<T>>, u: nat, i: nat)
    requires Init(s0, size) && u < |Run(s0, schedule).cons|
    requires Live(Run(s0, schedule).cons[u], i)
    ensures var s := Run(s0, schedule);
      && s.bs > 0 && Oldest(s) <= i / s.bs < |s.blk| && s.blk[i / s.bs] < |s.flags|
      && !BlockEmpty(s.flags[s.blk[i / s.bs]])
      && 0 <= Oldest(s)
      && (forall k :: Oldest(s) <= k < |s.blk| && k != i / s.bs ==> s.blk[k] != s.blk[i / s.bs])
  {
    var s := Run(s0, schedule);
    ReachableInv(s0, size, schedule);
    DivMono(LiveLo(s.cons[u]), i, s.bs);
    assert CellOk(s.bs, s.blk, s.cells, s.items[i], i);
    var k, j := i / s.bs, i % s.bs;
    DivBounds(i, s.bs);
    assert FlagAt(s, k, j) ==> FlagFree(s, k * s.bs + j);
  }

  // ---------------------------------------------------------------- an insertion

  /** What is still to be written of the call. */
  function Unwritten<T>(prod: Producer<T>): seq<T> {
    match prod
    case PIdle => []
    case PPrep(xs, _, _, _) => xs
    case PBase(xs, _, _, _) => xs
    case PBlock(xs, _, _, _) => xs
    case PFront(xs) => xs
    case PWrite(xs) => xs
    case PTail => []
  }

  /** The call that is to append xs to `items`, published up to `tail` so far, goes on, or is over. */
  ghost predicate Appending<T>(s: State<T>, items: seq<T>, tail: nat, xs: seq<T>) {
    && s.items + Unwritten(s.prod) == items + xs && s.tail == (if s.prod.PIdle? then |s.items| else tail)
  }

  lemma ProducerAppends<T>(s: State<T>, reuse: bool, items: seq<T>, tail: nat, xs: seq<T>)
    requires Appending(s, items, tail, xs) && ProducerOk(s)
    ensures Appending(ProducerStep(s, reuse), items, tail, xs)
  {
    hide Copied, ProducerOk;
    if s.prod.PWrite? && s.prod.xs != [] {
      assert (s.items + [s.prod.xs[0]]) + s.prod.xs[1..] == s.items + s.prod.xs;
    }
  }

  lemma StepAppends<T>(s: State<T>, a: Action<T>, items: seq<T>, tail: nat, xs: seq<T>)
    requires Appending(s, items, tail, xs) && !a.Enqueue?
    ensures Appending(Step(s, a), items, tail, xs)
  {
    hide ProducerStep, ProducerOk, ConsumerOk, Moved;
    if a.Produce? && ProducerOk(s) { ProducerAppends(s, a.reuse, items, tail, xs); }
  }

  lemma {:induction false} RunAppends<T>(s: State<T>, schedule: seq<Action<T>>, items: seq<T>, tail: nat, xs: seq<T>)
    requires Appending(s, items, tail, xs) && forall a :: a in schedule ==> !a.Enqueue?
    ensures Appending(Run(s, schedule), items, tail, xs)
    decreases |schedule|
  {
    hide Appending, Step;
    if schedule != [] {
      StepAppends(s, schedule[0], items, tail, xs);
      RunAppends(Step(s, schedule[0]), schedule[1..], items, tail, xs);
    }
  }

  /** An insertion begun between calls appends exactly its elements, in order, and publishes them all at once at its
      end, whatever consumers do meanwhile. */
  lemma InsertionAppends<T>(s0: State<T>, size: nat, before: seq<Action<T>>, xs: seq<T>, during: seq<Action<T>>)
    requires Init(s0, size) && Run(s0, before).prod.PIdle?
    requires forall a :: a in during ==> !a.Enqueue?
    ensures var s, s' := Run(s0, before), Run(Step(Run(s0, before), Enqueue(xs)), during);
      && Step(s, Enqueue(xs)).prod.PPrep? && s.tail == |s.items|
      && (if s'.prod.PIdle? then s'.items == s.items + xs && s'.tail == |s'.items|
          else s'.tail == s.tail && s'.items + Unwritten(s'.prod) == s.items + xs)
  {
    hide Step, Run, Init;
    var s := Run(s0, before);
    ReachableInv(s0, size, before);
    StartsAppending(s, xs);
    RunAppends(Step(s, Enqueue(xs)), during, s.items, s.tail, xs);
  }

  lemma StartsAppending<T>(s: State<T>, xs: seq<T>)
    requires Inv(s) && s.prod.PIdle?
    ensures var s1 := Step(s, Enqueue(xs));
      s1.prod.PPrep? && Appending(s1, s.items, s.tail, xs) && s.tail == |s.items|
  {
    hide IndexInv, BlocksInv, FlagsInv, RingInv, CellsInv, ConsumersInv;
    CeilGrows(|s.items|, |s.items| + |xs|, s.bs);
  }

  lemma CeilGrows(i: nat, j: nat, b: nat)
    requires b > 0 && i <= j
    ensures Ceil(i, b) <= Ceil(j, b)
  {
    DivMono(i + b - 1, j + b - 1, b);
  }

  /** How many more steps the producer takes at most. */
  function StepsLeft<T>(s: State<T>): int
    requires s.headers != []
  {
    match s.prod
    case PIdle => 0
    case PPrep(xs, left, _, _) => 5 * left + (if s.used == CurHeader(s).size then 1 else 0) + |xs| + 4
    case PBase(xs, left, _, _) => 5 * left + |xs| + 3
    case PBlock(xs, left, _, _) => 5 * left + |xs| + 2
    case PFront(xs) => |xs| + 3
    case PWrite(xs) => |xs| + 2
    case PTail => 1
  }

  /** Every insertion ends: a producer that does not wait for a block to become empty comes closer to its end with
      each step. */
  lemma InsertionEnds<T>(s0: State<T>, size: nat, schedule: seq<Action<T>>)
    requires Init(s0, size)
    ensures var s, s' := Run(s0, schedule), Step(Run(s0, schedule), Produce(false));
      && s.headers != [] && s'.headers != [] && StepsLeft(s') >= 0
      && (if s.prod.PIdle? then s' == s else StepsLeft(s') < StepsLeft(s))
  {
    hide Run, Init;
    var s := Run(s0, schedule);
    ReachableInv(s0, size, schedule);
    ProducerDefined(s);
    LeftIsPositive(s);
    ProducerNearer(s);
    hide Inv, FrontsInv, HollowsInv, ProducerStep, ProducerOk;
  }

  lemma LeftIsPositive<T>(s: State<T>)
    requires Inv(s)
    ensures s.prod.PBlock? || s.prod.PBase? ==> s.prod.left > 0
  {
    hide IndexInv, BlocksInv, FlagsInv, RingInv, CellsInv, ConsumersInv;
  }

  lemma ProducerNearer<T>(s: State<T>)
    requires ProducerOk(s) && (s.prod.PBlock? || s.prod.PBase? ==> s.prod.left > 0)
    ensures var s' := ProducerStep(s, false);
      && s.headers != [] && s'.headers != [] && StepsLeft(s') >= 0
      && (if s.prod.PIdle? then s' == s else StepsLeft(s') < StepsLeft(s))
  {
    hide Copied, Ceil;
  }

  // ---------------------------------------------------------------- a lookup

  /** How many more steps a consumer takes at most, returning included. */
  function LookupLeft<T>(pc: Consumer<T>): int {
    match pc
    case Idle => 0
    case Claimed(first, end) => 5 * (end - first) + 8
    case GotHeader(first, end, _) => 5 * (end - first) + 7
    case GotFront(first, end, _, _, _) => 5 * (end - first) + 6
    case GotBase(first, end, _, _, _, _) => 5 * (end - first) + 5
    case AtSlot(_, at, end, _, _, _) => 5 * (end - at) + 4
    case Reading(_, start, at, end, _, _, _, _) => 5 * (end - start) + 3 - (at - start)
    case Emptying(_, at, stop, end, _, _, _, _) => stop - at + (if stop < end then 5 * (end - stop) + 5 else 2)
    case Done(_, _, _) => 1
  }

  /** The consumer's positions are in order. */
  predicate Lined<T>(pc: Consumer<T>, b: nat)
    requires b > 0
  {
    match pc
    case Idle => true
    case AtSlot(_, at, end, _, _, _) => at <= end
    case Reading(_, start, at, end, _, _, _, _) => start <= at <= Stop(start, end, b) && start <= end
    case Emptying(_, at, stop, end, _, _, _, _) => at <= stop <= end
    case _ => pc.first <= pc.end
  }

  lemma InLine<T>(s: State<T>, u: nat)
    requires u < |s.cons| && ConsInv(s, s.cons[u]) && HollowOk(s.headers, s.tail, s.cons[u])
    ensures s.bs > 0 && Lined(s.cons[u], s.bs)
  {
    var pc := s.cons[u];
    if AsksNothing(pc) && pc.Reading? { StopIs(pc.start, s.bs); }
  }

  lemma StopIsAhead(start: nat, end: nat, b: nat)
    requires b > 0 && start <= end
    ensures start <= Stop(start, end, b) <= end && (start < end ==> start < Stop(start, end, b))
  {
    DivBounds(start, b);
  }

  lemma ConsumerNearer<T>(s: State<T>, pc: Consumer<T>)
    requires ConsumerOk(s, pc) && Lined(pc, s.bs) && !pc.Idle? && !pc.Done?
    ensures 0 <= LookupLeft(Moved(s, pc)) < LookupLeft(pc)
  {
    if pc.Reading? { StopIsAhead(pc.start, pc.end, s.bs); }
    hide Stop;
  }

  /** Consumers never wait: in every run each step of a consumer brings it closer to its end, whatever the producer and
      the other consumers do, and no other step takes it further from it. */
  lemma LookupEnds<T>(s0: State<T>, size: nat, schedule: seq<Action<T>>, u: nat, a: Action<T>)
    requires Init(s0, size) && u < |Run(s0, schedule).cons|
    requires !Run(s0, schedule).cons[u].Idle? && !Run(s0, schedule).cons[u].Done?
    ensures var s, s' := Run(s0, schedule), Step(Run(s0, schedule), a);
      && |s'.cons| == |s.cons|
      && (if a == Consume(u) then 0 <= LookupLeft(s'.cons[u]) < LookupLeft(s.cons[u]) else s'.cons[u] == s.cons[u])
  {
    var s := Run(s0, schedule);
    ReachableInv(s0, size, schedule);
    LookupIsStable(s0, size, schedule, u);
    ConsumerIs(s, u);
    InLine(s, u);
    ConsumerNearer(s, s.cons[u]);
    OthersCons(s, a, u);
    hide Step, ConsumerOk, LookupLeft, Inv, FrontsInv, HollowsInv, Moved, ProducerOk, ConsInv, HollowOk, Run, Init;
  }

  lemma ConsumerIs<T>(s: State<T>, u: nat)
    requires Inv(s) && HollowsInv(s) && u < |s.cons|
    ensures ConsInv(s, s.cons[u]) && HollowOk(s.headers, s.tail, s.cons[u])
  {
    hide IndexInv, BlocksInv, ProducerInv, FlagsInv, RingInv, CellsInv, ConsInv, HollowOk;
  }

  lemma OthersCons<T>(s: State<T>, a: Action<T>, u: nat)
    requires u < |s.cons| && !s.cons[u].Idle? && !s.cons[u].Done?
    ensures var s' := Step(s, a);
      && |s'.cons| == |s.cons|
      && (!a.Consume? || a.u != u ==> s'.cons[u] == s.cons[u])
      && (a.Consume? && a.u == u && ConsumerOk(s, s.cons[u]) ==> s'.cons[u] == Moved(s, s.cons[u]))
  {
    hide ProducerOk, ConsumerOk, Moved, Copied;
  }
}
