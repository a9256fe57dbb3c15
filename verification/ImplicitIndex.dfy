/** An implicit producer's sub-queue: its block index, its bulk rollback, and the return of drained
    blocks, as a step machine.

    One producer inserts blocks, singly or in bulk, and any number of consumers look blocks up, under any
    schedule; one step is one atomic access to shared memory (accesses to what only the producer writes
    are joined to the step that follows).  A single insertion takes the same steps as a bulk one that
    needs one block.  Obtaining a block, growing the index, and the size limit may each fail, at any time.

    Index entries are shared: growing allocates more of them and copies the old ring of pointers to the
    front of the new one, so an older header stays usable.  `uses`, `next`, `origin` and `known` are
    bookkeeping that no step's outcome depends on beyond naming the producer's own locals. */
module ImplicitIndex {
  import opened Arith
  import opened Sums

  /** INVALID_BLOCK_BASE: no multiple of a block size above one. */
  const INVALID: int := 1

  /** `Junk` is memory not yet written; `Null` a null pointer. */
  datatype Value = Junk | Null | Ptr(block: nat)

  datatype Entry = Entry(key: int, value: Value)

  /** `index` is the ring of pointers into the entries.  Block use k has slot (k - origin) modulo the
      capacity; `known` is the number of committed uses when the header was replaced. */
  datatype Header = Header(index: seq<nat>, tail: int, origin: int, known: nat)

  /** One use of a block: `live` while an index entry leads to it, `held` until it is given back. */
  datatype Use = Use(block: nat, live: bool, held: bool)

  datatype Place = Pool | InUse(k: nat)

  /** `todo` counts the blocks this call still needs. */
  datatype Producer =
    | Ready
    | Check(todo: nat)                 // look at the slot after the tail
    | StoreKey(todo: nat)
    | StoreTail(todo: nat)
    | Requisition(todo: nat)
    | StoreValue(todo: nat, block: nat)
    | DropTail                         // no block to be had: take the last insertion back
    | DropValue(entry: nat)
    | Undo(j: nat)                     // roll back the call's block number j
    | UndoTail(j: nat)
    | Return(j: nat)                   // give block number j back
    | Publish

  /** A consumer works through the n indices from i on, one block at a time. */
  datatype Consumer =
    | Idle
    | Claimed(i: nat, n: nat)
    | AtHeader(i: nat, n: nat, h: nat)
    | AtTail(i: nat, n: nat, h: nat, t: int)
    | AtEntry(i: nat, n: nat, h: nat, slot: int)
    | Reading(i: nat, n: nat, h: nat, slot: int, block: nat)
    | Clearing(i: nat, n: nat, h: nat, slot: int, block: nat, k: nat)    // saw block use k become empty
    | Releasing(i: nat, n: nat, h: nat, slot: int, block: nat, k: nat)

  datatype State = State(bs: nat, entries: seq<Entry>, headers: seq<Header>, prod: Producer, want: nat,
                         tailIndex: nat, headIndex: nat, count: seq<nat>, place: seq<Place>,
                         cons: seq<Consumer>, uses: seq<Use>, committed: nat, next: int)

  /** `ok` is false when the size limit, an index allocation or a block allocation says no; `block` is the
      block the pool hands out. */
  datatype Action =
    | Enqueue(count: nat)
    | Produce(ok: bool, full: bool, block: nat)
    | Claim(u: nat, n: nat)
    | Consume(u: nat)

  function Slot(h: Header, k: int): int
    requires h.index != []
  {
    (k - h.origin) % |h.index|
  }

  function Cur(s: State): Header
    requires s.headers != []
  {
    s.headers[|s.headers| - 1]
  }

  /** The pointer in slot i, wrapped to the capacity. */
  function At(h: Header, i: int): nat
    requires h.index != []
  {
    h.index[i % |h.index|]
  }

  /** The entry of block use k. */
  function EntryOf(h: Header, k: int): nat
    requires h.index != []
  {
    At(h, k - h.origin)
  }

  function SetTail(s: State, tail: int, next: int): State
    requires s.headers != [] && Cur(s).index != []
  {
    s.(headers := s.headers[|s.headers| - 1 := Cur(s).(tail := tail % |Cur(s).index|)], next := next)
  }

  function SetKey(s: State, e: nat, key: int): State
    requires e < |s.entries|
  {
    s.(entries := s.entries[e := s.entries[e].(key := key)])
  }

  function SetValue(s: State, e: nat, v: Value): State
    requires e < |s.entries|
  {
    s.(entries := s.entries[e := s.entries[e].(value := v)])
  }

  /** The ring from the slot after the tail on, then as many pointers to new entries. */
  function GrownIndex(h: Header, n: nat): (index: seq<nat>)
    requires h.index != []
    ensures |index| == 2 * |h.index|
    ensures forall i :: 0 <= i < |h.index| ==> index[i] == At(h, h.tail + 1 + i)
    ensures forall i :: |h.index| <= i < |index| ==> index[i] == n + (i - |h.index|)
  {
    var ring: nat -> nat := i => At(h, h.tail + 1 + i);
    var rest: nat -> nat := i => n + i;
    seq<nat>(|h.index|, ring) + seq<nat>(|h.index|, rest)
  }

  /** new_block_index: as many fresh entries as there are old ones, behind the old ring, which starts from
      the slot after the tail. */
  function Grow(s: State): State
    requires s.headers != [] && Cur(s).index != []
  {
    var h, c := Cur(s), |Cur(s).index|;
    s.(entries := s.entries + seq(c, _ => Entry(INVALID, Junk)),
       headers := s.headers[|s.headers| - 1 := h.(known := s.committed)]
                  + [Header(GrownIndex(h, |s.entries|), c - 1, s.next - c, 0)])
  }

  /** The slot a lookup of index i arrives at, from tail slot t of header h. */
  function LookUp(s: State, h: Header, t: int, i: int): int
    requires s.bs > 0 && h.index != [] && 0 <= t < |h.index| && h.index[t] < |s.entries|
  {
    var base := i - i % s.bs;
    (t + (base - s.entries[h.index[t]].key) / s.bs) % |h.index|
  }

  /** Every pointer the producer follows is in range. */
  predicate Sound(s: State) {
    && s.bs > 1 && s.committed <= |s.uses|
    && (s.headers != [] ==>
          && Cur(s).index != [] && 0 <= Cur(s).tail < |Cur(s).index|
          && forall i :: 0 <= i < |Cur(s).index| ==> Cur(s).index[i] < |s.entries|)
    && (match s.prod
        case StoreKey(_) => s.headers != []
        case StoreTail(_) => s.headers != []
        case StoreValue(_, _) => s.headers != []
        case DropTail => s.headers != []
        case DropValue(e) => e < |s.entries|
        case Undo(j) => s.committed + j < |s.uses| ==> s.headers != []
        case UndoTail(j) => s.headers != [] && s.committed + j < |s.uses|
        case Return(j) =>
          s.committed + j < |s.uses| ==> s.uses[s.committed + j].block < |s.place|
        case _ => true)
  }

  function ProducerStep(s: State, ok: bool, full: bool, block: nat): State
    requires Sound(s)
  {
    match s.prod
    case Ready => s
    case Check(todo) =>
      if full || s.headers == [] then s.(prod := Undo(0))
      else
        var e := s.entries[At(Cur(s), Cur(s).tail + 1)];
        if e.key == INVALID || e.value == Null then s.(prod := StoreKey(todo))
        else if ok then Grow(s).(prod := StoreKey(todo))
        else s.(prod := Undo(0))
    case StoreKey(todo) =>
      SetKey(s, At(Cur(s), Cur(s).tail + 1), |s.uses| * s.bs).(prod := StoreTail(todo))
    case StoreTail(todo) => SetTail(s, Cur(s).tail + 1, s.next + 1).(prod := Requisition(todo))
    case Requisition(todo) =>
      if !ok then s.(prod := DropTail)
      else if block < |s.place| && |s.count| == |s.place| && s.place[block] == Pool then
        s.(place := s.place[block := InUse(|s.uses|)], count := s.count[block := 0], prod := StoreValue(todo, block))
      else if block == |s.place| then
        s.(place := s.place + [InUse(|s.uses|)], count := s.count + [0], prod := StoreValue(todo, block))
      else s
    case StoreValue(todo, b) =>
      var s1 := SetValue(s, Cur(s).index[Cur(s).tail], Ptr(b)).(uses := s.uses + [Use(b, true, true)]);
      s1.(prod := if todo > 1 then Check(todo - 1) else Publish)
    case DropTail =>
      SetTail(s, Cur(s).tail - 1, s.next - 1).(prod := DropValue(Cur(s).index[Cur(s).tail]))
    case DropValue(e) => SetValue(s, e, Null).(prod := Undo(0))
    case Undo(j) =>
      if s.committed + j == |s.uses| then s.(prod := Return(0))
      else if s.committed + j < |s.uses| then
        var slot := LookUp(s, Cur(s), Cur(s).tail, (s.committed + j) * s.bs);
        var s1 := SetValue(s, At(Cur(s), slot), Null);
        s1.(uses := s.uses[s.committed + j := s.uses[s.committed + j].(live := false)], prod := UndoTail(j))
      else s
    case UndoTail(j) => SetTail(s, Cur(s).tail - 1, s.next - 1).(prod := Undo(j + 1))
    case Return(j) =>
      if s.committed + j < |s.uses| then
        var use := s.uses[s.committed + j];
        s.(place := s.place[use.block := Pool], uses := s.uses[s.committed + j := use.(held := false)],
           prod := Return(j + 1))
      else s.(uses := s.uses[..s.committed], prod := Ready)
    case Publish => s.(tailIndex := s.tailIndex + s.want, committed := |s.uses|, prod := Ready)
  }

  /** How many of the n indices from i on lie in the block of i. */
  function InBlock(i: nat, n: nat, b: nat): nat
    requires b > 0
  {
    var room := b - i % b;
    if n < room then n else room
  }

  /** On to the next block, if indices are left. */
  function NextRun(s: State, i: nat, n: nat, h: nat, slot: int): Consumer
    requires h < |s.headers| && s.headers[h].index != []
  {
    if n == 0 then Idle else AtEntry(i, n, h, (slot + 1) % |s.headers[h].index|)
  }

  /** The consumer's next step is defined: what it is about to follow is in range, it is about to read a
      block's address, and the block's counter stays within the block size. */
  predicate ConsumerOk(s: State, pc: Consumer) {
    && s.bs > 1
    && (pc.Claimed? ==> s.headers != [])
    && (!pc.Idle? && !pc.Claimed? ==> pc.h < |s.headers| && s.headers[pc.h].index != [])
    && (match pc
        case AtTail(_, _, h, t) =>
          && 0 <= t < |s.headers[h].index| && s.headers[h].index[t] < |s.entries|
          && s.entries[s.headers[h].index[t]].key != INVALID
        case AtEntry(_, _, h, slot) =>
          && 0 <= slot < |s.headers[h].index| && s.headers[h].index[slot] < |s.entries|
          && s.entries[s.headers[h].index[slot]].value.Ptr?
        case Reading(i, n, _, _, block) =>
          block < |s.count| && s.count[block] + InBlock(i, n, s.bs) <= s.bs
        case Clearing(_, _, h, slot, block, k) =>
          && 0 <= slot < |s.headers[h].index| && s.headers[h].index[slot] < |s.entries| && k < |s.uses|
        case Releasing(_, _, _, _, block, k) => block < |s.place| && k < |s.uses|
        case _ => true)
  }

  function ConsumerStep(s: State, u: nat): State
    requires u < |s.cons| && ConsumerOk(s, s.cons[u])
  {
    match s.cons[u]
    case Idle => s
    case Claimed(i, n) => s.(cons := s.cons[u := AtHeader(i, n, |s.headers| - 1)])
    case AtHeader(i, n, h) => s.(cons := s.cons[u := AtTail(i, n, h, s.headers[h].tail)])
    case AtTail(i, n, h, t) => s.(cons := s.cons[u := AtEntry(i, n, h, LookUp(s, s.headers[h], t, i))])
    case AtEntry(i, n, h, slot) =>
      s.(cons := s.cons[u := Reading(i, n, h, slot, s.entries[s.headers[h].index[slot]].value.block)])
    case Reading(i, n, h, slot, b) =>
      var m := InBlock(i, n, s.bs);
      s.(count := s.count[b := s.count[b] + m],
         cons := s.cons[u := if s.count[b] + m == s.bs then Clearing(i + m, n - m, h, slot, b, i / s.bs)
                             else NextRun(s, i + m, n - m, h, slot)])
    case Clearing(i, n, h, slot, b, k) =>
      SetValue(s, s.headers[h].index[slot], Null)
        .(uses := s.uses[k := s.uses[k].(live := false)], cons := s.cons[u := Releasing(i, n, h, slot, b, k)])
    case Releasing(i, n, h, slot, b, k) =>
      s.(place := s.place[b := Pool], uses := s.uses[k := s.uses[k].(held := false)],
         cons := s.cons[u := NextRun(s, i, n, h, slot)])
  }

  /** One step of the system.  A claim takes indices below the tail only, and is made only when something has
      been published, as module ImplicitDequeue establishes; it may be of no index at all. */
  function Step(s: State, a: Action): State {
    match a
    case Enqueue(count) =>
      if s.prod == Ready && s.bs > 0 then
        var todo := Ceil(s.tailIndex + count, s.bs) - s.committed;
        s.(want := count, prod := if todo > 0 then Check(todo) else Publish)
      else s
    case Produce(ok, full, block) => if Sound(s) then ProducerStep(s, ok, full, block) else s
    case Claim(u, n) =>
      if u < |s.cons| && s.cons[u] == Idle && 0 < s.tailIndex && s.headIndex + n <= s.tailIndex then
        s.(headIndex := s.headIndex + n, cons := s.cons[u := Claimed(s.headIndex, n)])
      else s
    case Consume(u) => if u < |s.cons| && ConsumerOk(s, s.cons[u]) then ConsumerStep(s, u) else s
  }

  function Run(s: State, schedule: seq<Action>): State
    decreases |schedule|
  {
    if schedule == [] then s else Run(Step(s, schedule[0]), schedule[1..])
  }

  /** The first index: as many unused entries as slots, in order. */
  ghost predicate NewIndex(entries: seq<Entry>, headers: seq<Header>, capacity: nat) {
    && |headers| == 1 && headers[0] == Header(headers[0].index, capacity - 1, 0, 0)
    && |headers[0].index| == capacity == |entries|
    && (forall i :: 0 <= i < capacity ==> headers[0].index[i] == i)
    && (forall e :: 0 <= e < capacity ==> entries[e] == Entry(INVALID, Junk))
  }

  /** A new producer: an empty index of some capacity, or none if it could not be allocated. */
  ghost predicate Init(s: State, capacity: nat) {
    && s.bs > 1 && capacity > 0
    && ((s.headers == [] && s.entries == []) || NewIndex(s.entries, s.headers, capacity))
    && s.prod == Ready && s.tailIndex == 0 && s.headIndex == 0 && s.want == 0
    && |s.count| == |s.place| && (forall b :: 0 <= b < |s.place| ==> s.place[b] == Pool)
    && s.uses == [] && s.committed == 0 && s.next == 0
    && (forall u :: 0 <= u < |s.cons| ==> s.cons[u] == Idle)
  }

  // ---------------------------------------------------------------- the invariant

  function Last(headers: seq<Header>): Header
    requires headers != []
  {
    headers[|headers| - 1]
  }

  predicate Keyed(entries: seq<Entry>, e: nat) { e < |entries| && entries[e].key != INVALID }

  /** A key in slot i belongs to a block use of that slot. */
  predicate KeyOk(bs: nat, key: int, h: Header, i: int)
    requires bs > 0 && h.index != []
  {
    key == INVALID || (key % bs == 0 && Slot(h, key / bs) == i)
  }

  ghost predicate HeaderOk(bs: nat, entries: seq<Entry>, h: Header) {
    && bs > 1 && h.index != [] && 0 <= h.tail < |h.index|
    && (forall i :: 0 <= i < |h.index| ==> h.index[i] < |entries| && KeyOk(bs, entries[h.index[i]].key, h, i))
    && (forall i, j :: 0 <= i < j < |h.index| ==> h.index[i] != h.index[j])
  }

  /** Where two headers share an entry, they give it to the same block uses. */
  ghost predicate Congruent(h: Header, cur: Header) {
    && h.index != [] && cur.index != []
    && forall i, k {:trigger h.index[i], EntryOf(cur, k)} ::
         0 <= i < |h.index| && h.index[i] == EntryOf(cur, k) ==> i == Slot(h, k)
  }

  ghost predicate IndexInv(bs: nat, entries: seq<Entry>, headers: seq<Header>) {
    forall x {:trigger headers[x]} :: 0 <= x < |headers| ==>
      HeaderOk(bs, entries, headers[x]) && Congruent(headers[x], Last(headers))
  }

  /** The entry of use j was last inserted for it. */
  predicate Exact(bs: nat, entries: seq<Entry>, cur: Header, j: int) {
    cur.index != [] && EntryOf(cur, j) < |entries| && entries[EntryOf(cur, j)].key == j * bs
  }

  predicate Exacts(bs: nat, entries: seq<Entry>, cur: Header, lo: int, hi: int) {
    forall j :: lo <= j < hi ==> Exact(bs, entries, cur, j)
  }

  /** A live use is among the newest that fit, its entry leads to its block, and the entries of all later
      uses have their keys. */
  ghost predicate LiveAt(bs: nat, entries: seq<Entry>, cur: Header, k: int, block: nat, top: int) {
    && cur.index != [] && top - |cur.index| <= k && EntryOf(cur, k) < |entries|
    && entries[EntryOf(cur, k)] == Entry(k * bs, Ptr(block))
    && Exacts(bs, entries, cur, k, top)
  }

  ghost predicate LiveInv(bs: nat, entries: seq<Entry>, headers: seq<Header>, uses: seq<Use>, top: int) {
    forall k :: 0 <= k < |uses| && uses[k].live ==>
      headers != [] && LiveAt(bs, entries, Last(headers), k, uses[k].block, top)
  }

  predicate LeadsTo(bs: nat, entries: seq<Entry>, headers: seq<Header>, uses: seq<Use>, e: nat, k: int) {
    && 0 <= k < |uses| && uses[k].live && e < |entries| && entries[e] == Entry(k * bs, Ptr(uses[k].block))
    && headers != [] && Last(headers).index != [] && e == EntryOf(Last(headers), k)
  }

  /** An entry leads to a block only on behalf of a live use, and only that use's own entry does. */
  ghost predicate ValueInv(bs: nat, entries: seq<Entry>, headers: seq<Header>, uses: seq<Use>) {
    bs > 1 && forall e {:trigger entries[e]} :: 0 <= e < |entries| && entries[e].value.Ptr? ==>
      LeadsTo(bs, entries, headers, uses, e, entries[e].key / bs)
  }

  /** A replaced header still finds the live uses that were committed when it was replaced. */
  predicate Finds(entries: seq<Entry>, h: Header, cur: Header, k: int) {
    && h.index != [] && cur.index != [] && 0 <= h.tail < |h.index|
    && EntryOf(h, k) == EntryOf(cur, k) && Keyed(entries, h.index[h.tail])
  }

  ghost predicate OldInv(entries: seq<Entry>, headers: seq<Header>, uses: seq<Use>, committed: nat) {
    && (forall x :: 0 <= x < |headers| - 1 ==> headers[x].known <= committed)
    && (forall x, k {:trigger headers[x], uses[k]} ::
         0 <= x < |headers| - 1 && 0 <= k < |uses| && uses[k].live && k < headers[x].known ==>
           Finds(entries, headers[x], Last(headers), k))
  }

  /** One past the newest use that has a key. */
  function Top(prod: Producer, uses: seq<Use>): int {
    |uses| + if prod.Requisition? || prod.StoreValue? || prod.DropTail? then 1 else 0
  }

  /** How many of the call's blocks have been unlinked, and how many given back. */
  function Unlinked(prod: Producer, m: nat): nat {
    match prod
    case Undo(j) => j
    case UndoTail(j) => j + 1
    case Return(_) => m
    case _ => 0
  }

  function Returned(prod: Producer): nat { if prod.Return? then prod.j else 0 }

  predicate NextOk(prod: Producer, size: nat, committed: nat, next: int) {
    match prod
    case Requisition(_) => next == size + 1
    case StoreValue(_, _) => next == size + 1
    case DropTail => next == size + 1
    case Undo(j) => next == size - j
    case UndoTail(j) => next == size - j
    case Return(_) => next == committed
    case _ => next == size
  }

  predicate Inserting(prod: Producer) {
    prod.StoreKey? || prod.StoreTail? || prod.Requisition? || prod.StoreValue? || prod.DropTail? || prod.DropValue?
  }

  predicate HasKey(prod: Producer) {
    prod.StoreTail? || prod.Requisition? || prod.StoreValue? || prod.DropTail? || prod.DropValue?
  }

  ghost predicate TailInv(s: State) {
    && s.committed <= |s.uses| && NextOk(s.prod, |s.uses|, s.committed, s.next)
    && (s.headers == [] ==> s.uses == [] && !Inserting(s.prod))
    && (s.headers != [] ==> Cur(s).index != [] && Cur(s).tail == Slot(Cur(s), s.next - 1))
  }

  /** Of the call's uses the first have been unlinked, and of those the first given back. */
  predicate TentativeOk(entries: seq<Entry>, headers: seq<Header>, use: Use, k: int, unlinked: int, returned: int) {
    && (use.live <==> k >= unlinked) && (use.held <==> k >= returned)
    && headers != [] && Last(headers).index != [] && Keyed(entries, EntryOf(Last(headers), k))
  }

  /** The uses this call has made, which it may still take back. */
  ghost predicate TentativeInv(s: State) {
    s.committed <= |s.uses| && forall k {:trigger s.uses[k]} :: s.committed <= k < |s.uses| ==>
      TentativeOk(s.entries, s.headers, s.uses[k], k, s.committed + Unlinked(s.prod, |s.uses| - s.committed),
                  s.committed + Returned(s.prod))
  }

  /** The counters of those blocks are reset. */
  ghost predicate ZeroInv(count: seq<nat>, uses: seq<Use>, committed: nat) {
    forall k :: committed <= k < |uses| && uses[k].live ==> uses[k].block < |count| && count[uses[k].block] == 0
  }

  /** The entry of the use being inserted. */
  ghost predicate InsertInv(s: State) {
    Inserting(s.prod) ==>
      && s.headers != [] && Cur(s).index != []
      && var e := EntryOf(Cur(s), |s.uses|);
      && e < |s.entries| && !s.entries[e].value.Ptr?
      && (HasKey(s.prod) ==> s.entries[e].key == |s.uses| * s.bs)
      && (s.prod.DropValue? ==> s.prod.entry == e)
      && (s.prod.StoreKey? || s.prod.StoreTail? ==>
            forall k :: 0 <= k < |s.uses| && s.uses[k].live ==> |s.uses| - |Cur(s).index| < k)
  }

  /** An entry that has a key has had its value written, except the one of use n while it is inserted. */
  ghost predicate JunkInv(entries: seq<Entry>, headers: seq<Header>, n: nat, inserting: bool) {
    forall e {:trigger entries[e]} :: 0 <= e < |entries| && entries[e].value == Junk ==>
      || entries[e].key == INVALID
      || (inserting && headers != [] && Last(headers).index != [] && e == EntryOf(Last(headers), n))
  }

  /** The tail lies in the last committed block, or at its end. */
  predicate Bounds(bs: nat, tailIndex: nat, headIndex: nat, committed: nat) {
    bs > 1 && committed == Ceil(tailIndex, bs) && headIndex <= tailIndex <= committed * bs
  }

  /** How many block uses there are once the call's elements are in. */
  function Target(bs: nat, tailIndex: nat, want: nat): int
    requires bs > 0
  {
    Ceil(tailIndex + want, bs)
  }

  predicate StageOk(prod: Producer, size: nat, committed: nat, target: int) {
    match prod
    case Ready => size == committed
    case Check(todo) => todo > 0 && size + todo == target
    case StoreKey(todo) => todo > 0 && size + todo == target
    case StoreTail(todo) => todo > 0 && size + todo == target
    case Requisition(todo) => todo > 0 && size + todo == target
    case StoreValue(todo, _) => todo > 0 && size + todo == target
    case Publish => size == target
    case Undo(j) => committed + j <= size
    case UndoTail(j) => committed + j < size
    case Return(j) => committed + j <= size
    case _ => true
  }

  ghost predicate CallInv(s: State) {
    && Bounds(s.bs, s.tailIndex, s.headIndex, s.committed)
    && StageOk(s.prod, |s.uses|, s.committed, Target(s.bs, s.tailIndex, s.want))
  }

  /** A block is in use exactly where a use holds it, or where it is about to be inserted. */
  ghost predicate PlaceInv(place: seq<Place>, count: seq<nat>, uses: seq<Use>, prod: Producer) {
    && |count| == |place|
    && (forall k :: 0 <= k < |uses| ==> uses[k].live ==> uses[k].held)
    && (forall k :: 0 <= k < |uses| && uses[k].held ==>
          uses[k].block < |place| && place[uses[k].block] == InUse(k))
    && (forall b :: 0 <= b < |place| && place[b].InUse? ==> HeldBy(uses, prod, place[b].k, b))
    && (prod.StoreValue? ==>
          prod.block < |place| && place[prod.block] == InUse(|uses|) && count[prod.block] == 0)
  }

  predicate HeldBy(uses: seq<Use>, prod: Producer, k: nat, b: nat) {
    || (k < |uses| && uses[k].held && uses[k].block == b)
    || (k == |uses| && prod.StoreValue? && prod.block == b)
  }

  // ---- what consumers still owe

  /** How many of the n indices from i on lie in the block starting at `base`. */
  function Overlap(i: int, n: int, base: int, b: int): nat { Max0(Min(i + n, base + b) - Max(i, base)) }

  function Pending(pc: Consumer, base: int, b: int): nat {
    if pc.Idle? then 0 else Overlap(pc.i, pc.n, base, b)
  }

  predicate Closes(pc: Consumer, k: nat) { (pc.Clearing? || pc.Releasing?) && pc.k == k }

  function PendingW(base: int, b: int): Consumer -> nat { pc => Pending(pc, base, b) }
  function ClosingW(k: nat): Consumer -> nat { pc => if Closes(pc, k) then 1 else 0 }

  /** Elements of the block at `base` that no consumer has claimed. */
  function Unclaimed(head: int, base: int, b: int): nat { Max0(base + b - Max(head, base)) }

  function Unfinished(cons: seq<Consumer>, head: int, base: int, b: int): nat {
    Unclaimed(head, base, b) + Total(cons, PendingW(base, b))
  }

  /** The counter of a live block accounts for its elements; once it is full, exactly one consumer is
      about to unlink it, and after that to give it back. */
  ghost predicate CountOk(bs: nat, count: seq<nat>, head: int, cons: seq<Consumer>, use: Use, k: nat) {
    var left, closing := Unfinished(cons, head, k * bs, bs), Total(cons, ClosingW(k));
    if use.live then
      use.block < |count| && count[use.block] + left == bs && closing == (if left == 0 then 1 else 0)
    else left == 0 && closing == if use.held then 1 else 0
  }

  ghost predicate CountInv(bs: nat, count: seq<nat>, head: int, cons: seq<Consumer>, uses: seq<Use>, committed: nat) {
    committed <= |uses| && forall k {:trigger uses[k]} :: 0 <= k < committed ==>
      CountOk(bs, count, head, cons, uses[k], k)
  }

  // ---- consumers

  /** A call that asked for no elements, on its way to the block of the index at the head when it claimed. */
  predicate AsksNothing(pc: Consumer) { !pc.Idle? && !pc.Clearing? && !pc.Releasing? && pc.n == 0 }

  /** Block use k has been published and has elements left that no consumer is done with. */
  predicate Unread(s: State, k: nat)
    requires s.bs > 0
  {
    k < s.committed && Unfinished(s.cons, s.headIndex, k * s.bs, s.bs) > 0
  }

  /** Calls that ask for nothing only step while their block has unread elements. */
  predicate Careful(s: State, a: Action) {
    a.Consume? && a.u < |s.cons| && AsksNothing(s.cons[a.u]) ==>
      s.bs > 0 && Unread(s, BlockOf(s.cons[a.u].i, s.bs))
  }

  predicate CarefulRun(s: State, schedule: seq<Action>)
    decreases |schedule|
  {
    schedule == [] || (Careful(s, schedule[0]) && CarefulRun(Step(s, schedule[0]), schedule[1..]))
  }

  /** How many indices a consumer's lookup is about: at least one. */
  function Size(pc: Consumer): nat
    requires !pc.Idle?
  {
    if AsksNothing(pc) then 1 else pc.n
  }

  function Known(headers: seq<Header>, x: nat, committed: nat): nat
    requires x < |headers|
  {
    if x == |headers| - 1 then committed else headers[x].known
  }

  predicate Loaded(bs: nat, headers: seq<Header>, committed: nat, pc: Consumer)
    requires !pc.Idle? && !pc.Claimed?
  {
    pc.h < |headers| && headers[pc.h].index != [] && pc.i + Size(pc) <= Known(headers, pc.h, committed) * bs
  }

  /** The consumer is done with block use k and, if it has indices left, goes on with the next. */
  predicate After(bs: nat, headers: seq<Header>, uses: seq<Use>, committed: nat, pc: Consumer, k: nat)
    requires (pc.Clearing? || pc.Releasing?) && bs > 0
  {
    && k < committed <= |uses| && uses[k].block == pc.block
    && pc.h < |headers| && headers[pc.h].index != [] && k < Known(headers, pc.h, committed)
    && pc.slot == Slot(headers[pc.h], k)
    && (pc.n > 0 ==> BlockOf(pc.i, bs) == k + 1)
  }

  ghost predicate ConsInv(bs: nat, entries: seq<Entry>, headers: seq<Header>, uses: seq<Use>, committed: nat,
                          count: seq<nat>, head: nat, pc: Consumer)
  {
    bs > 1 && (pc.Idle? || (
      && pc.i + pc.n <= head
      && (!pc.Claimed? ==> Loaded(bs, headers, committed, pc))
      && (match pc
          case AtTail(_, _, h, t) => 0 <= t < |headers[h].index| && Keyed(entries, headers[h].index[t])
          case AtEntry(i, _, h, slot) => slot == Slot(headers[h], BlockOf(i, bs))
          case Reading(i, n, h, slot, block) =>
            && slot == Slot(headers[h], BlockOf(i, bs))
            && BlockOf(i, bs) < committed <= |uses| && block == uses[BlockOf(i, bs)].block
          case Clearing(i, n, h, slot, block, k) =>
            && After(bs, headers, uses, committed, pc, k)
            && uses[k].live && block < |count| && count[block] == bs
          case Releasing(i, n, h, slot, block, k) =>
            && After(bs, headers, uses, committed, pc, k) && !uses[k].live && uses[k].held
            && block < |count| && count[block] == bs
          case _ => true)))
  }

  ghost predicate ConsAll(bs: nat, entries: seq<Entry>, headers: seq<Header>, uses: seq<Use>, committed: nat,
                          count: seq<nat>, head: nat, cons: seq<Consumer>)
  {
    forall u {:trigger cons[u]} :: 0 <= u < |cons| ==>
      ConsInv(bs, entries, headers, uses, committed, count, head, cons[u])
  }

  ghost predicate Inv(s: State) {
    && IndexInv(s.bs, s.entries, s.headers)
    && LiveInv(s.bs, s.entries, s.headers, s.uses, Top(s.prod, s.uses))
    && ValueInv(s.bs, s.entries, s.headers, s.uses)
    && OldInv(s.entries, s.headers, s.uses, s.committed)
    && TailInv(s) && TentativeInv(s) && InsertInv(s) && CallInv(s)
    && JunkInv(s.entries, s.headers, |s.uses|, HasKey(s.prod))
    && PlaceInv(s.place, s.count, s.uses, s.prod) && ZeroInv(s.count, s.uses, s.committed)
    && CountInv(s.bs, s.count, s.headIndex, s.cons, s.uses, s.committed)
    && ConsAll(s.bs, s.entries, s.headers, s.uses, s.committed, s.count, s.headIndex, s.cons)
  }

  // ---------------------------------------------------------------- arithmetic

  function BlockOf(i: nat, b: nat): nat
    requires b > 0
  {
    i / b
  }

  lemma BlockBelow(i: nat, n: nat, blocks: nat, b: nat)
    requires b > 0 && n > 0 && i + n <= blocks * b
    ensures i / b < blocks
  {
    DivBounds(i, b);
  }

  lemma BlockOfIndex(i: nat, k: int, b: nat)
    requires b > 0
    ensures i / b == k <==> k * b <= i < k * b + b
    ensures i / b < k ==> i < k * b && i - i % b + b <= k * b
    ensures i / b > k ==> i >= k * b + b
  {
    if i / b < k { MulMono(i / b + 1, k, b); assert (i / b + 1) * b == i / b * b + b; }
    if i / b > k { MulMono(k + 1, i / b, b); assert (k + 1) * b == k * b + b; }
  }

  /** Working through the first block of a range leaves the rest of the range to the other blocks. */
  lemma RunOverlap(i: nat, n: nat, k: int, b: nat)
    requires b > 0 && n > 0
    ensures var m := InBlock(i, n, b);
      && 0 < m <= n
      && (if k == i / b then Overlap(i, n, k * b, b) == m && Overlap(i + m, n - m, k * b, b) == 0
          else Overlap(i + m, n - m, k * b, b) == Overlap(i, n, k * b, b))
      && (m < n ==> (i + m) / b == i / b + 1)
  {
    BlockOfIndex(i, k, b);
    DivBounds(i, b);
    assert (i / b + 1) * b == i / b * b + b;
    DivExact(i / b + 1, b);
  }

  // ---------------------------------------------------------------- sums over consumers

  lemma SumsAfter(cons: seq<Consumer>, u: nat, pc: Consumer, head: int, base: int, b: int, k: nat)
    requires u < |cons|
    ensures Unfinished(cons[u := pc], head, base, b) + Pending(cons[u], base, b)
         == Unfinished(cons, head, base, b) + Pending(pc, base, b)
    ensures Total(cons[u := pc], ClosingW(k)) + ClosingW(k)(cons[u]) == Total(cons, ClosingW(k)) + ClosingW(k)(pc)
  {
    TotalUpdate(cons, PendingW(base, b), u, pc);
    TotalUpdate(cons, ClosingW(k), u, pc);
  }

  lemma CountSame(bs: nat, count: seq<nat>, head: int, cons: seq<Consumer>, uses: seq<Use>, committed: nat,
                  u: nat, pc: Consumer)
    requires CountInv(bs, count, head, cons, uses, committed) && u < |cons|
    requires !cons[u].Idle? && !pc.Idle? && pc.i == cons[u].i && pc.n == cons[u].n
    requires forall k: nat :: Closes(pc, k) == Closes(cons[u], k)
    ensures CountInv(bs, count, head, cons[u := pc], uses, committed)
  {
    forall k | 0 <= k < committed ensures CountOk(bs, count, head, cons[u := pc], uses[k], k) {
      SumsAfter(cons, u, pc, head, k * bs, bs, k);
    }
  }

  // ---------------------------------------------------------------- lookups

  lemma PendingLeft(cons: seq<Consumer>, head: int, b: nat, u: nat, k: nat)
    requires u < |cons| && b > 0 && !cons[u].Idle? && cons[u].n > 0 && k == BlockOf(cons[u].i, b)
    ensures Unfinished(cons, head, k * b, b) > 0
  {
    TotalMember(cons, PendingW(k * b, b), u);
  }

  lemma ClaimedBlock(s: State, i: nat, n: nat)
    requires CallInv(s) && n > 0 && i + n <= s.headIndex
    ensures s.bs > 1 && BlockOf(i, s.bs) < s.committed
  {
    BlockBelow(i, n, s.committed, s.bs);
  }

  /** A block with an unfinished element is live, and its counter is not full. */
  lemma BlockIsLive(s: State, u: nat)
    requires u < |s.cons| && CallInv(s) && CountInv(s.bs, s.count, s.headIndex, s.cons, s.uses, s.committed)
    requires s.bs > 1 && !s.cons[u].Idle? && s.cons[u].i + s.cons[u].n <= s.headIndex
    requires s.cons[u].n > 0 || Unread(s, BlockOf(s.cons[u].i, s.bs))
    ensures var k := BlockOf(s.cons[u].i, s.bs);
      && k < s.committed <= |s.uses| && s.uses[k].live
      && s.uses[k].block < |s.count| && s.count[s.uses[k].block] < s.bs
  {
    hide CallInv, BlockOf, Unfinished;
    var k := BlockOf(s.cons[u].i, s.bs);
    if s.cons[u].n > 0 {
      ClaimedBlock(s, s.cons[u].i, s.cons[u].n);
      PendingLeft(s.cons, s.headIndex, s.bs, u, k);
    }
    assert CountOk(s.bs, s.count, s.headIndex, s.cons, s.uses[k], k);
  }

  ghost predicate Structure(s: State) {
    && IndexInv(s.bs, s.entries, s.headers)
    && LiveInv(s.bs, s.entries, s.headers, s.uses, Top(s.prod, s.uses))
    && OldInv(s.entries, s.headers, s.uses, s.committed) && TailInv(s) && CallInv(s)
  }

  /** Through any header loaded since the use was committed, its entry is found. */
  lemma Found(s: State, x: nat, k: nat)
    requires Structure(s) && x < |s.headers| && k < |s.uses| && s.uses[k].live && k < Known(s.headers, x, s.committed)
    ensures var h := s.headers[x];
      && h.index != [] && EntryOf(h, k) == EntryOf(Cur(s), k) && EntryOf(h, k) < |s.entries|
      && s.entries[EntryOf(h, k)] == Entry(k * s.bs, Ptr(s.uses[k].block))
  {
    assert HeaderOk(s.bs, s.entries, s.headers[x]);
    assert LiveAt(s.bs, s.entries, Cur(s), k, s.uses[k].block, Top(s.prod, s.uses));
    if x < |s.headers| - 1 {
      assert Finds(s.entries, s.headers[x], Cur(s), k);
    }
  }


  /** The tail entry of such a header has a key. */
  lemma TailKeyed(s: State, x: nat, k: nat)
    requires Structure(s) && x < |s.headers| && k < |s.uses| && s.uses[k].live && k < Known(s.headers, x, s.committed)
    requires k < s.committed && TentativeOrder(s)
    ensures var h := s.headers[x]; 0 <= h.tail < |h.index| && Keyed(s.entries, h.index[h.tail])
  {
    if x == |s.headers| - 1 {
      assert Exact(s.bs, s.entries, Cur(s), s.next - 1);
      NotInvalid(s.next - 1, s.bs);
    }
  }

  /** The tail is never rewound below the committed uses. */
  predicate TentativeOrder(s: State) { s.committed <= s.next <= Top(s.prod, s.uses) }

  /** Whatever key the tail slot holds by now, the lookup arrives at the slot of its block. */
  lemma LookUpSlot(s: State, h: Header, t: int, i: nat)
    requires HeaderOk(s.bs, s.entries, h) && 0 <= t < |h.index| && Keyed(s.entries, h.index[t])
    ensures LookUp(s, h, t, i) == Slot(h, i / s.bs)
  {
    var key := s.entries[h.index[t]].key;
    assert KeyOk(s.bs, key, h, t);
    var m, k := key / s.bs, i / s.bs;
    assert i - i % s.bs - key == (k - m) * s.bs;
    DivExact(k - m, s.bs);
    ModAdd(m - h.origin, k - m, |h.index|);
  }

  // ---------------------------------------------------------------- consumer steps

  ghost predicate Cons(s: State, pc: Consumer) {
    ConsInv(s.bs, s.entries, s.headers, s.uses, s.committed, s.count, s.headIndex, pc)
  }

  ghost predicate Counts(s: State) {
    CountInv(s.bs, s.count, s.headIndex, s.cons, s.uses, s.committed)
  }

  ghost predicate AllCons(s: State) {
    ConsAll(s.bs, s.entries, s.headers, s.uses, s.committed, s.count, s.headIndex, s.cons)
  }

  predicate Looking(pc: Consumer) { pc.Claimed? || pc.AtHeader? || pc.AtTail? || pc.AtEntry? }

  /** A consumer looking for its block can take its next step. */
  lemma LookingOk(s: State, u: nat)
    requires Structure(s) && Counts(s) && u < |s.cons| && Cons(s, s.cons[u]) && Looking(s.cons[u])
    requires Careful(s, Consume(u))
    ensures ConsumerOk(s, s.cons[u])
    ensures s.cons[u].AtEntry? ==>
      var e := s.headers[s.cons[u].h].index[s.cons[u].slot];
      var k := BlockOf(s.cons[u].i, s.bs);
      k < |s.uses| && s.uses[k].live && s.entries[e] == Entry(k * s.bs, Ptr(s.uses[k].block))
  {
    var pc := s.cons[u];
    BlockIsLive(s, u);
    if pc.AtEntry? {
      BlockBelow(pc.i, Size(pc), Known(s.headers, pc.h, s.committed), s.bs);
    }
  }

  lemma LookHeader(s: State, pc: Consumer)
    requires Structure(s) && Cons(s, pc) && pc.Claimed? && s.headers != [] && BlockOf(pc.i, s.bs) < s.committed
    ensures Cons(s, AtHeader(pc.i, pc.n, |s.headers| - 1))
  {
    var k := BlockOf(pc.i, s.bs);
    BlockOfIndex(pc.i, k, s.bs);
    MulMono(k + 1, s.committed, s.bs);
    assert (k + 1) * s.bs == k * s.bs + s.bs;
    assert HeaderOk(s.bs, s.entries, Cur(s));
  }

  lemma LookTail(s: State, pc: Consumer)
    requires Structure(s) && Cons(s, pc) && pc.AtHeader?
    requires var k := BlockOf(pc.i, s.bs); k < s.committed <= |s.uses| && s.uses[k].live
    ensures Cons(s, AtTail(pc.i, pc.n, pc.h, s.headers[pc.h].tail))
  {
    BlockBelow(pc.i, Size(pc), Known(s.headers, pc.h, s.committed), s.bs);
    TailKeyed(s, pc.h, pc.i / s.bs);
    hide Structure;
  }

  lemma LookSlot(s: State, pc: Consumer)
    requires IndexInv(s.bs, s.entries, s.headers) && Cons(s, pc) && pc.AtTail?
    ensures s.headers[pc.h].index[pc.t] < |s.entries|
    ensures Cons(s, AtEntry(pc.i, pc.n, pc.h, LookUp(s, s.headers[pc.h], pc.t, pc.i)))
  {
    LookUpSlot(s, s.headers[pc.h], pc.t, pc.i);
  }

  /** A lookup step keeps what is known of its consumer. */
  lemma LookStep(s: State, u: nat)
    requires Structure(s) && Counts(s) && u < |s.cons| && Cons(s, s.cons[u]) && Looking(s.cons[u])
    requires Careful(s, Consume(u))
    ensures ConsumerOk(s, s.cons[u])
    ensures var s' := ConsumerStep(s, u);
      && |s'.cons| == |s.cons| && s' == s.(cons := s.cons[u := s'.cons[u]]) && Cons(s, s'.cons[u])
      && !s'.cons[u].Idle? && s'.cons[u].i == s.cons[u].i && s'.cons[u].n == s.cons[u].n
      && !s'.cons[u].Clearing? && !s'.cons[u].Releasing?
  {
    var pc := s.cons[u];
    BlockIsLive(s, u);
    LookingOk(s, u);
    if pc.Claimed? {
      LookHeader(s, pc);
    } else if pc.AtHeader? {
      LookTail(s, pc);
    } else if pc.AtTail? {
      LookSlot(s, pc);
    }
    hide Structure, Counts, LeadsTo, TailInv, CallInv, TentativeOrder;
  }

  /** What only concerns the producer does not depend on the consumers' own state. */
  lemma ProducerFrame(s: State, s': State)
    requires TailInv(s) && TentativeInv(s) && InsertInv(s) && CallInv(s)
    requires s' == s.(cons := s'.cons, count := s'.count, headIndex := s'.headIndex)
    requires s'.headIndex <= s.tailIndex
    ensures TailInv(s') && TentativeInv(s') && InsertInv(s') && CallInv(s')
  {}

  ghost predicate Shared(s: State) {
    && IndexInv(s.bs, s.entries, s.headers)
    && LiveInv(s.bs, s.entries, s.headers, s.uses, Top(s.prod, s.uses))
    && ValueInv(s.bs, s.entries, s.headers, s.uses)
    && OldInv(s.entries, s.headers, s.uses, s.committed)
    && TailInv(s) && TentativeInv(s) && InsertInv(s) && CallInv(s)
    && JunkInv(s.entries, s.headers, |s.uses|, HasKey(s.prod))
  }

  lemma SharedFrame(s: State, s': State)
    requires Shared(s) && s' == s.(cons := s'.cons, count := s'.count, headIndex := s'.headIndex)
    requires s'.headIndex <= s.tailIndex
    ensures Shared(s')
  {
    hide IndexInv, LiveInv, ValueInv, OldInv, TailInv, TentativeInv, InsertInv, CallInv;
    ProducerFrame(s, s');
  }

  lemma LookKeeps(s: State, u: nat)
    requires Inv(s) && u < |s.cons| && Looking(s.cons[u]) && Careful(s, Consume(u))
    ensures ConsumerOk(s, s.cons[u]) && Inv(ConsumerStep(s, u))
  {
    hide IndexInv, LiveInv, ValueInv, OldInv, TailInv, TentativeInv, InsertInv, CallInv, PlaceInv, CountInv;
    hide ConsInv, ConsumerStep, ConsumerOk;
    LookStep(s, u);
    var s' := ConsumerStep(s, u);
    CountSame(s.bs, s.count, s.headIndex, s.cons, s.uses, s.committed, u, s'.cons[u]);
    HeadBelow(s);
    SharedFrame(s, s');
  }

  lemma HeadBelow(s: State)
    requires CallInv(s)
    ensures s.headIndex <= s.tailIndex
  {}

  lemma ClaimCounts(s: State, u: nat, n: nat)
    requires Counts(s) && u < |s.cons| && s.cons[u] == Idle && s.bs > 0
    ensures var s' := s.(headIndex := s.headIndex + n, cons := s.cons[u := Claimed(s.headIndex, n)]); Counts(s')
  {
    var pc := Claimed(s.headIndex, n);
    forall k | 0 <= k < s.committed
      ensures CountOk(s.bs, s.count, s.headIndex + n, s.cons[u := pc], s.uses[k], k)
    {
      SumsAfter(s.cons, u, pc, s.headIndex, k * s.bs, s.bs, k);
    }
  }

  lemma ClaimKeeps(s: State, u: nat, n: nat)
    requires Inv(s) && u < |s.cons| && s.cons[u] == Idle && 0 < s.tailIndex && s.headIndex + n <= s.tailIndex
    ensures Inv(Step(s, Claim(u, n)))
  {
    BlockSize(s);
    hide IndexInv, LiveInv, ValueInv, OldInv, TailInv, TentativeInv, InsertInv, CallInv, PlaceInv, CountInv, ConsAll;
    ClaimCounts(s, u, n);
    SharedFrame(s, Step(s, Claim(u, n)));
  }

  lemma BlockSize(s: State)
    requires CallInv(s)
    ensures s.bs > 1
  {}

  // ---- marking

  /** Marking the run's elements: the counter of its block moves up by the run's length, which it has room
      for. */
  lemma MarkRoom(s: State, u: nat)
    requires CallInv(s) && Counts(s) && u < |s.cons| && Cons(s, s.cons[u]) && s.cons[u].Reading?
    requires s.cons[u].n > 0
    ensures ConsumerOk(s, s.cons[u])
    ensures var pc := s.cons[u];
      var k := BlockOf(pc.i, s.bs);
      && k < s.committed <= |s.uses| && s.uses[k].live && s.uses[k].block == pc.block < |s.count|
      && s.count[pc.block] + InBlock(pc.i, pc.n, s.bs) <= s.bs && s.count[pc.block] < s.bs
  {
    var pc := s.cons[u];
    var k := BlockOf(pc.i, s.bs);
    RunOverlap(pc.i, pc.n, k, s.bs);
    TotalMember(s.cons, PendingW(k * s.bs, s.bs), u);
  }

  /** The consumer after marking. */
  function Marked(s: State, pc: Consumer): Consumer
    requires pc.Reading? && ConsumerOk(s, pc)
  {
    var m := InBlock(pc.i, pc.n, s.bs);
    if s.count[pc.block] + m == s.bs then Clearing(pc.i + m, pc.n - m, pc.h, pc.slot, pc.block, pc.i / s.bs)
    else NextRun(s, pc.i + m, pc.n - m, pc.h, pc.slot)
  }

  lemma MarkedPending(s: State, pc: Consumer, k: nat)
    requires pc.Reading? && ConsumerOk(s, pc) && pc.n > 0
    ensures var q := Marked(s, pc);
      var m := InBlock(pc.i, pc.n, s.bs);
      && (if k == BlockOf(pc.i, s.bs)
          then Pending(pc, k * s.bs, s.bs) == m && Pending(q, k * s.bs, s.bs) == 0
               && (Closes(q, k) <==> s.count[pc.block] + m == s.bs)
          else Pending(q, k * s.bs, s.bs) == Pending(pc, k * s.bs, s.bs) && !Closes(q, k))
  {
    RunOverlap(pc.i, pc.n, k, s.bs);
  }

  lemma MarkCountAt(s: State, u: nat, k: nat)
    requires u < |s.cons| && s.cons[u].Reading? && ConsumerOk(s, s.cons[u]) && s.cons[u].n > 0
    requires k < |s.uses| && CountOk(s.bs, s.count, s.headIndex, s.cons, s.uses[k], k)
    requires s.uses[k].live && k != BlockOf(s.cons[u].i, s.bs) ==> s.uses[k].block != s.cons[u].block
    requires k == BlockOf(s.cons[u].i, s.bs) ==> s.uses[k].live && s.uses[k].block == s.cons[u].block
    ensures var s' := ConsumerStep(s, u); CountOk(s.bs, s'.count, s.headIndex, s'.cons, s.uses[k], k)
  {
    var pc := s.cons[u];
    SumsAfter(s.cons, u, Marked(s, pc), s.headIndex, k * s.bs, s.bs, k);
    MarkedPending(s, pc, k);
    hide Marked, Pending, InBlock, Unfinished, BlockOf;
  }

  lemma MarkCounts(s: State, u: nat)
    requires CallInv(s) && Counts(s) && u < |s.cons| && Cons(s, s.cons[u]) && s.cons[u].Reading?
    requires s.cons[u].n > 0
    requires Separate(s.place, s.uses) && (forall k :: 0 <= k < |s.uses| ==> s.uses[k].live ==> s.uses[k].held)
    ensures ConsumerOk(s, s.cons[u]) && Counts(ConsumerStep(s, u))
  {
    MarkRoom(s, u);
    var s' := ConsumerStep(s, u);
    hide CountOk, ConsumerOk, CallInv, InBlock;
    forall k | 0 <= k < s.committed ensures CountOk(s.bs, s'.count, s.headIndex, s'.cons, s.uses[k], k) {
      MarkCountAt(s, u, k);
    }
  }

  predicate Separate(place: seq<Place>, uses: seq<Use>) {
    forall k :: 0 <= k < |uses| && uses[k].held ==> uses[k].block < |place| && place[uses[k].block] == InUse(k)
  }

  lemma MarkCons(s: State, u: nat)
    requires CallInv(s) && Counts(s) && u < |s.cons| && AllCons(s) && s.cons[u].Reading?
    requires s.cons[u].n > 0
    requires HeadersSized(s.headers)
    ensures ConsumerOk(s, s.cons[u]) && AllCons(ConsumerStep(s, u))
  {
    var pc := s.cons[u];
    MarkRoom(s, u);
    var s' := ConsumerStep(s, u);
    RunOverlap(pc.i, pc.n, pc.i / s.bs, s.bs);
    BlockBelow(pc.i, pc.n, Known(s.headers, pc.h, s.committed), s.bs);
    NextSlot(s.headers[pc.h], pc.i / s.bs);
    forall v | 0 <= v < |s'.cons| ensures Cons(s', s'.cons[v]) {
    }
  }

  predicate HeadersSized(headers: seq<Header>) { forall x :: 0 <= x < |headers| ==> headers[x].index != [] }

  lemma Sized(bs: nat, entries: seq<Entry>, headers: seq<Header>)
    requires IndexInv(bs, entries, headers)
    ensures HeadersSized(headers) && (headers != [] ==> entries != [])
  {
    if headers != [] { assert HeaderOk(bs, entries, headers[0]) && headers[0].index[0] < |entries|; }
  }

  lemma NextSlot(h: Header, k: int)
    requires h.index != []
    ensures (Slot(h, k) + 1) % |h.index| == Slot(h, k + 1)
  {
    ModAdd(k - h.origin, 1, |h.index|);
  }

  lemma MarkPlace(s: State, u: nat)
    requires CallInv(s) && Counts(s) && u < |s.cons| && Cons(s, s.cons[u]) && s.cons[u].Reading?
    requires s.cons[u].n > 0
    requires PlaceInv(s.place, s.count, s.uses, s.prod)
    ensures Separate(s.place, s.uses) && (forall k :: 0 <= k < |s.uses| ==> s.uses[k].live ==> s.uses[k].held)
    requires ZeroInv(s.count, s.uses, s.committed)
    ensures ConsumerOk(s, s.cons[u]) && PlaceInv(s.place, ConsumerStep(s, u).count, s.uses, s.prod)
    ensures ZeroInv(ConsumerStep(s, u).count, s.uses, s.committed)
  {
    MarkRoom(s, u);
  }

  lemma MarkKeeps(s: State, u: nat)
    requires Inv(s) && u < |s.cons| && s.cons[u].Reading? && s.cons[u].n > 0
    ensures ConsumerOk(s, s.cons[u]) && Inv(ConsumerStep(s, u))
  {
    hide IndexInv, LiveInv, ValueInv, OldInv, TailInv, TentativeInv, InsertInv, CallInv, PlaceInv, CountInv, ZeroInv;
    hide ConsInv, ConsumerOk;
    Sized(s.bs, s.entries, s.headers);
    MarkPlace(s, u);
    MarkCounts(s, u);
    MarkCons(s, u);
    HeadBelow(s);
    SharedFrame(s, ConsumerStep(s, u));
  }

  /** Marking nothing, in a block with elements left. */
  lemma MarkNothing(s: State, u: nat)
    requires Inv(s) && u < |s.cons| && s.cons[u].Reading? && s.cons[u].n == 0 && Careful(s, Consume(u))
    ensures ConsumerOk(s, s.cons[u]) && ConsumerStep(s, u) == s.(cons := s.cons[u := Idle])
  {
    hide IndexInv, LiveInv, ValueInv, OldInv, TailInv, TentativeInv, InsertInv, PlaceInv, ZeroInv, JunkInv;
    var pc := s.cons[u];
    assert Cons(s, pc);
    BlockIsLive(s, u);
    DivBounds(pc.i, s.bs);
    assert s.count[pc.block := s.count[pc.block] + 0] == s.count;
  }

  lemma LeaveCounts(s: State, u: nat)
    requires Counts(s) && u < |s.cons| && AsksNothing(s.cons[u])
    ensures Counts(s.(cons := s.cons[u := Idle]))
  {
    forall k | 0 <= k < s.committed
      ensures CountOk(s.bs, s.count, s.headIndex, s.cons[u := Idle], s.uses[k], k)
    {
      SumsAfter(s.cons, u, Idle, s.headIndex, k * s.bs, s.bs, k);
    }
  }

  lemma MarkNothingKeeps(s: State, u: nat)
    requires Inv(s) && u < |s.cons| && s.cons[u].Reading? && s.cons[u].n == 0 && Careful(s, Consume(u))
    ensures ConsumerOk(s, s.cons[u]) && Inv(ConsumerStep(s, u))
  {
    hide IndexInv, LiveInv, ValueInv, OldInv, TailInv, TentativeInv, InsertInv, CallInv, PlaceInv, CountInv, ZeroInv;
    hide ConsumerOk, ConsumerStep;
    MarkNothing(s, u);
    LeaveCounts(s, u);
    HeadBelow(s);
    SharedFrame(s, s.(cons := s.cons[u := Idle]));
  }

  // ---- unlinking

  ghost predicate EntryIs(bs: nat, entries: seq<Entry>, e: nat, k: int, uses: seq<Use>) {
    e < |entries| && 0 <= k < |uses| && entries[e] == Entry(k * bs, Ptr(uses[k].block))
  }

  lemma IndexValue(bs: nat, entries: seq<Entry>, headers: seq<Header>, e: nat, v: Value)
    requires IndexInv(bs, entries, headers) && e < |entries|
    ensures IndexInv(bs, entries[e := entries[e].(value := v)], headers)
  {
    var entries' := entries[e := entries[e].(value := v)];
    forall x | 0 <= x < |headers|
      ensures HeaderOk(bs, entries', headers[x]) && Congruent(headers[x], Last(headers))
    {}
  }

  lemma ExactsValue(bs: nat, entries: seq<Entry>, h: Header, lo: int, hi: int, e: nat, v: Value)
    requires Exacts(bs, entries, h, lo, hi) && e < |entries|
    ensures Exacts(bs, entries[e := entries[e].(value := v)], h, lo, hi)
  {
    var entries' := entries[e := entries[e].(value := v)];
    forall j | lo <= j < hi ensures Exact(bs, entries', h, j) {
      assert Exact(bs, entries, h, j);
    }
  }

  lemma UnlinkLive(bs: nat, entries: seq<Entry>, headers: seq<Header>, uses: seq<Use>, top: int, e: nat, k: nat)
    requires LiveInv(bs, entries, headers, uses, top) && EntryIs(bs, entries, e, k, uses) && bs > 0
    ensures LiveInv(bs, entries[e := entries[e].(value := Null)], headers, uses[k := uses[k].(live := false)], top)
  {
    var entries' := entries[e := entries[e].(value := Null)];
    forall m | 0 <= m < |uses| && m != k && uses[m].live
      ensures headers != [] && LiveAt(bs, entries', Last(headers), m, uses[m].block, top)
    {
      ExactsValue(bs, entries, Last(headers), m, top, e, Null);
    }
  }

  lemma UnlinkValue(bs: nat, entries: seq<Entry>, headers: seq<Header>, uses: seq<Use>, e: nat, k: nat)
    requires ValueInv(bs, entries, headers, uses) && EntryIs(bs, entries, e, k, uses)
    ensures ValueInv(bs, entries[e := entries[e].(value := Null)], headers, uses[k := uses[k].(live := false)])
  {
    var entries' := entries[e := entries[e].(value := Null)];
    var uses' := uses[k := uses[k].(live := false)];
    forall d | 0 <= d < |entries'| && entries'[d].value.Ptr?
      ensures LeadsTo(bs, entries', headers, uses', d, entries'[d].key / bs)
    {}
  }

  lemma UnlinkOld(entries: seq<Entry>, headers: seq<Header>, uses: seq<Use>, committed: nat, e: nat, k: nat)
    requires OldInv(entries, headers, uses, committed) && e < |entries| && k < |uses|
    ensures OldInv(entries[e := entries[e].(value := Null)], headers, uses[k := uses[k].(live := false)], committed)
  {
    var entries' := entries[e := entries[e].(value := Null)];
    var uses' := uses[k := uses[k].(live := false)];
    forall x, m | 0 <= x < |headers| - 1 && 0 <= m < |uses'| && uses'[m].live && m < headers[x].known
      ensures Finds(entries', headers[x], Last(headers), m)
    {}
  }

  lemma ClearFound(s: State, u: nat)
    requires Structure(s) && u < |s.cons| && Cons(s, s.cons[u]) && s.cons[u].Clearing?
    ensures ConsumerOk(s, s.cons[u])
    ensures var pc := s.cons[u];
      EntryIs(s.bs, s.entries, s.headers[pc.h].index[pc.slot], pc.k, s.uses) && s.uses[pc.k].live && pc.k < s.committed
  {}

  lemma ClearTentative(s: State, u: nat)
    requires TentativeInv(s) && s.committed <= |s.uses|
    requires u < |s.cons| && ConsumerOk(s, s.cons[u]) && s.cons[u].Clearing? && s.cons[u].k < s.committed
    ensures TentativeInv(ConsumerStep(s, u))
  {
    hide Unlinked, Returned;
  }

  lemma ClearProducer(s: State, u: nat)
    requires TailInv(s) && TentativeInv(s) && InsertInv(s) && CallInv(s)
    requires u < |s.cons| && ConsumerOk(s, s.cons[u]) && s.cons[u].Clearing? && s.cons[u].k < s.committed
    ensures var s' := ConsumerStep(s, u); TailInv(s') && TentativeInv(s') && InsertInv(s') && CallInv(s')
  {
    ClearTentative(s, u);
    hide TentativeInv, InsertInv, NextOk, StageOk, Bounds, Target;
  }

  lemma ClearShared(s: State, u: nat)
    requires Shared(s) && u < |s.cons| && Cons(s, s.cons[u]) && s.cons[u].Clearing?
    ensures ConsumerOk(s, s.cons[u]) && Shared(ConsumerStep(s, u))
  {
    hide IndexInv, LiveInv, ValueInv, OldInv, TailInv, TentativeInv, InsertInv, CallInv, ConsInv;
    var pc := s.cons[u];
    ClearFound(s, u);
    var e := s.headers[pc.h].index[pc.slot];
    IndexValue(s.bs, s.entries, s.headers, e, Null);
    UnlinkLive(s.bs, s.entries, s.headers, s.uses, Top(s.prod, s.uses), e, pc.k);
    UnlinkValue(s.bs, s.entries, s.headers, s.uses, e, pc.k);
    UnlinkOld(s.entries, s.headers, s.uses, s.committed, e, pc.k);
    ClearProducer(s, u);
  }

  /** Only one consumer closes a block. */
  lemma OnlyCloser(s: State, u: nat, v: nat, k: nat)
    requires Counts(s) && u < |s.cons| && v < |s.cons| && u != v && k < s.committed
    requires Closes(s.cons[u], k)
    ensures !Closes(s.cons[v], k)
  {
    assert CountOk(s.bs, s.count, s.headIndex, s.cons, s.uses[k], k);
    if Closes(s.cons[v], k) { TotalPair(s.cons, ClosingW(k), u, v); }
  }

  lemma ClearCounts(s: State, u: nat)
    requires Counts(s) && u < |s.cons| && ConsumerOk(s, s.cons[u]) && s.cons[u].Clearing? && s.cons[u].k < s.committed
    requires s.uses[s.cons[u].k].live && s.uses[s.cons[u].k].held && s.uses[s.cons[u].k].block == s.cons[u].block
    requires s.cons[u].block < |s.count| && s.count[s.cons[u].block] == s.bs
    ensures Counts(ConsumerStep(s, u))
  {
    var s' := ConsumerStep(s, u);
    forall k | 0 <= k < s.committed ensures CountOk(s.bs, s.count, s.headIndex, s'.cons, s'.uses[k], k) {
      SumsAfter(s.cons, u, s'.cons[u], s.headIndex, k * s.bs, s.bs, k);
    }
  }

  /** A consumer that is not closing a block does not see it unlinked or given back. */
  lemma OtherUse(bs: nat, entries: seq<Entry>, headers: seq<Header>, uses: seq<Use>, committed: nat,
                 count: seq<nat>, head: nat, pc: Consumer, k: nat, use: Use, e: nat, v: Value)
    requires ConsInv(bs, entries, headers, uses, committed, count, head, pc)
    requires k < |uses| && use.block == uses[k].block && !Closes(pc, k) && e < |entries|
    ensures ConsInv(bs, entries, headers, uses[k := use], committed, count, head, pc)
    ensures ConsInv(bs, entries[e := entries[e].(value := v)], headers, uses[k := use], committed, count, head, pc)
  {}

  lemma ClearOwn(s: State, u: nat)
    requires u < |s.cons| && Cons(s, s.cons[u]) && ConsumerOk(s, s.cons[u]) && s.cons[u].Clearing?
    requires s.cons[u].k < s.committed <= |s.uses| && s.uses[s.cons[u].k].held
    ensures Cons(ConsumerStep(s, u), ConsumerStep(s, u).cons[u])
  {}

  lemma ClearCons(s: State, u: nat)
    requires Counts(s) && AllCons(s) && u < |s.cons| && ConsumerOk(s, s.cons[u]) && s.cons[u].Clearing?
    requires s.cons[u].k < s.committed <= |s.uses| && s.uses[s.cons[u].k].held
    ensures AllCons(ConsumerStep(s, u))
  {
    hide ConsInv, CountInv;
    var pc := s.cons[u];
    var s' := ConsumerStep(s, u);
    forall v | 0 <= v < |s'.cons| ensures Cons(s', s'.cons[v]) {
      if v == u {
        ClearOwn(s, u);
      } else {
        OnlyCloser(s, u, v, pc.k);
        OtherUse(s.bs, s.entries, s.headers, s.uses, s.committed, s.count, s.headIndex, s.cons[v], pc.k,
                 s.uses[pc.k].(live := false), s.headers[pc.h].index[pc.slot], Null);
      }
    }
  }

  lemma ClearPlace(place: seq<Place>, count: seq<nat>, uses: seq<Use>, prod: Producer, k: nat)
    requires PlaceInv(place, count, uses, prod) && k < |uses|
    ensures PlaceInv(place, count, uses[k := uses[k].(live := false)], prod)
  {
    var uses' := uses[k := uses[k].(live := false)];
    forall b | 0 <= b < |place| && place[b].InUse? ensures HeldBy(uses', prod, place[b].k, b) {
    }
  }

  lemma ClearKeeps(s: State, u: nat)
    requires Inv(s) && u < |s.cons| && s.cons[u].Clearing?
    ensures ConsumerOk(s, s.cons[u]) && Inv(ConsumerStep(s, u))
  {
    var pc := s.cons[u];
    hide IndexInv, LiveInv, ValueInv, OldInv, TailInv, TentativeInv, InsertInv, CallInv, PlaceInv, CountInv, ConsAll;
    hide ConsInv, ConsumerOk;
    ClearShared(s, u);
    ClearCounts(s, u);
    ClearCons(s, u);
    ClearPlace(s.place, s.count, s.uses, s.prod, pc.k);
  }

  // ---- giving back

  predicate SameUse(p: Use, q: Use) { p.block == q.block && p.live == q.live }

  /** Who holds a block does not matter to the index. */
  lemma HeldFrame(s: State, s': State)
    requires Shared(s) && |s'.uses| == |s.uses| && s' == s.(uses := s'.uses, place := s'.place, cons := s'.cons)
    requires forall k :: 0 <= k < |s.uses| ==> SameUse(s'.uses[k], s.uses[k])
    requires TentativeInv(s')
    ensures Shared(s')
  {
    HeldProducer(s, s');
    hide IndexInv, LiveInv, ValueInv, OldInv, TailInv, TentativeInv, InsertInv, CallInv;
  }

  lemma HeldIndex(bs: nat, entries: seq<Entry>, headers: seq<Header>, uses: seq<Use>, uses': seq<Use>,
                  committed: nat, top: int)
    requires LiveInv(bs, entries, headers, uses, top) && ValueInv(bs, entries, headers, uses)
    requires OldInv(entries, headers, uses, committed)
    requires |uses'| == |uses| && forall k :: 0 <= k < |uses| ==> SameUse(uses'[k], uses[k])
    ensures LiveInv(bs, entries, headers, uses', top) && ValueInv(bs, entries, headers, uses')
    ensures OldInv(entries, headers, uses', committed)
  {
    forall k | 0 <= k < |uses'| && uses'[k].live
      ensures headers != [] && LiveAt(bs, entries, Last(headers), k, uses'[k].block, top)
    {}
    forall e | 0 <= e < |entries| && entries[e].value.Ptr?
      ensures LeadsTo(bs, entries, headers, uses', e, entries[e].key / bs)
    {}
    forall x, m | 0 <= x < |headers| - 1 && 0 <= m < |uses'| && uses'[m].live && m < headers[x].known
      ensures Finds(entries, headers[x], Last(headers), m)
    {}
  }

  lemma HeldProducer(s: State, s': State)
    requires TailInv(s) && InsertInv(s) && CallInv(s)
    requires |s'.uses| == |s.uses| && s' == s.(uses := s'.uses, place := s'.place, cons := s'.cons)
    requires forall k :: 0 <= k < |s.uses| ==> SameUse(s'.uses[k], s.uses[k])
    ensures TailInv(s') && InsertInv(s') && CallInv(s')
  {
    forall k | 0 <= k < |s'.uses| && s'.uses[k].live ensures s.uses[k].live {
    }
  }

  lemma ReleaseCounts(s: State, u: nat)
    requires Counts(s) && u < |s.cons| && ConsumerOk(s, s.cons[u]) && s.cons[u].Releasing? && s.cons[u].k < s.committed
    requires !s.uses[s.cons[u].k].live && s.uses[s.cons[u].k].held
    ensures Counts(ConsumerStep(s, u))
  {
    var s' := ConsumerStep(s, u);
    forall k | 0 <= k < s.committed ensures CountOk(s.bs, s.count, s.headIndex, s'.cons, s'.uses[k], k) {
      SumsAfter(s.cons, u, s'.cons[u], s.headIndex, k * s.bs, s.bs, k);
    }
  }

  lemma ReleaseOwn(s: State, u: nat)
    requires u < |s.cons| && Cons(s, s.cons[u]) && ConsumerOk(s, s.cons[u]) && s.cons[u].Releasing?
    requires s.cons[u].k < s.committed <= |s.uses| && HeadersSized(s.headers)
    ensures Cons(ConsumerStep(s, u), ConsumerStep(s, u).cons[u])
  {
    NextSlot(s.headers[s.cons[u].h], s.cons[u].k);
  }

  lemma ReleaseCons(s: State, u: nat)
    requires Counts(s) && AllCons(s) && u < |s.cons| && ConsumerOk(s, s.cons[u]) && s.cons[u].Releasing?
    requires s.cons[u].k < s.committed <= |s.uses| && HeadersSized(s.headers) && s.entries != []
    ensures AllCons(ConsumerStep(s, u))
  {
    hide ConsInv, CountInv;
    var pc := s.cons[u];
    var s' := ConsumerStep(s, u);
    forall v | 0 <= v < |s'.cons| ensures Cons(s', s'.cons[v]) {
      if v == u {
        ReleaseOwn(s, u);
      } else {
        OnlyCloser(s, u, v, pc.k);
        OtherUse(s.bs, s.entries, s.headers, s.uses, s.committed, s.count, s.headIndex, s.cons[v], pc.k,
                 s.uses[pc.k].(held := false), 0, s.entries[0].value);
      }
    }
  }

  lemma ReleasePlace(place: seq<Place>, count: seq<nat>, uses: seq<Use>, prod: Producer, k: nat)
    requires PlaceInv(place, count, uses, prod) && k < |uses| && uses[k].held && !uses[k].live
    ensures uses[k].block < |place|
    ensures PlaceInv(place[uses[k].block := Pool], count, uses[k := uses[k].(held := false)], prod)
  {
    var uses' := uses[k := uses[k].(held := false)];
    var place' := place[uses[k].block := Pool];
    forall b | 0 <= b < |place'| && place'[b].InUse? ensures HeldBy(uses', prod, place'[b].k, b) {
    }
  }

  lemma ReleaseTentative(s: State, k: nat, block: nat)
    requires TentativeInv(s) && k < s.committed <= |s.uses| && block < |s.place|
    ensures TentativeInv(s.(place := s.place[block := Pool], uses := s.uses[k := s.uses[k].(held := false)]))
  {}

  lemma ReleaseKeeps(s: State, u: nat)
    requires Inv(s) && u < |s.cons| && s.cons[u].Releasing?
    ensures ConsumerOk(s, s.cons[u]) && Inv(ConsumerStep(s, u))
  {
    var pc := s.cons[u];
    var s' := s.(place := s.place[pc.block := Pool], uses := s.uses[pc.k := s.uses[pc.k].(held := false)]);
    hide IndexInv, LiveInv, ValueInv, OldInv, TailInv, TentativeInv, InsertInv, CallInv, PlaceInv, CountInv, ConsAll;
    hide ConsInv;
    ReleaseTentative(s, pc.k, pc.block);
    Sized(s.bs, s.entries, s.headers);
    ReleasePlace(s.place, s.count, s.uses, s.prod, pc.k);
    HeldFrame(s, s');
    SharedFrame(s', ConsumerStep(s, u));
    ReleaseCounts(s, u);
    ReleaseCons(s, u);
  }

  lemma ConsumeKeeps(s: State, u: nat)
    requires Inv(s) && u < |s.cons| && Careful(s, Consume(u))
    ensures ConsumerOk(s, s.cons[u]) && Inv(ConsumerStep(s, u))
  {
    var pc := s.cons[u];
    if Looking(pc) {
      LookKeeps(s, u);
    } else if pc.Reading? {
      if pc.n > 0 { MarkKeeps(s, u); } else { MarkNothingKeeps(s, u); }
    } else if pc.Clearing? {
      ClearKeeps(s, u);
    } else if pc.Releasing? {
      ReleaseKeeps(s, u);
    }
  }

  // ---------------------------------------------------------------- producer steps

  /** What a consumer relies on: headers keep their pointers, keys stay, committed uses and their counters
      do not change under it. */
  ghost predicate Extends(s: State, s': State) {
    && s'.bs == s.bs && s'.cons == s.cons && s'.headIndex == s.headIndex
    && |s.headers| <= |s'.headers| && s.committed <= s'.committed <= |s'.uses| && s.committed <= |s.uses|
    && (forall x :: 0 <= x < |s.headers| ==>
          && s'.headers[x].index == s.headers[x].index && s'.headers[x].origin == s.headers[x].origin
          && Known(s.headers, x, s.committed) <= Known(s'.headers, x, s'.committed))
    && (forall e: nat :: Keyed(s.entries, e) ==> Keyed(s'.entries, e))
    && (forall k :: 0 <= k < s.committed ==> s'.uses[k] == s.uses[k])
    && (forall k :: 0 <= k < s.committed && (s.uses[k].live || s.uses[k].held) && s.uses[k].block < |s.count| ==>
          s.uses[k].block < |s'.count| && s'.count[s.uses[k].block] == s.count[s.uses[k].block])
  }

  lemma LoadedExtends(s: State, s': State, pc: Consumer)
    requires Extends(s, s') && !pc.Idle? && !pc.Claimed? && Loaded(s.bs, s.headers, s.committed, pc)
    ensures Loaded(s'.bs, s'.headers, s'.committed, pc)
    ensures pc.h < |s.headers| && s.headers[pc.h].index != []
    ensures Known(s.headers, pc.h, s.committed) <= Known(s'.headers, pc.h, s'.committed)
  {
    MulMono(Known(s.headers, pc.h, s.committed), Known(s'.headers, pc.h, s'.committed), s.bs);
  }

  lemma ConsExtends(s: State, s': State, pc: Consumer)
    requires Extends(s, s') && Cons(s, pc)
    ensures Cons(s', pc)
  {
    hide Loaded, Known, Slot, BlockOf;
    if !pc.Idle? && !pc.Claimed? {
      LoadedExtends(s, s', pc);
      SameRing(s.headers[pc.h], s'.headers[pc.h]);
    }
  }

  lemma AllConsExtends(s: State, s': State)
    requires Extends(s, s') && AllCons(s)
    ensures AllCons(s')
  {
    forall v | 0 <= v < |s'.cons| ensures Cons(s', s'.cons[v]) {
      hide ConsInv, Extends;
      ConsExtends(s, s', s.cons[v]);
    }
  }

  /** Live uses are held, and held blocks have counters. */
  predicate Sited(uses: seq<Use>, blocks: nat) {
    forall k :: 0 <= k < |uses| ==> (uses[k].live ==> uses[k].held) && (uses[k].held ==> uses[k].block < blocks)
  }

  lemma CountsExtends(s: State, s': State)
    requires Extends(s, s') && Counts(s) && s'.committed == s.committed
    requires Sited(s.uses, |s.count|)
    ensures Counts(s')
  {
    forall k | 0 <= k < s'.committed ensures CountOk(s'.bs, s'.count, s'.headIndex, s'.cons, s'.uses[k], k) {
      hide Unfinished;
    }
  }

  ghost predicate Rest(s: State) {
    PlaceInv(s.place, s.count, s.uses, s.prod) && ZeroInv(s.count, s.uses, s.committed) && Counts(s) && AllCons(s)
  }

  lemma RestExtends(s: State, s': State)
    requires Extends(s, s') && Rest(s) && s'.committed == s.committed
    requires s'.uses == s.uses && s'.place == s.place && s'.count == s.count
    requires !s.prod.StoreValue? && !s'.prod.StoreValue?
    ensures Rest(s')
  {
    PlaceProd(s.place, s.count, s.uses, s.prod, s'.prod);
    hide Extends, CountInv, ConsAll, ZeroInv;
    AllConsExtends(s, s');
  }

  lemma PlaceProd(place: seq<Place>, count: seq<nat>, uses: seq<Use>, prod: Producer, prod': Producer)
    requires PlaceInv(place, count, uses, prod) && !prod.StoreValue? && !prod'.StoreValue?
    ensures PlaceInv(place, count, uses, prod')
    ensures Sited(uses, |count|)
  {
    forall b | 0 <= b < |place| && place[b].InUse? ensures HeldBy(uses, prod', place[b].k, b) {
    }
  }

  lemma MoveExtends(s: State, s': State)
    requires s' == s.(prod := s'.prod, want := s'.want) && s.committed <= |s.uses|
    ensures Extends(s, s')
  {}

  lemma StartParts(s: State, count: nat)
    requires TailInv(s) && TentativeInv(s) && CallInv(s) && s.prod == Ready
    ensures var s' := Step(s, Enqueue(count));
      && s' == s.(prod := s'.prod, want := s'.want) && Top(s'.prod, s.uses) == Top(s.prod, s.uses)
      && TailInv(s') && TentativeInv(s') && InsertInv(s') && CallInv(s') && !s'.prod.StoreValue? && !HasKey(s'.prod)
  {
    CeilMono(s.tailIndex, s.tailIndex + count, s.bs);
  }

  lemma StartKeeps(s: State, count: nat)
    requires Inv(s) && s.prod == Ready
    ensures Inv(Step(s, Enqueue(count)))
  {
    hide IndexInv, LiveInv, ValueInv, OldInv, TailInv, TentativeInv, InsertInv, CallInv, PlaceInv, CountInv, ConsAll;
    hide ZeroInv, Step, Extends;
    var s' := Step(s, Enqueue(count));
    StartParts(s, count);
    MoveExtends(s, s');
    RestExtends(s, s');
  }

  lemma CommittedWithin(s: State)
    requires TailInv(s)
    ensures s.committed <= |s.uses|
  {}

  // ---- looking at the next slot

  /** The slot after the tail is the one for the use after the newest. */
  lemma NextEntry(s: State)
    requires s.headers != [] && Cur(s).index != [] && Cur(s).tail == Slot(Cur(s), s.next - 1)
    ensures At(Cur(s), Cur(s).tail + 1) == EntryOf(Cur(s), s.next)
    ensures Cur(s).index[Cur(s).tail] == EntryOf(Cur(s), s.next - 1)
    ensures (Cur(s).tail + 1) % |Cur(s).index| == Slot(Cur(s), s.next)
    ensures (Cur(s).tail - 1) % |Cur(s).index| == Slot(Cur(s), s.next - 2)
  {
    ModAdd(s.next - 1 - Cur(s).origin, 1, |Cur(s).index|);
    ModAdd(s.next - 1 - Cur(s).origin, -1, |Cur(s).index|);
  }

  lemma SameSlot(h: Header, k: int)
    requires h.index != []
    ensures EntryOf(h, k) == EntryOf(h, k + |h.index|)
  {
    ModShift(k - h.origin, 1, |h.index|);
  }

  /** A slot that may be taken belongs to no live use. */
  lemma SlotIsFree(bs: nat, entries: seq<Entry>, headers: seq<Header>, uses: seq<Use>)
    requires LiveInv(bs, entries, headers, uses, |uses|) && ValueInv(bs, entries, headers, uses)
    requires headers != [] && Last(headers).index != [] && EntryOf(Last(headers), |uses|) < |entries|
    requires var e := entries[EntryOf(Last(headers), |uses|)]; e.key == INVALID || e.value == Null
    ensures !entries[EntryOf(Last(headers), |uses|)].value.Ptr?
    ensures forall k :: 0 <= k < |uses| && uses[k].live ==> |uses| - |Last(headers).index| < k
  {
    var cur, top := Last(headers), |uses|;
    forall k | 0 <= k < |uses| && uses[k].live ensures top - |cur.index| < k {
      SameSlot(cur, k);
    }
  }

  lemma NotInvalid(k: int, b: nat)
    requires b > 1
    ensures k * b != INVALID
  {}

  lemma TentativeSame(s: State, s': State)
    requires TentativeInv(s) && s' == s.(prod := s'.prod, want := s'.want) && s.committed <= |s.uses|
    requires Unlinked(s'.prod, |s.uses| - s.committed) == Unlinked(s.prod, |s.uses| - s.committed)
    requires Returned(s'.prod) == Returned(s.prod)
    ensures TentativeInv(s')
  {
    hide Unlinked, Returned;
  }

  lemma CheckParts(s: State, s': State)
    requires TailInv(s) && TentativeInv(s) && CallInv(s) && s.prod.Check?
    requires s' == s.(prod := Undo(0)) || (s' == s.(prod := StoreKey(s.prod.todo)) && s.headers != [])
    ensures TailInv(s') && TentativeInv(s') && CallInv(s')
  {
    TentativeSame(s, s');
    hide TentativeInv, Target, Slot;
    hide Bounds;
  }

  /** Every pointer of the current header is in range, so the producer's steps are defined. */
  lemma ProducerSound(s: State)
    requires IndexInv(s.bs, s.entries, s.headers) && TailInv(s) && TentativeInv(s) && InsertInv(s) && CallInv(s)
    requires PlaceInv(s.place, s.count, s.uses, s.prod)
    ensures Sound(s)
  {}

  lemma CheckInsert(s: State)
    requires Shared(s) && s.prod.Check? && s.headers != []
    requires Cur(s).index != [] && EntryOf(Cur(s), |s.uses|) < |s.entries|
    requires var e := s.entries[EntryOf(Cur(s), |s.uses|)]; e.key == INVALID || e.value == Null
    ensures InsertInv(s.(prod := StoreKey(s.prod.todo)))
  {
    hide IndexInv, LiveInv, ValueInv, OldInv, TailInv, TentativeInv, CallInv;
    SlotIsFree(s.bs, s.entries, s.headers, s.uses);
  }

  /** The slot looked at is that of the next use. */
  lemma CheckLooks(s: State)
    requires IndexInv(s.bs, s.entries, s.headers) && TailInv(s) && s.prod.Check? && s.headers != []
    ensures s.next == |s.uses| && Cur(s).index != [] && EntryOf(Cur(s), |s.uses|) < |s.entries|
    ensures At(Cur(s), Cur(s).tail + 1) == EntryOf(Cur(s), |s.uses|)
  {
    NextEntry(s);
  }

  lemma CheckShared(s: State, s': State)
    requires Shared(s) && s.prod.Check?
    requires || s' == s.(prod := Undo(0))
             || (s' == s.(prod := StoreKey(s.prod.todo)) && InsertInv(s') && s.headers != [])
    ensures Shared(s')
  {
    hide IndexInv, LiveInv, ValueInv, OldInv, TailInv, TentativeInv, CallInv;
    CheckParts(s, s');
  }

  /** Looking at the slot, without growing the index. */
  lemma CheckKeeps(s: State, ok: bool, full: bool, block: nat)
    requires Inv(s) && s.prod.Check? && Sound(s) && |ProducerStep(s, ok, full, block).headers| == |s.headers|
    ensures Inv(ProducerStep(s, ok, full, block))
  {
    hide IndexInv, LiveInv, ValueInv, OldInv, TailInv, TentativeInv, InsertInv, CallInv, PlaceInv, CountInv, ConsAll;
    hide ZeroInv, Extends, At;
    var s' := ProducerStep(s, ok, full, block);
    if !full && s.headers != [] {
      CheckLooks(s);
      if s'.prod.StoreKey? { CheckInsert(s); }
    }
    CheckShared(s, s');
    MoveExtends(s, s');
    RestExtends(s, s');
  }

  // ---- writing a key

  lemma OtherEntries(h: Header, k: int, m: int)
    requires h.index != [] && 0 < m - k < |h.index|
    requires forall i, j :: 0 <= i < j < |h.index| ==> h.index[i] != h.index[j]
    ensures EntryOf(h, k) != EntryOf(h, m)
  {
    ModDistinct(k - h.origin, m - h.origin, |h.index|);
  }

  lemma KeyIndex(bs: nat, entries: seq<Entry>, headers: seq<Header>, m: nat)
    requires IndexInv(bs, entries, headers) && headers != []
    ensures Last(headers).index != [] && EntryOf(Last(headers), m) < |entries|
    ensures var e := EntryOf(Last(headers), m);
      IndexInv(bs, entries[e := entries[e].(key := m * bs)], headers)
  {
    var e := EntryOf(Last(headers), m);
    var entries' := entries[e := entries[e].(key := m * bs)];
    DivExact(m, bs);
    forall x | 0 <= x < |headers|
      ensures HeaderOk(bs, entries', headers[x]) && Congruent(headers[x], Last(headers))
    {}
  }

  /** Changing the entry of use m does not touch those of the uses just before it. */
  lemma OtherExacts(bs: nat, entries: seq<Entry>, h: Header, k: int, m: int, entry: Entry)
    requires HeaderOk(bs, entries, h) && Exacts(bs, entries, h, k, m) && m - |h.index| < k
    requires EntryOf(h, m) < |entries|
    ensures Exacts(bs, entries[EntryOf(h, m) := entry], h, k, m)
  {
    var entries' := entries[EntryOf(h, m) := entry];
    forall j | k <= j < m ensures Exact(bs, entries', h, j) {
      assert Exact(bs, entries, h, j);
      OtherEntries(h, j, m);
    }
  }

  lemma KeyLive(bs: nat, entries: seq<Entry>, headers: seq<Header>, uses: seq<Use>, m: nat)
    requires LiveInv(bs, entries, headers, uses, m) && headers != [] && HeaderOk(bs, entries, Last(headers))
    requires EntryOf(Last(headers), m) < |entries| && |uses| == m
    requires forall k :: 0 <= k < |uses| && uses[k].live ==> m - |Last(headers).index| < k
    ensures var e := EntryOf(Last(headers), m);
      LiveInv(bs, entries[e := entries[e].(key := m * bs)], headers, uses, m)
  {
    var e := EntryOf(Last(headers), m);
    var entries' := entries[e := entries[e].(key := m * bs)];
    forall k | 0 <= k < |uses| && uses[k].live
      ensures headers != [] && LiveAt(bs, entries', Last(headers), k, uses[k].block, m)
    {
      OtherEntries(Last(headers), k, m);
      OtherExacts(bs, entries, Last(headers), k, m, entries[e].(key := m * bs));
    }
  }

  lemma KeyValue(bs: nat, entries: seq<Entry>, headers: seq<Header>, uses: seq<Use>, e: nat, key: int)
    requires ValueInv(bs, entries, headers, uses) && e < |entries| && !entries[e].value.Ptr?
    ensures ValueInv(bs, entries[e := entries[e].(key := key)], headers, uses)
  {
    var entries' := entries[e := entries[e].(key := key)];
    forall d | 0 <= d < |entries'| && entries'[d].value.Ptr?
      ensures LeadsTo(bs, entries', headers, uses, d, entries'[d].key / bs)
    {}
  }

  lemma KeyOld(entries: seq<Entry>, headers: seq<Header>, uses: seq<Use>, committed: nat, e: nat, key: int)
    requires OldInv(entries, headers, uses, committed) && e < |entries| && key != INVALID
    ensures OldInv(entries[e := entries[e].(key := key)], headers, uses, committed)
  {
    var entries' := entries[e := entries[e].(key := key)];
    forall x, k | 0 <= x < |headers| - 1 && 0 <= k < |uses| && uses[k].live && k < headers[x].known
      ensures Finds(entries', headers[x], Last(headers), k)
    {}
  }

  lemma KeyParts(s: State, s': State, e: nat)
    requires TailInv(s) && TentativeInv(s) && InsertInv(s) && CallInv(s) && s.prod.StoreKey?
    requires e < |s.entries| && e == EntryOf(Cur(s), |s.uses|)
    requires s' == SetKey(s, e, |s.uses| * s.bs).(prod := StoreTail(s.prod.todo))
    ensures TailInv(s') && TentativeInv(s') && InsertInv(s') && CallInv(s')
  {}

  lemma CurOk(s: State)
    requires IndexInv(s.bs, s.entries, s.headers) && s.headers != []
    ensures HeaderOk(s.bs, s.entries, Cur(s)) && Cur(s).index != []
    ensures forall k :: EntryOf(Cur(s), k) < |s.entries|
  {}

  lemma StoreKeyFacts(s: State)
    requires InsertInv(s) && TailInv(s) && s.prod.StoreKey?
    ensures s.headers != [] && Cur(s).index != [] && EntryOf(Cur(s), |s.uses|) < |s.entries|
    ensures !s.entries[EntryOf(Cur(s), |s.uses|)].value.Ptr? && s.next == |s.uses|
    ensures At(Cur(s), Cur(s).tail + 1) == EntryOf(Cur(s), |s.uses|)
    ensures forall k :: 0 <= k < |s.uses| && s.uses[k].live ==> |s.uses| - |Last(s.headers).index| < k
  {
    NextEntry(s);
  }

  lemma KeyExtends(s: State, s': State, e: nat, key: int)
    requires e < |s.entries| && key != INVALID && s.committed <= |s.uses|
    requires s' == SetKey(s, e, key).(prod := s'.prod)
    ensures Extends(s, s')
  {}

  lemma KeyShared(s: State, s': State, e: nat)
    requires Shared(s) && s.prod.StoreKey? && s.headers != [] && Cur(s).index != []
    requires e < |s.entries| && e == EntryOf(Cur(s), |s.uses|)
    requires s' == SetKey(s, e, |s.uses| * s.bs).(prod := StoreTail(s.prod.todo))
    ensures Shared(s')
  {
    hide IndexInv, LiveInv, ValueInv, OldInv, TentativeInv, InsertInv, CallInv, HeaderOk, TailInv, EntryOf;
    StoreKeyFacts(s);
    CurOk(s);
    KeyIndex(s.bs, s.entries, s.headers, |s.uses|);
    KeyLive(s.bs, s.entries, s.headers, s.uses, |s.uses|);
    KeyValue(s.bs, s.entries, s.headers, s.uses, e, |s.uses| * s.bs);
    KeyOld(s.entries, s.headers, s.uses, s.committed, e, |s.uses| * s.bs);
    KeyParts(s, s', e);
  }

  lemma KeyKeeps(s: State, ok: bool, full: bool, block: nat)
    requires Inv(s) && s.prod.StoreKey? && Sound(s)
    ensures Inv(ProducerStep(s, ok, full, block))
  {
    hide IndexInv, LiveInv, ValueInv, OldInv, TentativeInv, InsertInv, CallInv, PlaceInv, CountInv, ConsAll;
    hide ZeroInv, HeaderOk, TailInv, Extends;
    StoreKeyFacts(s);
    var s' := ProducerStep(s, ok, full, block);
    var e := EntryOf(Cur(s), |s.uses|);
    KeyShared(s, s', e);
    KeyExtends(s, s', e, |s.uses| * s.bs);
    RestExtends(s, s');
  }

  // ---- moving the tail

  lemma TailIndexInv(bs: nat, entries: seq<Entry>, headers: seq<Header>, tail: int)
    requires IndexInv(bs, entries, headers) && headers != [] && 0 <= tail < |Last(headers).index|
    ensures IndexInv(bs, entries, headers[|headers| - 1 := Last(headers).(tail := tail)])
  {
    var headers' := headers[|headers| - 1 := Last(headers).(tail := tail)];
    forall x | 0 <= x < |headers'|
      ensures HeaderOk(bs, entries, headers'[x]) && Congruent(headers'[x], Last(headers'))
    {
      SameRing(Last(headers), Last(headers'));
    }
  }

  lemma SameRing(h: Header, h': Header)
    requires h.index != [] && h'.index == h.index && h'.origin == h.origin
    ensures forall k :: Slot(h', k) == Slot(h, k) && EntryOf(h', k) == EntryOf(h, k)
  {}

  lemma ExactsRing(bs: nat, entries: seq<Entry>, h: Header, h': Header, lo: int, hi: int)
    requires Exacts(bs, entries, h, lo, hi) && h.index != [] && h'.index == h.index && h'.origin == h.origin
    ensures Exacts(bs, entries, h', lo, hi)
  {
    forall j | lo <= j < hi ensures Exact(bs, entries, h', j) {
      assert Exact(bs, entries, h, j);
    }
  }

  lemma TailRest(bs: nat, entries: seq<Entry>, headers: seq<Header>, uses: seq<Use>, committed: nat, top: int,
      tail: int)
    requires LiveInv(bs, entries, headers, uses, top) && ValueInv(bs, entries, headers, uses)
    requires OldInv(entries, headers, uses, committed) && headers != [] && Last(headers).index != []
    ensures var headers' := headers[|headers| - 1 := Last(headers).(tail := tail)];
      && LiveInv(bs, entries, headers', uses, top) && ValueInv(bs, entries, headers', uses)
      && OldInv(entries, headers', uses, committed)
  {
    var headers' := headers[|headers| - 1 := Last(headers).(tail := tail)];
    forall k | 0 <= k < |uses| && uses[k].live
      ensures headers' != [] && LiveAt(bs, entries, Last(headers'), k, uses[k].block, top)
    {
      ExactsRing(bs, entries, Last(headers), Last(headers'), k, top);
    }
    forall e | 0 <= e < |entries| && entries[e].value.Ptr?
      ensures LeadsTo(bs, entries, headers', uses, e, entries[e].key / bs)
    {}
    forall x, k | 0 <= x < |headers'| - 1 && 0 <= k < |uses| && uses[k].live && k < headers'[x].known
      ensures Finds(entries, headers'[x], Last(headers'), k)
    {}
  }

  lemma TopDown(bs: nat, entries: seq<Entry>, headers: seq<Header>, uses: seq<Use>, top: int, top': int)
    requires LiveInv(bs, entries, headers, uses, top) && top' <= top
    ensures LiveInv(bs, entries, headers, uses, top')
  {
    forall k | 0 <= k < |uses| && uses[k].live
      ensures headers != [] && LiveAt(bs, entries, Last(headers), k, uses[k].block, top')
    {}
  }

  lemma TailExtends(s: State, s': State)
    requires s.headers != [] && s'.headers != [] && s.committed <= |s.uses|
    requires s' == s.(headers := s.headers[|s.headers| - 1 := Cur(s).(tail := Cur(s').tail)], next := s'.next,
        prod := s'.prod)
    ensures Extends(s, s')
  {}

  /** The state after the tail of the current header moves, with the producer at `prod`. */
  function TailMoved(s: State, tail: int, next: int, prod: Producer): State
    requires s.headers != []
  {
    s.(headers := s.headers[|s.headers| - 1 := Cur(s).(tail := tail)], next := next, prod := prod)
  }

  lemma TailMovedShared(s: State, tail: int, next: int, prod: Producer)
    requires Shared(s) && s.headers != [] && Cur(s).index != [] && 0 <= tail < |Cur(s).index|
    requires LiveInv(s.bs, s.entries, s.headers, s.uses, Top(prod, s.uses)) && HasKey(prod) == HasKey(s.prod)
    requires var s' := TailMoved(s, tail, next, prod); TailInv(s') && TentativeInv(s') && InsertInv(s') && CallInv(s')
    ensures Shared(TailMoved(s, tail, next, prod))
  {
    hide IndexInv, LiveInv, ValueInv, OldInv, TentativeInv, InsertInv, CallInv, TailInv, Top;
    TailIndexInv(s.bs, s.entries, s.headers, tail);
    TailRest(s.bs, s.entries, s.headers, s.uses, s.committed, Top(prod, s.uses), tail);
  }

  lemma TailMovedRest(s: State, tail: int, next: int, prod: Producer)
    requires Rest(s) && s.headers != [] && s.committed <= |s.uses|
    requires !s.prod.StoreValue? && !prod.StoreValue?
    ensures Rest(TailMoved(s, tail, next, prod))
  {
    hide PlaceInv, ZeroInv, CountInv, ConsAll, Extends;
    TailExtends(s, TailMoved(s, tail, next, prod));
    RestExtends(s, TailMoved(s, tail, next, prod));
  }

  lemma TailStep(s: State, ok: bool, full: bool, block: nat) returns (tail: int, next: int)
    requires IndexInv(s.bs, s.entries, s.headers) && TailInv(s) && s.headers != [] && Sound(s)
    requires s.prod.StoreTail? || s.prod.DropTail? || s.prod.UndoTail?
    ensures Cur(s).index != [] && 0 <= tail < |Cur(s).index| && tail == Slot(Cur(s), next - 1)
    ensures next == s.next + if s.prod.StoreTail? then 1 else -1
    ensures var s' := ProducerStep(s, ok, full, block); s' == TailMoved(s, tail, next, s'.prod)
  {
    CurOk(s);
    NextEntry(s);
    tail := (Cur(s).tail + if s.prod.StoreTail? then 1 else -1) % |Cur(s).index|;
    next := s.next + if s.prod.StoreTail? then 1 else -1;
  }

  lemma StoreTailParts(s: State, tail: int)
    requires TailInv(s) && TentativeInv(s) && InsertInv(s) && CallInv(s) && s.prod.StoreTail?
    requires 0 <= tail < |Cur(s).index| && tail == Slot(Cur(s), s.next)
    ensures var s' := TailMoved(s, tail, s.next + 1, Requisition(s.prod.todo));
      TailInv(s') && TentativeInv(s') && InsertInv(s') && CallInv(s')
  {}

  lemma StoreTailTop(s: State)
    requires LiveInv(s.bs, s.entries, s.headers, s.uses, |s.uses|) && InsertInv(s) && s.prod.StoreTail? && s.bs > 1
    ensures LiveInv(s.bs, s.entries, s.headers, s.uses, |s.uses| + 1)
  {}

  lemma StoreTailKeeps(s: State, ok: bool, full: bool, block: nat)
    requires Inv(s) && s.prod.StoreTail? && Sound(s)
    ensures Inv(ProducerStep(s, ok, full, block))
  {
    hide IndexInv, LiveInv, ValueInv, OldInv, TentativeInv, InsertInv, CallInv, TailInv, PlaceInv, CountInv, ConsAll;
    hide ZeroInv, TailMoved, ProducerStep;
    var tail, next := TailStep(s, ok, full, block);
    StoreTailTop(s);
    StoreTailParts(s, tail);
    TailMovedShared(s, tail, next, Requisition(s.prod.todo));
    TailMovedRest(s, tail, next, Requisition(s.prod.todo));
    assert ProducerStep(s, ok, full, block).prod == Requisition(s.prod.todo) by { StepProd(s, ok, full, block); }
  }

  lemma StepProd(s: State, ok: bool, full: bool, block: nat)
    requires Sound(s)
    ensures s.prod.StoreTail? ==> ProducerStep(s, ok, full, block).prod == Requisition(s.prod.todo)
    ensures s.prod.DropTail? ==> ProducerStep(s, ok, full, block).prod == DropValue(Cur(s).index[Cur(s).tail])
    ensures s.prod.UndoTail? ==> ProducerStep(s, ok, full, block).prod == Undo(s.prod.j + 1)
  {}

  // ---- taking an insertion back

  lemma DropTailParts(s: State, tail: int)
    requires TailInv(s) && TentativeInv(s) && InsertInv(s) && CallInv(s) && s.prod.DropTail?
    requires 0 <= tail < |Cur(s).index| && tail == Slot(Cur(s), s.next - 2)
    ensures var s' := TailMoved(s, tail, s.next - 1, DropValue(Cur(s).index[Cur(s).tail]));
      TailInv(s') && TentativeInv(s') && InsertInv(s') && CallInv(s')
  {
    NextEntry(s);
  }

  lemma DropTailKeeps(s: State, ok: bool, full: bool, block: nat)
    requires Inv(s) && s.prod.DropTail? && Sound(s)
    ensures Inv(ProducerStep(s, ok, full, block))
  {
    hide IndexInv, LiveInv, ValueInv, OldInv, TentativeInv, InsertInv, CallInv, TailInv, PlaceInv, CountInv, ConsAll;
    hide ZeroInv, TailMoved, ProducerStep;
    var tail, next := TailStep(s, ok, full, block);
    var prod := DropValue(Cur(s).index[Cur(s).tail]);
    TopDown(s.bs, s.entries, s.headers, s.uses, |s.uses| + 1, |s.uses|);
    DropTailParts(s, tail);
    TailMovedShared(s, tail, next, prod);
    TailMovedRest(s, tail, next, prod);
    StepProd(s, ok, full, block);
  }

  lemma UndoTailParts(s: State, tail: int)
    requires TailInv(s) && TentativeInv(s) && CallInv(s) && s.prod.UndoTail? && s.headers != []
    requires 0 <= tail < |Cur(s).index| && tail == Slot(Cur(s), s.next - 2)
    ensures var s' := TailMoved(s, tail, s.next - 1, Undo(s.prod.j + 1));
      TailInv(s') && TentativeInv(s') && InsertInv(s') && CallInv(s')
  {}

  lemma UndoTailKeeps(s: State, ok: bool, full: bool, block: nat)
    requires Inv(s) && s.prod.UndoTail? && Sound(s)
    ensures Inv(ProducerStep(s, ok, full, block))
  {
    hide IndexInv, LiveInv, ValueInv, OldInv, TentativeInv, InsertInv, CallInv, TailInv, PlaceInv, CountInv, ConsAll;
    hide ZeroInv, TailMoved, ProducerStep;
    var tail, next := TailStep(s, ok, full, block);
    UndoTailParts(s, tail);
    TailMovedShared(s, tail, next, Undo(s.prod.j + 1));
    TailMovedRest(s, tail, next, Undo(s.prod.j + 1));
    StepProd(s, ok, full, block);
  }

  lemma NullLive(bs: nat, entries: seq<Entry>, headers: seq<Header>, uses: seq<Use>, top: int, e: nat)
    requires LiveInv(bs, entries, headers, uses, top) && e < |entries| && !entries[e].value.Ptr?
    ensures LiveInv(bs, entries[e := entries[e].(value := Null)], headers, uses, top)
  {
    var entries' := entries[e := entries[e].(value := Null)];
    forall k | 0 <= k < |uses| && uses[k].live
      ensures headers != [] && LiveAt(bs, entries', Last(headers), k, uses[k].block, top)
    {
      ExactsValue(bs, entries, Last(headers), k, top, e, Null);
    }
  }

  lemma NullValue(bs: nat, entries: seq<Entry>, headers: seq<Header>, uses: seq<Use>, e: nat)
    requires ValueInv(bs, entries, headers, uses) && e < |entries| && !entries[e].value.Ptr?
    ensures ValueInv(bs, entries[e := entries[e].(value := Null)], headers, uses)
  {
    var entries' := entries[e := entries[e].(value := Null)];
    forall d | 0 <= d < |entries'| && entries'[d].value.Ptr?
      ensures LeadsTo(bs, entries', headers, uses, d, entries'[d].key / bs)
    {}
  }

  lemma ValueOld(entries: seq<Entry>, headers: seq<Header>, uses: seq<Use>, committed: nat, e: nat, v: Value)
    requires OldInv(entries, headers, uses, committed) && e < |entries|
    ensures OldInv(entries[e := entries[e].(value := v)], headers, uses, committed)
  {
    var entries' := entries[e := entries[e].(value := v)];
    forall x, k | 0 <= x < |headers| - 1 && 0 <= k < |uses| && uses[k].live && k < headers[x].known
      ensures Finds(entries', headers[x], Last(headers), k)
    {}
  }

  lemma DropValueParts(s: State, s': State, e: nat)
    requires TailInv(s) && TentativeInv(s) && InsertInv(s) && CallInv(s) && s.prod == DropValue(e) && e < |s.entries|
    requires s' == SetValue(s, e, Null).(prod := Undo(0))
    ensures TailInv(s') && TentativeInv(s') && InsertInv(s') && CallInv(s')
  {}

  lemma ValueExtends(s: State, s': State, e: nat, v: Value)
    requires e < |s.entries| && s.committed <= |s.uses| && s' == SetValue(s, e, v).(prod := s'.prod)
    ensures Extends(s, s')
  {}

  lemma DropFacts(s: State)
    requires InsertInv(s) && s.prod.DropValue?
    ensures s.prod.entry < |s.entries| && !s.entries[s.prod.entry].value.Ptr?
    ensures s.headers != [] && Cur(s).index != [] && s.prod.entry == EntryOf(Cur(s), |s.uses|)
  {}

  lemma DropValueKeeps(s: State, ok: bool, full: bool, block: nat)
    requires Inv(s) && s.prod.DropValue? && Sound(s)
    ensures Inv(ProducerStep(s, ok, full, block))
  {
    hide IndexInv, LiveInv, ValueInv, OldInv, TentativeInv, InsertInv, CallInv, TailInv, PlaceInv, CountInv, ConsAll;
    hide ZeroInv, Extends;
    var e := s.prod.entry;
    var s' := ProducerStep(s, ok, full, block);
    DropFacts(s);
    IndexValue(s.bs, s.entries, s.headers, e, Null);
    NullLive(s.bs, s.entries, s.headers, s.uses, |s.uses|, e);
    NullValue(s.bs, s.entries, s.headers, s.uses, e);
    ValueOld(s.entries, s.headers, s.uses, s.committed, e, Null);
    DropValueParts(s, s', e);
    ValueExtends(s, s', e, Null);
    RestExtends(s, s');
  }

  // ---- getting a block

  /** The pool handed out block b, whose counter is reset. */
  ghost predicate HandedOut(s: State, s': State, b: nat) {
    && s.prod.Requisition? && |s.count| == |s.place| && b < |s'.place|
    && (|| (b < |s.place| && s.place[b] == Pool
            && s'.place == s.place[b := InUse(|s.uses|)] && s'.count == s.count[b := 0])
        || (b == |s.place| && s'.place == s.place + [InUse(|s.uses|)] && s'.count == s.count + [0]))
    && s' == s.(place := s'.place, count := s'.count, prod := StoreValue(s.prod.todo, b))
  }

  lemma HandedOutPlace(s: State, s': State, b: nat)
    requires HandedOut(s, s', b) && PlaceInv(s.place, s.count, s.uses, s.prod)
    requires ZeroInv(s.count, s.uses, s.committed)
    ensures PlaceInv(s'.place, s'.count, s.uses, s'.prod) && ZeroInv(s'.count, s.uses, s.committed)
  {
    forall d | 0 <= d < |s'.place| && s'.place[d].InUse? ensures HeldBy(s.uses, s'.prod, s'.place[d].k, d) {
    }
  }

  lemma HandedOutExtends(s: State, s': State, b: nat)
    requires HandedOut(s, s', b) && PlaceInv(s.place, s.count, s.uses, s.prod) && s.committed <= |s.uses|
    ensures Extends(s, s')
    ensures Sited(s.uses, |s.count|)
  {}

  lemma HandedOutShared(s: State, s': State, b: nat)
    requires HandedOut(s, s', b) && Shared(s)
    ensures Shared(s')
  {
    hide IndexInv, LiveInv, ValueInv, OldInv;
  }

  lemma HandedOutKeeps(s: State, s': State, b: nat)
    requires HandedOut(s, s', b) && Inv(s)
    ensures Inv(s')
  {
    hide IndexInv, LiveInv, ValueInv, OldInv, TentativeInv, InsertInv, CallInv, TailInv, PlaceInv, CountInv, ConsAll;
    hide ZeroInv, Extends, HandedOut;
    CommittedWithin(s);
    HandedOutPlace(s, s', b);
    HandedOutExtends(s, s', b);
    HandedOutShared(s, s', b);
    HandedOutSame(s, s', b);
    CountsExtends(s, s');
    AllConsExtends(s, s');
  }

  lemma HandedOutSame(s: State, s': State, b: nat)
    requires HandedOut(s, s', b)
    ensures s'.committed == s.committed && s'.uses == s.uses
  {}

  lemma NoBlockParts(s: State)
    requires TailInv(s) && TentativeInv(s) && InsertInv(s) && CallInv(s) && s.prod.Requisition?
    ensures var s' := s.(prod := DropTail); TailInv(s') && TentativeInv(s') && InsertInv(s') && CallInv(s')
  {}

  lemma RequisitionKeeps(s: State, ok: bool, full: bool, block: nat)
    requires Inv(s) && s.prod.Requisition? && Sound(s)
    ensures Inv(ProducerStep(s, ok, full, block))
  {
    hide IndexInv, LiveInv, ValueInv, OldInv, TentativeInv, InsertInv, CallInv, TailInv, CountInv, ConsAll;
    hide ZeroInv, Extends;
    var s' := ProducerStep(s, ok, full, block);
    if !ok {
      NoBlockParts(s);
    } else if s' != s {
      HandedOutKeeps(s, s', block);
    }
  }

  // ---- linking it

  lemma LinkLive(bs: nat, entries: seq<Entry>, headers: seq<Header>, uses: seq<Use>, e: nat, b: nat)
    requires LiveInv(bs, entries, headers, uses, |uses| + 1) && headers != [] && HeaderOk(bs, entries, Last(headers))
    requires e == EntryOf(Last(headers), |uses|) && e < |entries| && entries[e].key == |uses| * bs
    ensures LiveInv(bs, entries[e := entries[e].(value := Ptr(b))], headers, uses + [Use(b, true, true)], |uses| + 1)
  {
    var entries' := entries[e := entries[e].(value := Ptr(b))];
    var uses' := uses + [Use(b, true, true)];
    var cur, top := Last(headers), |uses| + 1;
    forall k | 0 <= k < |uses'| && uses'[k].live
      ensures headers != [] && LiveAt(bs, entries', cur, k, uses'[k].block, top)
    {
      if k < |uses| {
        OtherExacts(bs, entries, cur, k, |uses|, entries'[e]);
      }
    }
  }

  lemma LinkValue(bs: nat, entries: seq<Entry>, headers: seq<Header>, uses: seq<Use>, e: nat, b: nat)
    requires ValueInv(bs, entries, headers, uses) && headers != [] && Last(headers).index != []
    requires e == EntryOf(Last(headers), |uses|) && e < |entries| && entries[e].key == |uses| * bs
    ensures ValueInv(bs, entries[e := entries[e].(value := Ptr(b))], headers, uses + [Use(b, true, true)])
  {
    var entries' := entries[e := entries[e].(value := Ptr(b))];
    var uses' := uses + [Use(b, true, true)];
    DivExact(|uses|, bs);
    forall d | 0 <= d < |entries'| && entries'[d].value.Ptr?
      ensures LeadsTo(bs, entries', headers, uses', d, entries'[d].key / bs)
    {}
  }

  lemma LinkOld(entries: seq<Entry>, headers: seq<Header>, uses: seq<Use>, committed: nat, use: Use)
    requires OldInv(entries, headers, uses, committed) && committed <= |uses|
    ensures OldInv(entries, headers, uses + [use], committed)
  {
    var uses' := uses + [use];
    forall x, k | 0 <= x < |headers| - 1 && 0 <= k < |uses'| && uses'[k].live && k < headers[x].known
      ensures Finds(entries, headers[x], Last(headers), k)
    {}
  }

  lemma LinkParts(s: State, s': State, e: nat)
    requires TailInv(s) && TentativeInv(s) && InsertInv(s) && CallInv(s) && s.prod.StoreValue?
    requires e == EntryOf(Cur(s), |s.uses|) && e < |s.entries|
    requires s' == SetValue(s, e, Ptr(s.prod.block))
        .(uses := s.uses + [Use(s.prod.block, true, true)],
          prod := if s.prod.todo > 1 then Check(s.prod.todo - 1) else Publish)
    ensures TailInv(s') && TentativeInv(s') && InsertInv(s') && CallInv(s')
  {}

  lemma LinkPlace(place: seq<Place>, count: seq<nat>, uses: seq<Use>, prod: Producer, prod': Producer, committed: nat)
    requires PlaceInv(place, count, uses, prod) && ZeroInv(count, uses, committed)
    requires prod.StoreValue? && !prod'.StoreValue?
    ensures var uses' := uses + [Use(prod.block, true, true)];
      PlaceInv(place, count, uses', prod') && ZeroInv(count, uses', committed)
  {
    var uses' := uses + [Use(prod.block, true, true)];
    forall d | 0 <= d < |place| && place[d].InUse? ensures HeldBy(uses', prod', place[d].k, d) {
    }
  }

  lemma LinkFacts(s: State)
    requires TailInv(s) && InsertInv(s) && s.prod.StoreValue? && IndexInv(s.bs, s.entries, s.headers)
    ensures s.headers != [] && Cur(s).index != [] && 0 <= Cur(s).tail < |Cur(s).index|
    ensures Cur(s).index[Cur(s).tail] == EntryOf(Cur(s), |s.uses|) < |s.entries|
    ensures HeaderOk(s.bs, s.entries, Last(s.headers)) && s.committed <= |s.uses|
    ensures s.entries[EntryOf(Cur(s), |s.uses|)].key == |s.uses| * s.bs
  {}

  lemma LinkShared(s: State, s': State, e: nat)
    requires Shared(s) && s.prod.StoreValue? && s.headers != [] && Cur(s).index != []
    requires e == EntryOf(Cur(s), |s.uses|) && e < |s.entries|
    requires s' == SetValue(s, e, Ptr(s.prod.block))
        .(uses := s.uses + [Use(s.prod.block, true, true)],
          prod := if s.prod.todo > 1 then Check(s.prod.todo - 1) else Publish)
    ensures Shared(s')
  {
    hide IndexInv, LiveInv, ValueInv, OldInv, TentativeInv, InsertInv, CallInv, TailInv, HeaderOk, EntryOf;
    LinkFacts(s);
    IndexValue(s.bs, s.entries, s.headers, e, Ptr(s.prod.block));
    LinkLive(s.bs, s.entries, s.headers, s.uses, e, s.prod.block);
    LinkValue(s.bs, s.entries, s.headers, s.uses, e, s.prod.block);
    ValueOld(s.entries, s.headers, s.uses, s.committed, e, Ptr(s.prod.block));
    LinkOld(s'.entries, s.headers, s.uses, s.committed, Use(s.prod.block, true, true));
    LinkParts(s, s', e);
  }

  lemma LinkExtends(s: State, s': State, e: nat, v: Value, use: Use)
    requires e < |s.entries| && s.committed <= |s.uses| && PlaceInv(s.place, s.count, s.uses, s.prod)
    requires s' == SetValue(s, e, v).(uses := s.uses + [use], prod := s'.prod)
    ensures Extends(s, s')
    ensures Sited(s.uses, |s.count|)
  {}

  lemma StoreValueKeeps(s: State, ok: bool, full: bool, block: nat)
    requires Inv(s) && s.prod.StoreValue? && Sound(s)
    ensures Inv(ProducerStep(s, ok, full, block))
  {
    hide IndexInv, LiveInv, ValueInv, OldInv, TentativeInv, InsertInv, CallInv, TailInv, PlaceInv, CountInv, ConsAll;
    hide ZeroInv, Extends, HeaderOk, EntryOf;
    LinkFacts(s);
    var s' := ProducerStep(s, ok, full, block);
    var e := EntryOf(Cur(s), |s.uses|);
    LinkShared(s, s', e);
    LinkPlace(s.place, s.count, s.uses, s.prod, s'.prod, s.committed);
    LinkExtends(s, s', e, Ptr(s.prod.block), Use(s.prod.block, true, true));
    CountsExtends(s, s');
    AllConsExtends(s, s');
  }

  // ---- rolling back

  /** The lookup of a block being rolled back finds its own entry, although the tail it starts from has
      itself been rewound past it. */
  lemma TentativeAt(s: State, k: int)
    requires TentativeInv(s) && s.committed <= k < |s.uses|
    ensures s.headers != [] && Cur(s).index != [] && Keyed(s.entries, EntryOf(Cur(s), k))
    ensures s.uses[k].live <==> k >= s.committed + Unlinked(s.prod, |s.uses| - s.committed)
  {
    assert TentativeOk(s.entries, s.headers, s.uses[k], k, s.committed + Unlinked(s.prod, |s.uses| - s.committed),
                       s.committed + Returned(s.prod));
  }

  lemma UndoFinds(s: State)
    requires IndexInv(s.bs, s.entries, s.headers) && LiveInv(s.bs, s.entries, s.headers, s.uses, |s.uses|)
    requires TailInv(s) && TentativeInv(s) && s.prod.Undo? && s.committed + s.prod.j < |s.uses|
    requires Sound(s)
    ensures var k := s.committed + s.prod.j;
      var slot := LookUp(s, Cur(s), Cur(s).tail, k * s.bs);
      && At(Cur(s), slot) == EntryOf(Cur(s), k) && s.uses[k].live
      && EntryIs(s.bs, s.entries, At(Cur(s), slot), k, s.uses)
  {
    hide IndexInv, LiveInv, TentativeInv, LookUp, Slot, EntryIs, Keyed, HeaderOk, At;
    var k := s.committed + s.prod.j;
    CurOk(s);
    TentativeAt(s, s.next - 1);
    TentativeAt(s, k);
    LookUpFromTail(s, k);
    LiveEntry(s.bs, s.entries, s.headers, s.uses, |s.uses|, k);
  }

  lemma LookUpFromTail(s: State, k: nat)
    requires s.headers != [] && HeaderOk(s.bs, s.entries, Cur(s)) && Cur(s).tail == Slot(Cur(s), s.next - 1)
    requires Keyed(s.entries, EntryOf(Cur(s), s.next - 1))
    ensures At(Cur(s), LookUp(s, Cur(s), Cur(s).tail, k * s.bs)) == EntryOf(Cur(s), k)
  {
    hide LookUp, At, Keyed, EntryOf;
    NextEntry(s);
    LookUpSlot(s, Cur(s), Cur(s).tail, k * s.bs);
    DivExact(k, s.bs);
    InSlot(Cur(s), k);
  }

  lemma LiveEntry(bs: nat, entries: seq<Entry>, headers: seq<Header>, uses: seq<Use>, top: int, k: nat)
    requires LiveInv(bs, entries, headers, uses, top) && k < |uses| && uses[k].live
    ensures headers != [] && Last(headers).index != []
    ensures EntryIs(bs, entries, EntryOf(Last(headers), k), k, uses) && top - |Last(headers).index| <= k
  {}

  lemma InSlot(h: Header, k: int)
    requires h.index != []
    ensures At(h, Slot(h, k)) == EntryOf(h, k)
  {}

  lemma UndoParts(s: State, s': State, e: nat)
    requires TailInv(s) && TentativeInv(s) && CallInv(s) && s.prod.Undo? && s.committed + s.prod.j < |s.uses|
    requires e < |s.entries|
    requires var k := s.committed + s.prod.j;
      s' == SetValue(s, e, Null).(uses := s.uses[k := s.uses[k].(live := false)], prod := UndoTail(s.prod.j))
    ensures TailInv(s') && TentativeInv(s') && InsertInv(s') && CallInv(s')
  {}

  lemma UndoEndParts(s: State, s': State)
    requires TailInv(s) && TentativeInv(s) && CallInv(s) && s.prod.Undo? && s.committed + s.prod.j == |s.uses|
    requires s' == s.(prod := Return(0))
    ensures TailInv(s') && TentativeInv(s') && InsertInv(s') && CallInv(s')
  {
    TentativeSame(s, s');
    hide TentativeInv;
  }

  lemma UndoShared(s: State, s': State, e: nat)
    requires Shared(s) && s.prod.Undo? && s.committed + s.prod.j < |s.uses|
    requires EntryIs(s.bs, s.entries, e, s.committed + s.prod.j, s.uses) && s.bs > 0
    requires var k := s.committed + s.prod.j;
      s' == SetValue(s, e, Null).(uses := s.uses[k := s.uses[k].(live := false)], prod := UndoTail(s.prod.j))
    ensures Shared(s')
  {
    hide IndexInv, LiveInv, ValueInv, OldInv, TentativeInv, InsertInv, CallInv, TailInv;
    var k := s.committed + s.prod.j;
    IndexValue(s.bs, s.entries, s.headers, e, Null);
    UnlinkLive(s.bs, s.entries, s.headers, s.uses, |s.uses|, e, k);
    UnlinkValue(s.bs, s.entries, s.headers, s.uses, e, k);
    UnlinkOld(s.entries, s.headers, s.uses, s.committed, e, k);
    UndoParts(s, s', e);
  }

  lemma UndoExtends(s: State, s': State, e: nat, k: nat)
    requires e < |s.entries| && s.committed <= k < |s.uses| && PlaceInv(s.place, s.count, s.uses, s.prod)
    requires s' == SetValue(s, e, Null).(uses := s.uses[k := s.uses[k].(live := false)], prod := s'.prod)
    ensures Extends(s, s')
    ensures Sited(s.uses, |s.count|)
  {}

  lemma ZeroUnlink(count: seq<nat>, uses: seq<Use>, committed: nat, k: nat)
    requires ZeroInv(count, uses, committed) && k < |uses|
    ensures ZeroInv(count, uses[k := uses[k].(live := false)], committed)
  {}

  lemma UndoKeeps(s: State, ok: bool, full: bool, block: nat)
    requires Inv(s) && s.prod.Undo? && Sound(s)
    ensures Inv(ProducerStep(s, ok, full, block))
  {
    hide IndexInv, LiveInv, ValueInv, OldInv, TentativeInv, InsertInv, CallInv, TailInv, PlaceInv, CountInv, ConsAll;
    hide ZeroInv, Extends, EntryIs;
    var s' := ProducerStep(s, ok, full, block);
    var k := s.committed + s.prod.j;
    if k == |s.uses| {
      UndoEndParts(s, s');
      MoveExtends(s, s');
      RestExtends(s, s');
    } else if k < |s.uses| {
      UndoFinds(s);
      var e := At(Cur(s), LookUp(s, Cur(s), Cur(s).tail, k * s.bs));
      UndoShared(s, s', e);
      UndoExtends(s, s', e, k);
      ClearPlace(s.place, s.count, s.uses, s.prod, k);
      PlaceProd(s.place, s.count, s'.uses, s.prod, s'.prod);
      ZeroUnlink(s.count, s.uses, s.committed, k);
      CountsExtends(s, s');
      AllConsExtends(s, s');
    }
  }

  // ---- giving the blocks back

  lemma ReturnParts(s: State, s': State)
    requires TailInv(s) && TentativeInv(s) && CallInv(s) && s.prod.Return? && s.committed + s.prod.j < |s.uses|
    requires s.uses[s.committed + s.prod.j].block < |s.place|
    requires var k := s.committed + s.prod.j;
      s' == s.(place := s.place[s.uses[k].block := Pool], uses := s.uses[k := s.uses[k].(held := false)],
               prod := Return(s.prod.j + 1))
    ensures TailInv(s') && TentativeInv(s') && InsertInv(s') && CallInv(s')
    ensures s.uses[s.committed + s.prod.j].held && !s.uses[s.committed + s.prod.j].live
  {}

  lemma ReturnShared(s: State, s': State)
    requires Shared(s) && s.prod.Return? && s.committed + s.prod.j < |s.uses|
    requires s.uses[s.committed + s.prod.j].block < |s.place|
    requires var k := s.committed + s.prod.j;
      s' == s.(place := s.place[s.uses[k].block := Pool], uses := s.uses[k := s.uses[k].(held := false)],
               prod := Return(s.prod.j + 1))
    ensures Shared(s') && s.uses[s.committed + s.prod.j].held && !s.uses[s.committed + s.prod.j].live
  {
    hide IndexInv, LiveInv, ValueInv, OldInv, TentativeInv, InsertInv, CallInv, TailInv;
    ReturnParts(s, s');
    HeldIndex(s.bs, s.entries, s.headers, s.uses, s'.uses, s.committed, |s.uses|);
  }

  lemma ReturnExtends(s: State, s': State, k: nat)
    requires s.committed <= k < |s.uses| && PlaceInv(s.place, s.count, s.uses, s.prod)
    requires s' == s.(place := s'.place, uses := s.uses[k := s.uses[k].(held := false)], prod := s'.prod)
    ensures Extends(s, s')
    ensures Sited(s.uses, |s.count|)
  {}

  lemma ZeroReturn(count: seq<nat>, uses: seq<Use>, committed: nat, k: nat)
    requires ZeroInv(count, uses, committed) && k < |uses|
    ensures ZeroInv(count, uses[k := uses[k].(held := false)], committed)
  {}

  lemma FinishParts(s: State, s': State)
    requires TailInv(s) && TentativeInv(s) && CallInv(s) && s.prod.Return? && s.committed + s.prod.j == |s.uses|
    requires s' == s.(uses := s.uses[..s.committed], prod := Ready)
    ensures TailInv(s') && TentativeInv(s') && InsertInv(s') && CallInv(s')
    ensures forall k :: s.committed <= k < |s.uses| ==> !s.uses[k].live && !s.uses[k].held
  {}

  lemma FinishIndex(bs: nat, entries: seq<Entry>, headers: seq<Header>, uses: seq<Use>, committed: nat)
    requires LiveInv(bs, entries, headers, uses, |uses|) && ValueInv(bs, entries, headers, uses)
    requires OldInv(entries, headers, uses, committed) && committed <= |uses|
    requires forall k :: committed <= k < |uses| ==> !uses[k].live
    ensures LiveInv(bs, entries, headers, uses[..committed], committed)
    ensures ValueInv(bs, entries, headers, uses[..committed]) && OldInv(entries, headers, uses[..committed], committed)
  {
    var uses' := uses[..committed];
    forall k | 0 <= k < |uses'| && uses'[k].live
      ensures headers != [] && LiveAt(bs, entries, Last(headers), k, uses'[k].block, committed)
    {}
    forall d | 0 <= d < |entries| && entries[d].value.Ptr?
      ensures LeadsTo(bs, entries, headers, uses', d, entries[d].key / bs)
    {}
    forall x, k | 0 <= x < |headers| - 1 && 0 <= k < |uses'| && uses'[k].live && k < headers[x].known
      ensures Finds(entries, headers[x], Last(headers), k)
    {}
  }

  lemma FinishShared(s: State, s': State)
    requires Shared(s) && s.prod.Return? && s.committed + s.prod.j == |s.uses|
    requires s' == s.(uses := s.uses[..s.committed], prod := Ready)
    ensures Shared(s') && forall k :: s.committed <= k < |s.uses| ==> !s.uses[k].live && !s.uses[k].held
  {
    hide IndexInv, LiveInv, ValueInv, OldInv, TentativeInv, InsertInv, CallInv, TailInv;
    FinishParts(s, s');
    FinishIndex(s.bs, s.entries, s.headers, s.uses, s.committed);
  }

  lemma FinishPlace(place: seq<Place>, count: seq<nat>, uses: seq<Use>, prod: Producer, committed: nat)
    requires PlaceInv(place, count, uses, prod) && committed <= |uses| && !prod.StoreValue?
    requires forall k :: committed <= k < |uses| ==> !uses[k].held
    ensures PlaceInv(place, count, uses[..committed], Ready)
    ensures Sited(uses, |count|)
  {
    forall d | 0 <= d < |place| && place[d].InUse? ensures HeldBy(uses[..committed], Ready, place[d].k, d) {
    }
  }

  lemma FinishExtends(s: State, s': State)
    requires s.committed <= |s.uses| && s' == s.(uses := s.uses[..s.committed], prod := Ready)
    ensures Extends(s, s')
  {}

  lemma ReturnKeeps(s: State, ok: bool, full: bool, block: nat)
    requires Inv(s) && s.prod.Return? && Sound(s)
    ensures Inv(ProducerStep(s, ok, full, block))
  {
    hide IndexInv, LiveInv, ValueInv, OldInv, TentativeInv, InsertInv, CallInv, TailInv, PlaceInv, CountInv, ConsAll;
    hide ZeroInv, Extends;
    var s' := ProducerStep(s, ok, full, block);
    var k := s.committed + s.prod.j;
    if k < |s.uses| {
      ReturnShared(s, s');
      ReturnExtends(s, s', k);
      ReleasePlace(s.place, s.count, s.uses, s.prod, k);
      PlaceProd(s'.place, s.count, s'.uses, s.prod, s'.prod);
      ZeroReturn(s.count, s.uses, s.committed, k);
      CountsExtends(s, s');
      AllConsExtends(s, s');
    } else {
      ReturnEnds(s);
      FinishShared(s, s');
      FinishPlace(s.place, s.count, s.uses, s.prod, s.committed);
      FinishExtends(s, s');
      CountsExtends(s, s');
      AllConsExtends(s, s');
      assert ZeroInv(s.count, s'.uses, s.committed) by { NothingTentative(s.count, s'.uses, s.committed); }
    }
  }

  lemma ReturnEnds(s: State)
    requires CallInv(s) && s.prod.Return?
    ensures s.committed + s.prod.j <= |s.uses|
  {}

  lemma NothingTentative(count: seq<nat>, uses: seq<Use>, committed: nat)
    requires |uses| <= committed
    ensures ZeroInv(count, uses, committed)
  {}

  // ---- publishing

  lemma PublishParts(s: State, s': State)
    requires TailInv(s) && TentativeInv(s) && CallInv(s) && s.prod == Publish
    requires s' == s.(tailIndex := s.tailIndex + s.want, committed := |s.uses|, prod := Ready)
    ensures TailInv(s') && TentativeInv(s') && InsertInv(s') && CallInv(s')
  {}

  lemma PublishOld(entries: seq<Entry>, headers: seq<Header>, uses: seq<Use>, committed: nat)
    requires OldInv(entries, headers, uses, committed) && committed <= |uses|
    ensures OldInv(entries, headers, uses, |uses|)
  {}

  lemma PublishShared(s: State, s': State)
    requires Shared(s) && s.prod == Publish
    requires s' == s.(tailIndex := s.tailIndex + s.want, committed := |s.uses|, prod := Ready)
    ensures Shared(s')
  {
    hide IndexInv, LiveInv, ValueInv, OldInv, TentativeInv, InsertInv, CallInv, TailInv, JunkInv;
    CommittedWithin(s);
    PublishParts(s, s');
    PublishOld(s.entries, s.headers, s.uses, s.committed);
  }

  /** Nothing of a block just committed has been claimed, and nobody is closing it. */
  lemma NewCount(s: State, k: nat)
    requires CallInv(s) && AllCons(s) && TentativeInv(s) && s.prod == Publish && s.committed <= k < |s.uses|
    requires PlaceInv(s.place, s.count, s.uses, s.prod) && ZeroInv(s.count, s.uses, s.committed)
    ensures CountOk(s.bs, s.count, s.headIndex, s.cons, s.uses[k], k)
  {
    MulMono(s.committed, k, s.bs);
    forall u | 0 <= u < |s.cons|
      ensures PendingW(k * s.bs, s.bs)(s.cons[u]) == 0 && ClosingW(k)(s.cons[u]) == 0
    {}
    TotalZero(s.cons, PendingW(k * s.bs, s.bs));
    TotalZero(s.cons, ClosingW(k));
  }

  lemma PublishCounts(s: State, s': State)
    requires CallInv(s) && AllCons(s) && TentativeInv(s) && s.prod == Publish && Counts(s)
    requires PlaceInv(s.place, s.count, s.uses, s.prod) && ZeroInv(s.count, s.uses, s.committed)
    requires s' == s.(tailIndex := s.tailIndex + s.want, committed := |s.uses|, prod := Ready)
    ensures Counts(s')
  {
    hide ConsAll, PlaceInv, CallInv, TentativeInv, ZeroInv, CountOk;
    forall k | 0 <= k < |s.uses| ensures CountOk(s.bs, s.count, s.headIndex, s.cons, s.uses[k], k) {
      if k >= s.committed { NewCount(s, k); }
    }
  }

  lemma PublishExtends(s: State, s': State)
    requires s.committed <= |s.uses| && OldInv(s.entries, s.headers, s.uses, s.committed)
    requires s' == s.(tailIndex := s.tailIndex + s.want, committed := |s.uses|, prod := Ready)
    ensures Extends(s, s')
  {}

  lemma PublishKeeps(s: State, ok: bool, full: bool, block: nat)
    requires Inv(s) && s.prod.Publish? && Sound(s)
    ensures Inv(ProducerStep(s, ok, full, block))
  {
    hide IndexInv, LiveInv, ValueInv, OldInv, TentativeInv, InsertInv, CallInv, TailInv, PlaceInv, CountInv, ConsAll;
    hide ZeroInv, Extends, JunkInv;
    var s' := ProducerStep(s, ok, full, block);
    PublishShared(s, s');
    PublishCounts(s, s');
    PublishExtends(s, s');
    AllConsExtends(s, s');
    PlaceProd(s.place, s.count, s.uses, s.prod, s'.prod);
    NothingTentative(s.count, s.uses, |s.uses|);
  }

  // ---- growing the index

  /** The header new_block_index makes. */
  function NewHeader(h: Header, n: nat, next: int): Header
    requires h.index != []
  {
    Header(GrownIndex(h, n), |h.index| - 1, next - |h.index|, 0)
  }

  /** Slots modulo twice the capacity are slots modulo the capacity. */
  lemma HalfSlot(x: int, y: int, c: int)
    requires c > 0 && x % (2 * c) == y
    ensures x % c == y % c
  {
    var q := x / (2 * c);
    ModShift(y, 2 * q, c);
  }

  lemma GrownRange(h: Header, n: nat, next: int, k: int)
    requires h.index != []
    ensures var h' := NewHeader(h, n, next);
      && |h'.index| == 2 * |h.index|
      && (next - |h.index| <= k < next ==> Slot(h', k) == k - (next - |h.index|))
      && Slot(h', next) == |h.index|
  {
    var c := |h.index|;
    if next - c <= k < next { DivUnique(k - (next - c), 2 * c, 0); }
  }

  /** In its first half the new ring holds the old entries, each for the same block uses. */
  lemma GrownSlot(h: Header, n: nat, next: int, k: int)
    requires h.index != [] && 0 <= h.tail < |h.index| && h.tail == Slot(h, next - 1)
    ensures var h' := NewHeader(h, n, next);
      && |h'.index| == 2 * |h.index| && 0 <= Slot(h', k) < |h'.index| && EntryOf(h', k) == h'.index[Slot(h', k)]
      && (if Slot(h', k) < |h.index| then EntryOf(h', k) == EntryOf(h, k)
          else EntryOf(h', k) == n + (Slot(h', k) - |h.index|))
  {
    var h', c := NewHeader(h, n, next), |h.index|;
    var i := Slot(h', k);
    if i < c {
      // slot i of the new ring is slot tail + 1 + i of the old one
      OldSlot(h, next, i);
      HalfSlot(k - (next - c), i, c);
      SlotSum(k, h.origin, next, i, c);
    }
  }

  lemma OldSlot(h: Header, next: int, i: int)
    requires h.index != [] && h.tail == Slot(h, next - 1)
    ensures At(h, h.tail + 1 + i) == EntryOf(h, next + i)
  {
    ModAdd(next - 1 - h.origin, 1 + i, |h.index|);
  }

  lemma SlotSum(k: int, origin: int, next: int, i: int, c: int)
    requires c > 0 && (k - (next - c)) % c == i % c
    ensures (k - origin) % c == (next + i - origin) % c
  {
    ModAdd(k - (next - c), next - c - origin, c);
    ModAdd(i, next - c - origin, c);
    ModShift(i + (next - c - origin), 1, c);
  }

  lemma GrownDistinct(h: Header, n: nat)
    requires h.index != [] && (forall i :: 0 <= i < |h.index| ==> h.index[i] < n)
    requires forall i, j :: 0 <= i < j < |h.index| ==> h.index[i] != h.index[j]
    ensures var index := GrownIndex(h, n);
      forall i, j :: 0 <= i < j < |index| ==> index[i] != index[j]
  {
    var index := GrownIndex(h, n);
    forall i, j | 0 <= i < j < |index| ensures index[i] != index[j] {
      if j < |h.index| { ModDistinct(h.tail + 1 + i, h.tail + 1 + j, |h.index|); }
    }
  }

  /** What is known when the slot after the tail is taken: its use is live and is the oldest that fits. */
  lemma FullRing(s: State)
    requires Shared(s) && s.prod.Check? && s.headers != [] && Cur(s).index != []
    requires EntryOf(Cur(s), |s.uses|) < |s.entries|
    requires var e := s.entries[EntryOf(Cur(s), |s.uses|)]; e.key != INVALID && e.value != Null
    ensures var k := |s.uses| - |Cur(s).index|; 0 <= k < |s.uses| && s.uses[k].live
    ensures Exacts(s.bs, s.entries, Cur(s), |s.uses| - |Cur(s).index|, |s.uses|)
  {
    var cur, top := Cur(s), |s.uses|;
    var e := EntryOf(cur, top);
    var k := s.entries[e].key / s.bs;
    assert LiveAt(s.bs, s.entries, cur, k, s.uses[k].block, top) && HeaderOk(s.bs, s.entries, cur);
    if k > top - |cur.index| {
      ModDistinct(k - cur.origin, top - cur.origin, |cur.index|);
    }
  }

  lemma GrownCongruent(h: Header, cur: Header, n: nat, next: int)
    requires Congruent(h, cur) && 0 <= cur.tail < |cur.index| && cur.tail == Slot(cur, next - 1)
    requires forall i :: 0 <= i < |h.index| ==> h.index[i] < n
    ensures Congruent(h, NewHeader(cur, n, next))
  {
    var cur' := NewHeader(cur, n, next);
    forall i, k {:trigger h.index[i], EntryOf(cur', k)} | 0 <= i < |h.index| && h.index[i] == EntryOf(cur', k)
      ensures i == Slot(h, k)
    {
      GrownSlot(cur, n, next, k);
    }
  }

  lemma SelfCongruent(h: Header)
    requires h.index != [] && forall i, j :: 0 <= i < j < |h.index| ==> h.index[i] != h.index[j]
    ensures Congruent(h, h)
  {}

  /** The new ring's keys: the first half has those of the uses that fit the old ring, the rest none. */
  lemma GrownKeys(bs: nat, entries: seq<Entry>, cur: Header, next: int)
    requires HeaderOk(bs, entries, cur) && cur.tail == Slot(cur, next - 1)
    requires Exacts(bs, entries, cur, next - |cur.index|, next)
    ensures var entries' := entries + seq(|cur.index|, _ => Entry(INVALID, Junk));
      HeaderOk(bs, entries', NewHeader(cur, |entries|, next))
  {
    var c := |cur.index|;
    var entries' := entries + seq(c, _ => Entry(INVALID, Junk));
    var h' := NewHeader(cur, |entries|, next);
    GrownDistinct(cur, |entries|);
    forall i | 0 <= i < |h'.index|
      ensures h'.index[i] < |entries'| && KeyOk(bs, entries'[h'.index[i]].key, h', i)
    {
      if i < c {
        var k := next - c + i;
        GrownRange(cur, |entries|, next, k);
        GrownSlot(cur, |entries|, next, k);
        assert Exact(bs, entries, cur, k);
        DivExact(k, bs);
      }
    }
  }

  /** The headers after growing. */
  function GrownHeaders(headers: seq<Header>, n: nat, next: int, known: nat): seq<Header>
    requires headers != [] && Last(headers).index != []
  {
    headers[|headers| - 1 := Last(headers).(known := known)] + [NewHeader(Last(headers), n, next)]
  }

  lemma GrownIndexInv(bs: nat, entries: seq<Entry>, headers: seq<Header>, next: int, known: nat)
    requires IndexInv(bs, entries, headers) && headers != [] && Last(headers).index != []
    requires 0 <= Last(headers).tail < |Last(headers).index| && Last(headers).tail == Slot(Last(headers), next - 1)
    requires Exacts(bs, entries, Last(headers), next - |Last(headers).index|, next)
    ensures var more := seq(|Last(headers).index|, _ => Entry(INVALID, Junk));
      IndexInv(bs, entries + more, GrownHeaders(headers, |entries|, next, known))
  {
    var cur := Last(headers);
    var entries' := entries + seq(|cur.index|, _ => Entry(INVALID, Junk));
    var headers' := GrownHeaders(headers, |entries|, next, known);
    GrownKeys(bs, entries, cur, next);
    SelfCongruent(Last(headers'));
    forall x | 0 <= x < |headers'|
      ensures HeaderOk(bs, entries', headers'[x]) && Congruent(headers'[x], Last(headers'))
    {
      if x < |headers| {
        GrownCongruent(headers[x], cur, |entries|, next);
        SameRing(headers[x], headers'[x]);
      }
    }
  }

  lemma GrownExacts(bs: nat, entries: seq<Entry>, cur: Header, next: int, more: seq<Entry>, lo: int, hi: int)
    requires cur.index != [] && 0 <= cur.tail < |cur.index| && cur.tail == Slot(cur, next - 1)
    requires Exacts(bs, entries, cur, lo, hi) && next - |cur.index| <= lo && hi <= next
    ensures Exacts(bs, entries + more, NewHeader(cur, |entries|, next), lo, hi)
  {
    var entries' := entries + more;
    var h' := NewHeader(cur, |entries|, next);
    forall j | lo <= j < hi ensures Exact(bs, entries', h', j) {
      assert Exact(bs, entries, cur, j);
      GrownRange(cur, |entries|, next, j);
      GrownSlot(cur, |entries|, next, j);
    }
  }

  lemma GrownLive(bs: nat, entries: seq<Entry>, headers: seq<Header>, uses: seq<Use>, known: nat)
    requires LiveInv(bs, entries, headers, uses, |uses|) && headers != [] && Last(headers).index != []
    requires 0 <= Last(headers).tail < |Last(headers).index| && Last(headers).tail == Slot(Last(headers), |uses| - 1)
    ensures var more := seq(|Last(headers).index|, _ => Entry(INVALID, Junk));
      LiveInv(bs, entries + more, GrownHeaders(headers, |entries|, |uses|, known), uses, |uses|)
  {
    var cur, next := Last(headers), |uses|;
    var more := seq(|cur.index|, _ => Entry(INVALID, Junk));
    var headers' := GrownHeaders(headers, |entries|, next, known);
    forall k | 0 <= k < |uses| && uses[k].live
      ensures headers' != [] && LiveAt(bs, entries + more, Last(headers'), k, uses[k].block, next)
    {
      GrownRange(cur, |entries|, next, k);
      GrownSlot(cur, |entries|, next, k);
      GrownExacts(bs, entries, cur, next, more, k, next);
    }
  }

  lemma GrownValue(bs: nat, entries: seq<Entry>, headers: seq<Header>, uses: seq<Use>, known: nat)
    requires ValueInv(bs, entries, headers, uses) && LiveInv(bs, entries, headers, uses, |uses|)
    requires headers != [] && Last(headers).index != []
    requires 0 <= Last(headers).tail < |Last(headers).index| && Last(headers).tail == Slot(Last(headers), |uses| - 1)
    ensures var more := seq(|Last(headers).index|, _ => Entry(INVALID, Junk));
      ValueInv(bs, entries + more, GrownHeaders(headers, |entries|, |uses|, known), uses)
  {
    var cur, next := Last(headers), |uses|;
    var more := seq(|cur.index|, _ => Entry(INVALID, Junk));
    var headers' := GrownHeaders(headers, |entries|, next, known);
    var entries' := entries + more;
    forall d | 0 <= d < |entries'| && entries'[d].value.Ptr?
      ensures LeadsTo(bs, entries', headers', uses, d, entries'[d].key / bs)
    {
      var k := entries[d].key / bs;
      GrownRange(cur, |entries|, next, k);
      GrownSlot(cur, |entries|, next, k);
    }
  }

  lemma GrownOld(bs: nat, entries: seq<Entry>, headers: seq<Header>, uses: seq<Use>, committed: nat)
    requires OldInv(entries, headers, uses, committed) && LiveInv(bs, entries, headers, uses, |uses|) && bs > 1
    requires headers != [] && Last(headers).index != [] && committed <= |uses|
    requires 0 <= Last(headers).tail < |Last(headers).index| && Last(headers).tail == Slot(Last(headers), |uses| - 1)
    ensures var more := seq(|Last(headers).index|, _ => Entry(INVALID, Junk));
      OldInv(entries + more, GrownHeaders(headers, |entries|, |uses|, committed), uses, committed)
  {
    var cur, next := Last(headers), |uses|;
    var more := seq(|cur.index|, _ => Entry(INVALID, Junk));
    var headers' := GrownHeaders(headers, |entries|, next, committed);
    forall x, k | 0 <= x < |headers'| - 1 && 0 <= k < |uses| && uses[k].live && k < headers'[x].known
      ensures Finds(entries + more, headers'[x], Last(headers'), k)
    {
      GrownRange(cur, |entries|, next, k);
      GrownSlot(cur, |entries|, next, k);
      if x < |headers| - 1 {
        assert Finds(entries, headers[x], cur, k);
      } else {
        assert Exact(bs, entries, cur, next - 1);
        NotInvalid(next - 1, bs);
      }
    }
  }

  /** The slot for the next use is one of the new ones. */
  lemma GrownInsert(s: State)
    requires LiveInv(s.bs, s.entries, s.headers, s.uses, |s.uses|) && s.prod.Check?
    requires s.headers != [] && Cur(s).index != []
    requires 0 <= Cur(s).tail < |Cur(s).index| && Cur(s).tail == Slot(Cur(s), s.next - 1) && s.next == |s.uses|
    ensures var s' := Grow(s).(prod := StoreKey(s.prod.todo));
      && InsertInv(s') && Cur(s').index != [] && EntryOf(Cur(s'), |s.uses|) < |s'.entries|
      && s'.entries[EntryOf(Cur(s'), |s.uses|)] == Entry(INVALID, Junk)
  {
    hide LiveInv, Slot, EntryOf;
    var cur, next := Cur(s), |s.uses|;
    GrownRange(cur, |s.entries|, next, next);
    GrownSlot(cur, |s.entries|, next, next);
    forall k | 0 <= k < |s.uses| && s.uses[k].live ensures next - 2 * |cur.index| < k {
      LiveEntry(s.bs, s.entries, s.headers, s.uses, next, k);
    }
  }

  lemma GrownTentative(s: State)
    requires TentativeInv(s) && LiveInv(s.bs, s.entries, s.headers, s.uses, |s.uses|) && s.prod.Check?
    requires s.headers != [] && Cur(s).index != [] && s.committed <= |s.uses|
    requires 0 <= Cur(s).tail < |Cur(s).index| && Cur(s).tail == Slot(Cur(s), s.next - 1) && s.next == |s.uses|
    ensures TentativeInv(Grow(s).(prod := StoreKey(s.prod.todo)))
  {
    var s' := Grow(s).(prod := StoreKey(s.prod.todo));
    var cur, next := Cur(s), |s.uses|;
    forall k | s.committed <= k < |s.uses|
      ensures s.uses[k].live && s.uses[k].held && Keyed(s'.entries, EntryOf(Cur(s'), k))
    {
      assert s.uses[k].live && LiveAt(s.bs, s.entries, cur, k, s.uses[k].block, next);
      GrownRange(cur, |s.entries|, next, k);
      GrownSlot(cur, |s.entries|, next, k);
    }
  }

  lemma GrownJunk(s: State)
    requires JunkInv(s.entries, s.headers, |s.uses|, false) && s.headers != [] && Cur(s).index != []
    ensures var s' := Grow(s); JunkInv(s'.entries, s'.headers, |s.uses|, false)
  {}

  lemma GrownParts(s: State)
    requires TailInv(s) && CallInv(s) && s.prod.Check? && s.headers != [] && Cur(s).index != []
    requires 0 <= Cur(s).tail < |Cur(s).index|
    ensures var s' := Grow(s).(prod := StoreKey(s.prod.todo)); TailInv(s') && CallInv(s')
  {
    GrownRange(Cur(s), |s.entries|, s.next, s.next - 1);
  }

  lemma GrownShared(s: State)
    requires Shared(s) && s.prod.Check? && s.headers != [] && Cur(s).index != []
    requires EntryOf(Cur(s), |s.uses|) < |s.entries|
    requires var e := s.entries[EntryOf(Cur(s), |s.uses|)]; e.key != INVALID && e.value != Null
    ensures Shared(Grow(s).(prod := StoreKey(s.prod.todo)))
  {
    hide IndexInv, LiveInv, ValueInv, OldInv, TentativeInv, InsertInv, CallInv, JunkInv, Exacts, TailInv;
    FullRing(s);
    CheckTail(s);
    CommittedWithin(s);
    GrownIndexInv(s.bs, s.entries, s.headers, s.next, s.committed);
    GrownLive(s.bs, s.entries, s.headers, s.uses, s.committed);
    GrownValue(s.bs, s.entries, s.headers, s.uses, s.committed);
    GrownOld(s.bs, s.entries, s.headers, s.uses, s.committed);
    GrownInsert(s);
    GrownTentative(s);
    GrownJunk(s);
    GrownParts(s);
  }

  lemma CheckTail(s: State)
    requires TailInv(s) && IndexInv(s.bs, s.entries, s.headers) && s.prod.Check? && s.headers != []
    ensures s.next == |s.uses| && 0 <= Cur(s).tail < |Cur(s).index| && Cur(s).tail == Slot(Cur(s), s.next - 1)
  {}

  lemma GrownExtends(s: State)
    requires s.headers != [] && Cur(s).index != [] && s.committed <= |s.uses| && s.prod.Check?
    ensures Extends(s, Grow(s).(prod := StoreKey(s.prod.todo)))
  {}

  lemma GrowKeeps(s: State, ok: bool, full: bool, block: nat)
    requires Inv(s) && s.prod.Check? && Sound(s) && |ProducerStep(s, ok, full, block).headers| != |s.headers|
    ensures Inv(ProducerStep(s, ok, full, block))
  {
    hide IndexInv, LiveInv, ValueInv, OldInv, TailInv, TentativeInv, InsertInv, CallInv, PlaceInv, CountInv, ConsAll;
    hide ZeroInv, Extends, At, JunkInv;
    CheckLooks(s);
    var s' := ProducerStep(s, ok, full, block);
    GrownShared(s);
    GrownExtends(s);
    RestExtends(s, s');
  }

  // ---------------------------------------------------------------- the invariant over runs

  lemma ProducerKeeps(s: State, ok: bool, full: bool, block: nat)
    requires Inv(s) && Sound(s)
    ensures Inv(ProducerStep(s, ok, full, block))
  {
    hide Inv, Sound;
    match s.prod
    case Ready =>
    case Check(_) =>
      if |ProducerStep(s, ok, full, block).headers| == |s.headers| {
        CheckKeeps(s, ok, full, block);
      } else {
        GrowKeeps(s, ok, full, block);
      }
    case StoreKey(_) => KeyKeeps(s, ok, full, block);
    case StoreTail(_) => StoreTailKeeps(s, ok, full, block);
    case Requisition(_) => RequisitionKeeps(s, ok, full, block);
    case StoreValue(_, _) => StoreValueKeeps(s, ok, full, block);
    case DropTail => DropTailKeeps(s, ok, full, block);
    case DropValue(_) => DropValueKeeps(s, ok, full, block);
    case Undo(_) => UndoKeeps(s, ok, full, block);
    case UndoTail(_) => UndoTailKeeps(s, ok, full, block);
    case Return(_) => ReturnKeeps(s, ok, full, block);
    case Publish => PublishKeeps(s, ok, full, block);
  }

  lemma StepKeeps(s: State, a: Action)
    requires Inv(s) && Careful(s, a)
    ensures Inv(Step(s, a))
  {
    hide Inv, Sound;
    match a
    case Enqueue(count) => if s.prod == Ready && s.bs > 0 { StartKeeps(s, count); }
    case Produce(ok, full, block) => if Sound(s) { ProducerKeeps(s, ok, full, block); }
    case Claim(u, n) =>
      if u < |s.cons| && s.cons[u] == Idle && 0 < s.tailIndex && s.headIndex + n <= s.tailIndex {
        ClaimKeeps(s, u, n);
      }
    case Consume(u) => if u < |s.cons| { ConsumeKeeps(s, u); }
  }

  lemma {:induction false} RunKeeps(s: State, schedule: seq<Action>)
    requires Inv(s) && CarefulRun(s, schedule)
    ensures Inv(Run(s, schedule))
    decreases |schedule|
  {
    hide Inv, Careful;
    if schedule != [] {
      StepKeeps(s, schedule[0]);
      RunKeeps(Step(s, schedule[0]), schedule[1..]);
    }
  }

  lemma InitIndex(bs: nat, entries: seq<Entry>, headers: seq<Header>, capacity: nat)
    requires bs > 1 && capacity > 0 && NewIndex(entries, headers, capacity)
    ensures IndexInv(bs, entries, headers) && headers[0].tail == Slot(headers[0], -1)
  {
    DivUnique(-1, capacity, -1);
  }

  lemma InitInv(s: State, capacity: nat)
    requires Init(s, capacity)
    ensures Inv(s)
  {
    hide IndexInv, Slot;
    if s.headers != [] {
      InitIndex(s.bs, s.entries, s.headers, capacity);
    } else {
      NoIndex(s.bs, s.entries);
    }
  }

  lemma NoIndex(bs: nat, entries: seq<Entry>)
    ensures IndexInv(bs, entries, [])
  {}

  lemma ReachableInv(s0: State, capacity: nat, schedule: seq<Action>)
    requires Init(s0, capacity) && CarefulRun(s0, schedule)
    ensures Inv(Run(s0, schedule))
  {
    InitInv(s0, capacity);
    RunKeeps(s0, schedule);
  }

  // ---------------------------------------------------------------- what holds in every run

  /** Whatever the producer inserts, takes back or grows meanwhile, a consumer's lookup arrives at the one
      entry of the block that holds its index, through the current header or an older one; the slot it
      starts from has a key, the entry has a block, and the block's counter has room.  This is so for every
      call that asked for something, and for one that asked for nothing while its block has unread elements. */
  lemma LookupFindsBlock(s0: State, capacity: nat, schedule: seq<Action>, u: nat)
    requires Init(s0, capacity) && CarefulRun(s0, schedule) && u < |Run(s0, schedule).cons|
    ensures var s := Run(s0, schedule);
      var pc := s.cons[u];
      s.bs > 0 && (AsksNothing(pc) ==> Unread(s, BlockOf(pc.i, s.bs))) ==>
        && ConsumerOk(s, pc)
        && (pc.AtEntry? ==>
              var k := BlockOf(pc.i, s.bs);
              && k < |s.uses| && s.uses[k].live && s.uses[k].block < |s.place|
              && s.place[s.uses[k].block] == InUse(k)
              && s.entries[s.headers[pc.h].index[pc.slot]] == Entry(k * s.bs, Ptr(s.uses[k].block)))
        && (pc.Reading? ==>
              var k := BlockOf(pc.i, s.bs);
              && k < |s.uses| && pc.block == s.uses[k].block < |s.place| && s.place[pc.block] == InUse(k)
              && (pc.n == 0 ==> s.count[pc.block] < s.bs))
  {
    var s := Run(s0, schedule);
    ReachableInv(s0, capacity, schedule);
    BlockSize(s);
    if AsksNothing(s.cons[u]) ==> Unread(s, BlockOf(s.cons[u].i, s.bs)) { StepsWell(s, u); }
  }

  lemma StepsWell(s: State, u: nat)
    requires Inv(s) && u < |s.cons| && Careful(s, Consume(u)) && s.bs > 0
    ensures var pc := s.cons[u];
      && ConsumerOk(s, pc)
      && (pc.AtEntry? ==>
            var k := BlockOf(pc.i, s.bs);
            && k < |s.uses| && s.uses[k].live && s.uses[k].block < |s.place|
            && s.place[s.uses[k].block] == InUse(k)
            && s.entries[s.headers[pc.h].index[pc.slot]] == Entry(k * s.bs, Ptr(s.uses[k].block)))
      && (pc.Reading? ==>
            var k := BlockOf(pc.i, s.bs);
            && k < |s.uses| && pc.block == s.uses[k].block < |s.place| && s.place[pc.block] == InUse(k)
            && (pc.n == 0 ==> s.count[pc.block] < s.bs))
  {
    hide IndexInv, LiveInv, ValueInv, OldInv, TentativeInv, InsertInv, ZeroInv, JunkInv, TailInv, PlaceInv;
    ConsumeKeeps(s, u);
    var pc := s.cons[u];
    assert Cons(s, pc);
    if pc.AtEntry? || pc.Reading? {
      BlockIsLive(s, u);
      LiveKept(s.place, s.count, s.uses, s.prod, BlockOf(pc.i, s.bs));
      if pc.AtEntry? { LookingOk(s, u); }
    }
  }

  // ---- calls that ask for nothing

  /** What happens to a call that asked for nothing, in a run in which all such calls have been careful so far.
      The assertion in the lookup holds if and only if its block is still in the index.  And the counter it adds
      nothing to is found full, so that the block is given back a second time, if and only if no element of the
      block is left to be read. */
  lemma AskingNothing(s0: State, capacity: nat, schedule: seq<Action>, u: nat)
    requires Init(s0, capacity) && CarefulRun(s0, schedule)
    requires u < |Run(s0, schedule).cons| && AsksNothing(Run(s0, schedule).cons[u])
    ensures var s := Run(s0, schedule);
      var pc := s.cons[u];
      && s.bs > 0
      && (pc.AtEntry? ==>
            var k := BlockOf(pc.i, s.bs);
            && k < |s.uses| && pc.h < |s.headers| && 0 <= pc.slot < |s.headers[pc.h].index|
            && s.headers[pc.h].index[pc.slot] < |s.entries|
            && var e := s.entries[s.headers[pc.h].index[pc.slot]];
            (e.key == k * s.bs && e.value != Null <==> s.uses[k].live))
      && (pc.Reading? && pc.block < |s.place| && s.place[pc.block] == InUse(BlockOf(pc.i, s.bs)) ==>
            pc.block < |s.count| && (s.count[pc.block] == s.bs <==> !Unread(s, BlockOf(pc.i, s.bs))))
  {
    var s := Run(s0, schedule);
    ReachableInv(s0, capacity, schedule);
    BlockSize(s);
    hide Inv;
    if s.cons[u].AtEntry? { EntryIffLive(s, u); }
    if s.cons[u].Reading? && s.cons[u].block < |s.place|
      && s.place[s.cons[u].block] == InUse(BlockOf(s.cons[u].i, s.bs))
    {
      FullIffRead(s, u);
    }
  }

  lemma EntryIffLive(s: State, u: nat)
    requires Inv(s) && u < |s.cons| && AsksNothing(s.cons[u]) && s.cons[u].AtEntry? && s.bs > 0
    ensures var pc, k := s.cons[u], BlockOf(s.cons[u].i, s.bs);
      && k < |s.uses| && pc.h < |s.headers| && 0 <= pc.slot < |s.headers[pc.h].index|
      && s.headers[pc.h].index[pc.slot] < |s.entries|
      && var e := s.entries[s.headers[pc.h].index[pc.slot]];
      (e.key == k * s.bs && e.value != Null <==> s.uses[k].live)
  {
    hide IndexInv, LiveInv, ValueInv, OldInv, TailInv, TentativeInv, InsertInv, ZeroInv, PlaceInv, CountInv;
    hide JunkInv, CallInv;
    hide Slot, At, EntryOf, ConsInv, BlockOf, Known;
    var pc, k := s.cons[u], BlockOf(s.cons[u].i, s.bs);
    assert Cons(s, pc);
    KnowsBlock(s, pc);
    KnownWithin(s, pc.h);
    SlotInRange(s, pc.h, k);
    if s.uses[k].live {
      Found(s, pc.h, k);
      FoundAt(s.headers[pc.h], k);
    } else if s.entries[s.headers[pc.h].index[pc.slot]].key == k * s.bs {
      NotThere(s, s.headers[pc.h].index[pc.slot], k);
    }
  }

  lemma KnowsBlock(s: State, pc: Consumer)
    requires Cons(s, pc) && pc.AtEntry? && s.bs > 0
    ensures var k := BlockOf(pc.i, s.bs);
      && pc.h < |s.headers| && s.headers[pc.h].index != [] && pc.slot == Slot(s.headers[pc.h], k)
      && k < Known(s.headers, pc.h, s.committed)
  {
    BlockBelow(pc.i, Size(pc), Known(s.headers, pc.h, s.committed), s.bs);
  }

  lemma FoundAt(h: Header, k: int)
    requires h.index != []
    ensures 0 <= Slot(h, k) < |h.index| && EntryOf(h, k) == h.index[Slot(h, k)]
  {
    InSlot(h, k);
  }

  /** No header knows more block uses than are committed. */
  lemma KnownWithin(s: State, x: nat)
    requires OldInv(s.entries, s.headers, s.uses, s.committed) && TailInv(s) && x < |s.headers|
    ensures Known(s.headers, x, s.committed) <= s.committed <= |s.uses|
  {}

  lemma SlotInRange(s: State, x: nat, k: int)
    requires IndexInv(s.bs, s.entries, s.headers) && x < |s.headers| && s.headers[x].index != []
    ensures var h := s.headers[x]; 0 <= Slot(h, k) < |h.index| && h.index[Slot(h, k)] < |s.entries|
  {
    assert HeaderOk(s.bs, s.entries, s.headers[x]);
  }

  /** An entry with the key of a use that has been unlinked has no block. */
  lemma NotThere(s: State, e: nat, k: nat)
    requires ValueInv(s.bs, s.entries, s.headers, s.uses) && JunkInv(s.entries, s.headers, |s.uses|, HasKey(s.prod))
    requires InsertInv(s) && e < |s.entries| && s.entries[e].key == k * s.bs && k < |s.uses| && !s.uses[k].live
    ensures s.entries[e].value == Null
  {
    NotInvalid(k, s.bs);
    DivExact(k, s.bs);
    DivExact(|s.uses|, s.bs);
  }

  lemma FullIffRead(s: State, u: nat)
    requires Inv(s) && u < |s.cons| && AsksNothing(s.cons[u]) && s.cons[u].Reading? && s.bs > 0
    requires s.cons[u].block < |s.place| && s.place[s.cons[u].block] == InUse(BlockOf(s.cons[u].i, s.bs))
    ensures s.cons[u].block < |s.count|
    ensures s.count[s.cons[u].block] == s.bs <==> !Unread(s, BlockOf(s.cons[u].i, s.bs))
  {
    hide IndexInv, LiveInv, ValueInv, OldInv, TailInv, TentativeInv, InsertInv, ZeroInv, JunkInv, CallInv, Unfinished;
    var pc, k := s.cons[u], BlockOf(s.cons[u].i, s.bs);
    assert Cons(s, pc);
    assert HeldBy(s.uses, s.prod, k, pc.block);
    assert CountOk(s.bs, s.count, s.headIndex, s.cons, s.uses[k], k);
    if !s.uses[k].live {
      var v := TotalPositive(s.cons, ClosingW(k));
      assert Cons(s, s.cons[v]);
    }
  }

  /** A block without unread elements stays so: a call that asked for nothing is careful at all its steps if its
      block was published when it began and has unread elements when it ends. */
  lemma {:induction false} UnreadBefore(s: State, schedule: seq<Action>, k: nat)
    requires s.bs > 0 && k < s.committed
    requires Run(s, schedule).bs > 0 && Unread(Run(s, schedule), k)
    ensures Unread(s, k)
    decreases |schedule|
  {
    hide Unread;
    if schedule != [] {
      var s' := Step(s, schedule[0]);
      Published(s, schedule[0]);
      if !Unread(s, k) {
        StaysRead(s, schedule[0], k);
        UnreadBefore(s', schedule[1..], k);
      }
    } else {
      assert Run(s, schedule) == s;
    }
  }

  lemma Published(s: State, a: Action)
    ensures Step(s, a).bs == s.bs && Step(s, a).committed >= s.committed
  {
    hide At, LookUp, GrownIndex;
  }

  lemma StaysRead(s: State, a: Action, k: nat)
    requires s.bs > 0 && k < s.committed && !Unread(s, k)
    ensures Step(s, a).bs == s.bs && !Unread(Step(s, a), k)
  {
    var s' := Step(s, a);
    Published(s, a);
    match a
    case Enqueue(_) =>
    case Produce(ok, full, block) => ProduceCons(s, ok, full, block);
    case Claim(u, n) =>
      if s' != s { SumsAfter(s.cons, u, s'.cons[u], s.headIndex, k * s.bs, s.bs, k); }
    case Consume(u) =>
      if u < |s.cons| && ConsumerOk(s, s.cons[u]) {
        ReadsOn(s, u, k);
        SumsAfter(s.cons, u, s'.cons[u], s.headIndex, k * s.bs, s.bs, k);
      }
  }

  lemma ReadsOn(s: State, u: nat, k: nat)
    requires s.bs > 0 && u < |s.cons| && ConsumerOk(s, s.cons[u])
    ensures var s' := ConsumerStep(s, u);
      && s'.headIndex == s.headIndex && s'.committed == s.committed && s'.bs == s.bs
      && |s'.cons| == |s.cons| && s'.cons == s.cons[u := s'.cons[u]]
      && Pending(s'.cons[u], k * s.bs, s.bs) <= Pending(s.cons[u], k * s.bs, s.bs)
  {
    hide LookUp;
  }

  // ---- lookups end

  /** How many more steps a consumer takes at most. */
  function LookupLeft(pc: Consumer): nat {
    match pc
    case Idle => 0
    case Claimed(_, n) => 10 * n + 11
    case AtHeader(_, n, _) => 10 * n + 10
    case AtTail(_, n, _, _) => 10 * n + 9
    case AtEntry(_, n, _, _) => 10 * n + 8
    case Reading(_, n, _, _, _) => 10 * n + 7
    case Clearing(_, n, _, _, _, _) => if n == 0 then 2 else 10 * n + 10
    case Releasing(_, n, _, _, _, _) => if n == 0 then 1 else 10 * n + 9
  }

  lemma ConsumerNearer(s: State, u: nat)
    requires u < |s.cons| && s.cons[u] != Idle && ConsumerOk(s, s.cons[u])
    ensures u < |ConsumerStep(s, u).cons| && LookupLeft(ConsumerStep(s, u).cons[u]) < LookupLeft(s.cons[u])
  {
    hide LookUp;
  }

  /** Consumers never wait: in every run each step of a consumer brings it closer to its end, whatever the producer
      and the other consumers do, and no other step takes it further from it; unless it asked for nothing and its
      block has no unread elements. */
  lemma LookupEnds(s0: State, capacity: nat, schedule: seq<Action>, u: nat, a: Action)
    requires Init(s0, capacity) && CarefulRun(s0, schedule) && u < |Run(s0, schedule).cons|
    requires Run(s0, schedule).cons[u] != Idle && Careful(Run(s0, schedule), Consume(u))
    ensures var s, s' := Run(s0, schedule), Step(Run(s0, schedule), a);
      && |s'.cons| == |s.cons|
      && (if a == Consume(u) then LookupLeft(s'.cons[u]) < LookupLeft(s.cons[u]) else s'.cons[u] == s.cons[u])
  {
    hide Inv;
    var s := Run(s0, schedule);
    ReachableInv(s0, capacity, schedule);
    BlockSize(s);
    if a == Consume(u) {
      LookupFindsBlock(s0, capacity, schedule, u);
      ConsumerNearer(s, u);
    }
    OthersCons(s, a, u);
    hide Step, ConsumerStep, ConsumerOk, LookupLeft;
  }

  lemma OthersCons(s: State, a: Action, u: nat)
    requires u < |s.cons| && s.cons[u] != Idle
    ensures var s' := Step(s, a); |s'.cons| == |s.cons| && (a != Consume(u) ==> s'.cons[u] == s.cons[u])
    ensures a == Consume(u) && ConsumerOk(s, s.cons[u]) ==> Step(s, a) == ConsumerStep(s, u)
  {
    hide Sound, ProducerStep;
    if a.Produce? { ProduceCons(s, a.ok, a.full, a.block); }
  }

  // ---- two runs in which such a call goes wrong

  /** A sub-queue of two blocks' index, with blocks of two elements, and two consumers. */
  function Small(): State {
    State(2, [Entry(INVALID, Junk), Entry(INVALID, Junk)], [Header([0, 1], 1, 0, 0)], Ready, 0, 0, 0, [], [],
          [Idle, Idle], [], 0, 0)
  }

  /** The same with two elements in its first block. */
  function Filled(): State {
    State(2, [Entry(0, Ptr(0)), Entry(INVALID, Junk)], [Header([0, 1], 0, 0, 0)], Ready, 2, 2, 0, [0], [InUse(0)],
          [Idle, Idle], [Use(0, true, true)], 1, 1)
  }

  /** The action n times. */
  function Times(a: Action, n: nat): (r: seq<Action>)
    ensures |r| == n
  {
    if n == 0 then [] else [a] + Times(a, n - 1)
  }

  lemma {:induction false} RunJoin(s: State, x: seq<Action>, y: seq<Action>)
    ensures Run(s, x + y) == Run(Run(s, x), y)
    decreases |x|
  {
    if x == [] {
      assert x + y == y;
    } else {
      assert (x + y)[1..] == x[1..] + y;
      RunJoin(Step(s, x[0]), x[1..], y);
    }
  }

  lemma RunTimes(s: State, a: Action, n: nat)
    ensures Run(s, Times(a, n)) == if n == 0 then s else Run(Step(s, a), Times(a, n - 1))
  {}

  function Filling(): seq<Action> { [Enqueue(2)] + Times(Produce(true, false, 0), 6) }

  function Keyed2(): State {
    Small().(want := 2, entries := [Entry(0, Junk), Entry(INVALID, Junk)], prod := StoreTail(1))
  }

  function Taken2(): State {
    Keyed2().(headers := [Header([0, 1], 0, 0, 0)], next := 1, place := [InUse(0)], count := [0],
              prod := StoreValue(1, 0))
  }

  lemma FillsTo()
    ensures var go := Produce(true, false, 0);
      && Step(Step(Step(Small(), Enqueue(2)), go), go) == Keyed2()
      && Step(Step(Keyed2(), go), go) == Taken2()
      && Step(Step(Taken2(), go), go) == Filled()
  {
    FillsOne();
    FillsTwo();
    FillsThree();
    hide Step;
  }

  lemma FillsOne()
    ensures var go := Produce(true, false, 0); Step(Step(Step(Small(), Enqueue(2)), go), go) == Keyed2()
  {
    hide Grow, LookUp;
    var s := Step(Step(Small(), Enqueue(2)), Produce(true, false, 0));
    assert s == Small().(want := 2, prod := StoreKey(1));
  }

  lemma FillsTwo()
    ensures var go := Produce(true, false, 0); Step(Step(Keyed2(), go), go) == Taken2()
  {
    hide Grow, LookUp;
    var s := Step(Keyed2(), Produce(true, false, 0));
    assert s == Keyed2().(headers := [Header([0, 1], 0, 0, 0)], next := 1, prod := Requisition(1));
  }

  lemma FillsThree()
    ensures var go := Produce(true, false, 0); Step(Step(Taken2(), go), go) == Filled()
  {
    hide Grow, LookUp;
    var s := Step(Taken2(), Produce(true, false, 0));
    assert s == Filled().(tailIndex := 0, committed := 0, prod := Publish);
  }

  lemma Fills()
    ensures Run(Small(), Filling()) == Filled()
  {
    hide Step;
    var go := Produce(true, false, 0);
    FillsTo();
    var s := Step(Small(), Enqueue(2));
    assert Filling()[1..] == Times(go, 6);
    RunTimes(s, go, 6);
    RunTimes(Step(s, go), go, 5);
    RunTimes(Keyed2(), go, 4);
    RunTimes(Step(Keyed2(), go), go, 3);
    RunTimes(Taken2(), go, 2);
    RunTimes(Step(Taken2(), go), go, 1);
  }

  lemma SmallIsNew()
    ensures Init(Small(), 2)
  {}

  /** The head is at the end of the only block when a call asks for nothing: its lookup arrives at an entry that
      was never used, so the assertions there fail and its next step is undefined. */
  lemma LookupGoesWrong()
    ensures var s := Run(Small(), Filling() + [Claim(1, 2)] + [Claim(0, 0)] + Times(Consume(0), 3));
      && Init(Small(), 2) && s == Filled().(headIndex := 2, cons := [AtEntry(2, 0, 0, 1), Claimed(0, 2)])
      && s.entries[1] == Entry(INVALID, Junk) && !ConsumerOk(s, AtEntry(2, 0, 0, 1))
  {
    SmallIsNew();
    Fills();
    var first := Filling() + [Claim(1, 2)];
    RunJoin(Small(), first + [Claim(0, 0)], Times(Consume(0), 3));
    RunJoin(Small(), first, [Claim(0, 0)]);
    RunJoin(Small(), Filling(), [Claim(1, 2)]);
    RunOne(Filled(), Claim(1, 2));
    RunOne(Step(Filled(), Claim(1, 2)), Claim(0, 0));
    LooksInVain();
    hide Run, Step, Filling, Times;
  }

  /** The filled sub-queue with the head and the two consumers as given. */
  function On(head: nat, cons: seq<Consumer>): State { Filled().(headIndex := head, cons := cons) }

  lemma ClaimsOn(head: nat, cons: seq<Consumer>, u: nat, n: nat)
    requires u < |cons| == 2 && cons[u] == Idle && head + n <= 2
    ensures Step(On(head, cons), Claim(u, n)) == On(head + n, cons[u := Claimed(head, n)])
  {
    hide ConsumerStep, ProducerStep, Sound;
  }

  lemma LoadsHeader(head: nat, cons: seq<Consumer>, u: nat, i: nat, n: nat)
    requires u < |cons| == 2 && cons[u] == Claimed(i, n)
    ensures Step(On(head, cons), Consume(u)) == On(head, cons[u := AtHeader(i, n, 0)])
  {
    hide ProducerStep, Sound, LookUp;
  }

  lemma LoadsTail(head: nat, cons: seq<Consumer>, u: nat, i: nat, n: nat)
    requires u < |cons| == 2 && cons[u] == AtHeader(i, n, 0)
    ensures Step(On(head, cons), Consume(u)) == On(head, cons[u := AtTail(i, n, 0, 0)])
  {
    hide ProducerStep, Sound, LookUp;
  }

  lemma FindsSlot(head: nat, cons: seq<Consumer>, u: nat, i: nat, n: nat)
    requires u < |cons| == 2 && cons[u] == AtTail(i, n, 0, 0)
    ensures Step(On(head, cons), Consume(u)) == On(head, cons[u := AtEntry(i, n, 0, (i - i % 2) / 2 % 2)])
  {
    hide ProducerStep, Sound;
  }

  lemma LoadsBlock(head: nat, cons: seq<Consumer>, u: nat, i: nat, n: nat)
    requires u < |cons| == 2 && cons[u] == AtEntry(i, n, 0, 0)
    ensures Step(On(head, cons), Consume(u)) == On(head, cons[u := Reading(i, n, 0, 0, 0)])
  {
    hide ProducerStep, Sound, LookUp, InBlock;
  }

  lemma Arrives(head: nat, cons: seq<Consumer>, u: nat, i: nat, n: nat)
    requires u < |cons| == 2 && cons[u] == Claimed(i, n)
    ensures Run(On(head, cons), Times(Consume(u), 3)) == On(head, cons[u := AtEntry(i, n, 0, (i - i % 2) / 2 % 2)])
  {
    hide Step, On;
    var go := Consume(u);
    var cons1, cons2 := cons[u := AtHeader(i, n, 0)], cons[u := AtTail(i, n, 0, 0)];
    LoadsHeader(head, cons, u, i, n);
    LoadsTail(head, cons1, u, i, n);
    assert cons1[u := AtTail(i, n, 0, 0)] == cons2;
    FindsSlot(head, cons2, u, i, n);
    assert cons2[u := AtEntry(i, n, 0, (i - i % 2) / 2 % 2)] == cons[u := AtEntry(i, n, 0, (i - i % 2) / 2 % 2)];
    RunTimes(On(head, cons), go, 3);
    RunTimes(On(head, cons1), go, 2);
    RunTimes(On(head, cons2), go, 1);
  }

  lemma BothClaim()
    ensures Step(Step(Filled(), Claim(1, 2)), Claim(0, 0)) == On(2, [Claimed(2, 0), Claimed(0, 2)])
  {
    hide Step;
    ClaimsOn(0, [Idle, Idle], 1, 2);
    assert [Idle, Idle][1 := Claimed(0, 2)] == [Idle, Claimed(0, 2)];
    ClaimsOn(2, [Idle, Claimed(0, 2)], 0, 0);
    assert [Idle, Claimed(0, 2)][0 := Claimed(2, 0)] == [Claimed(2, 0), Claimed(0, 2)];
  }

  lemma LooksInVain()
    ensures Run(Step(Step(Filled(), Claim(1, 2)), Claim(0, 0)), Times(Consume(0), 3))
         == Filled().(headIndex := 2, cons := [AtEntry(2, 0, 0, 1), Claimed(0, 2)])
  {
    hide Step, Run, Times;
    BothClaim();
    Arrives(2, [Claimed(2, 0), Claimed(0, 2)], 0, 2, 0);
    assert [Claimed(2, 0), Claimed(0, 2)][0 := AtEntry(2, 0, 0, 1)] == [AtEntry(2, 0, 0, 1), Claimed(0, 2)];
  }

  lemma RunOne(s: State, a: Action)
    ensures Run(s, [a]) == Step(s, a)
  {
    assert Run(Step(s, a), []) == Step(s, a);
  }

  /** A consumer empties the block while a call that asked for nothing is about to mark nothing in it: both find
      the counter full, and both are about to give the block back. */
  lemma BlockIsFreedTwice()
    ensures var schedule := Filling() + [Claim(0, 0)] + Times(Consume(0), 4) + [Claim(1, 2)] + Times(Consume(1), 6)
                            + Times(Consume(0), 2);
      var s := Run(Small(), schedule);
      && Init(Small(), 2) && s.cons == [Releasing(0, 0, 0, 0, 0, 0), Releasing(2, 0, 0, 0, 0, 0)]
  {
    Fills();
    var start := Filling() + [Claim(0, 0)];
    var first := start + Times(Consume(0), 4);
    var second := first + [Claim(1, 2)];
    var third := second + Times(Consume(1), 6);
    RunJoin(Small(), third, Times(Consume(0), 2));
    RunJoin(Small(), second, Times(Consume(1), 6));
    RunJoin(Small(), first, [Claim(1, 2)]);
    RunJoin(Small(), start, Times(Consume(0), 4));
    RunJoin(Small(), Filling(), [Claim(0, 0)]);
    RunOne(Filled(), Claim(0, 0));
    AboutToMark();
    RunOne(Filled().(cons := [Reading(0, 0, 0, 0, 0), Idle]), Claim(1, 2));
    Drains();
    MarksTwice();
    SmallIsNew();
    hide Run, Step, Times, Filling, Init;
  }

  lemma RunLast(s: State, a: Action, n: nat)
    ensures Run(s, Times(a, n + 1)) == Step(Run(s, Times(a, n)), a)
    decreases n
  {
    if n > 0 { RunLast(Step(s, a), a, n - 1); }
  }

  lemma AboutToMark()
    ensures Run(Step(Filled(), Claim(0, 0)), Times(Consume(0), 4)) == Filled().(cons := [Reading(0, 0, 0, 0, 0), Idle])
  {
    hide Step, Run, Times;
    ClaimsOn(0, [Idle, Idle], 0, 0);
    assert [Idle, Idle][0 := Claimed(0, 0)] == [Claimed(0, 0), Idle];
    Arrives(0, [Claimed(0, 0), Idle], 0, 0, 0);
    assert [Claimed(0, 0), Idle][0 := AtEntry(0, 0, 0, 0)] == [AtEntry(0, 0, 0, 0), Idle];
    LoadsBlock(0, [AtEntry(0, 0, 0, 0), Idle], 0, 0, 0);
    assert [AtEntry(0, 0, 0, 0), Idle][0 := Reading(0, 0, 0, 0, 0)] == [Reading(0, 0, 0, 0, 0), Idle];
    RunLast(Step(Filled(), Claim(0, 0)), Consume(0), 3);
  }

  /** The block drained and about to be given back, with the other call still about to mark nothing. */
  function Drained(): State {
    Filled().(entries := [Entry(0, Null), Entry(INVALID, Junk)], headIndex := 2, count := [2],
              cons := [Reading(0, 0, 0, 0, 0), Releasing(2, 0, 0, 0, 0, 0)], uses := [Use(0, false, true)])
  }

  lemma Looks()
    ensures var s := Step(Filled().(cons := [Reading(0, 0, 0, 0, 0), Idle]), Claim(1, 2));
      Run(s, Times(Consume(1), 4)) == On(2, [Reading(0, 0, 0, 0, 0), Reading(0, 2, 0, 0, 0)])
  {
    hide Step, Run, Times;
    var one := Reading(0, 0, 0, 0, 0);
    ClaimsOn(0, [one, Idle], 1, 2);
    assert [one, Idle][1 := Claimed(0, 2)] == [one, Claimed(0, 2)];
    Arrives(2, [one, Claimed(0, 2)], 1, 0, 2);
    assert [one, Claimed(0, 2)][1 := AtEntry(0, 2, 0, 0)] == [one, AtEntry(0, 2, 0, 0)];
    LoadsBlock(2, [one, AtEntry(0, 2, 0, 0)], 1, 0, 2);
    assert [one, AtEntry(0, 2, 0, 0)][1 := Reading(0, 2, 0, 0, 0)] == [one, Reading(0, 2, 0, 0, 0)];
    RunLast(Step(On(0, [one, Idle]), Claim(1, 2)), Consume(1), 3);
  }

  lemma Marks(s: State, u: nat, m: nat)
    requires s.bs == 2 && u < |s.cons| && s.cons[u].Reading? && s.cons[u].block < |s.count|
    requires s.cons[u].h < |s.headers| && s.headers[s.cons[u].h].index != []
    requires m == InBlock(s.cons[u].i, s.cons[u].n, 2) && s.count[s.cons[u].block] + m == 2
    ensures var pc := s.cons[u];
      Step(s, Consume(u)) == s.(count := s.count[pc.block := 2],
        cons := s.cons[u := Clearing(pc.i + m, pc.n - m, pc.h, pc.slot, pc.block, pc.i / 2)])
  {
    hide ProducerStep, Sound, LookUp, InBlock;
  }

  lemma InFirst(n: nat)
    requires n <= 2
    ensures InBlock(0, n, 2) == n
  {}

  /** The other consumer has found the counter full. */
  function Emptied(): State {
    On(2, [Reading(0, 0, 0, 0, 0), Clearing(2, 0, 0, 0, 0, 0)]).(count := [2])
  }

  lemma MarksBoth()
    ensures Step(On(2, [Reading(0, 0, 0, 0, 0), Reading(0, 2, 0, 0, 0)]), Consume(1)) == Emptied()
  {
    hide Step, InBlock;
    var one := Reading(0, 0, 0, 0, 0);
    InFirst(2);
    Marks(On(2, [one, Reading(0, 2, 0, 0, 0)]), 1, 2);
    assert [one, Reading(0, 2, 0, 0, 0)][1 := Clearing(2, 0, 0, 0, 0, 0)] == [one, Clearing(2, 0, 0, 0, 0, 0)];
    assert [0][0 := 2] == [2];
  }

  lemma UnlinksFirst()
    ensures Step(Emptied(), Consume(1)) == Drained()
  {
    hide ProducerStep, Sound, LookUp, InBlock;
  }

  lemma Drains()
    ensures Run(Step(Filled().(cons := [Reading(0, 0, 0, 0, 0), Idle]), Claim(1, 2)), Times(Consume(1), 6)) == Drained()
  {
    hide Step, Run, Times, Drained, Emptied, Filled;
    var s := Step(Filled().(cons := [Reading(0, 0, 0, 0, 0), Idle]), Claim(1, 2));
    Looks();
    MarksBoth();
    UnlinksFirst();
    RunLast(s, Consume(1), 4);
    RunLast(s, Consume(1), 5);
  }

  lemma MarksNone()
    ensures Step(Drained(), Consume(0)) == Drained().(cons := [Clearing(0, 0, 0, 0, 0, 0), Releasing(2, 0, 0, 0, 0, 0)])
  {
    hide Step, InBlock;
    InFirst(0);
    Marks(Drained(), 0, 0);
    assert Drained().cons[0 := Clearing(0, 0, 0, 0, 0, 0)] == [Clearing(0, 0, 0, 0, 0, 0), Releasing(2, 0, 0, 0, 0, 0)];
    assert [2][0 := 2] == [2];
  }

  lemma UnlinksAgain()
    ensures Step(Drained().(cons := [Clearing(0, 0, 0, 0, 0, 0), Releasing(2, 0, 0, 0, 0, 0)]), Consume(0)).cons
         == [Releasing(0, 0, 0, 0, 0, 0), Releasing(2, 0, 0, 0, 0, 0)]
  {
    hide ProducerStep, Sound, LookUp, InBlock;
  }

  lemma MarksTwice()
    ensures Run(Drained(), Times(Consume(0), 2)).cons == [Releasing(0, 0, 0, 0, 0, 0), Releasing(2, 0, 0, 0, 0, 0)]
  {
    hide Step, Drained;
    MarksNone();
    UnlinksAgain();
    RunTimes(Drained(), Consume(0), 2);
    RunTimes(Step(Drained(), Consume(0)), Consume(0), 1);
  }

  // ---- calls that ask for something

  /** If every call asks for something, all are careful: the caller only has to check that max is positive. */
  lemma {:induction false} PositiveClaims(s: State, schedule: seq<Action>)
    requires forall u :: 0 <= u < |s.cons| ==> !AsksNothing(s.cons[u])
    requires forall a :: a in schedule && a.Claim? ==> a.n > 0
    ensures CarefulRun(s, schedule)
    decreases |schedule|
  {
    if schedule != [] {
      var s' := Step(s, schedule[0]);
      hide AsksNothing;
      forall u | 0 <= u < |s'.cons| ensures !AsksNothing(s'.cons[u]) { StillAsks(s, schedule[0], u); }
      PositiveClaims(s', schedule[1..]);
    }
  }

  lemma StillAsks(s: State, a: Action, u: nat)
    requires forall v :: 0 <= v < |s.cons| ==> !AsksNothing(s.cons[v])
    requires (a.Claim? ==> a.n > 0) && u < |Step(s, a).cons|
    ensures |Step(s, a).cons| == |s.cons| && !AsksNothing(Step(s, a).cons[u])
  {
    hide Sound, ProducerStep;
    if a.Produce? { ProduceCons(s, a.ok, a.full, a.block); }
  }

  lemma ProduceCons(s: State, ok: bool, full: bool, block: nat)
    ensures Step(s, Produce(ok, full, block)).cons == s.cons
    ensures Step(s, Produce(ok, full, block)).headIndex == s.headIndex
  {
    hide At, LookUp, GrownIndex;
  }

  // ---------------------------------------------------------------- insertions

  predicate Forward(prod: Producer) {
    prod.Check? || prod.StoreKey? || prod.StoreTail? || prod.Requisition? || prod.StoreValue? || prod.Publish?
  }

  /** How many more steps the producer takes at most before its call is over. */
  function StepsLeft(s: State): int {
    var n := |s.uses| - s.committed;
    match s.prod
    case Ready => 0
    case Check(todo) => 3 * n + 8 * todo + 4
    case StoreKey(todo) => 3 * n + 8 * todo + 3
    case StoreTail(todo) => 3 * n + 8 * todo + 2
    case Requisition(todo) => 3 * n + 8 * todo + 1
    case StoreValue(todo, _) => 3 * n + 8 * todo
    case DropTail => 3 * n + 4
    case DropValue(_) => 3 * n + 3
    case Undo(j) => 3 * n - 2 * j + 2
    case UndoTail(j) => 3 * n - 2 * j + 1
    case Return(j) => n - j + 1
    case Publish => 1
  }

  /** A block that can be handed out: a new one, or one from the pool. */
  predicate Usable(place: seq<Place>, b: nat) { b == |place| || (b < |place| && place[b] == Pool) }

  lemma ProgressForward(s: State, ok: bool, full: bool, block: nat)
    requires Sound(s) && StageOk(s.prod, |s.uses|, s.committed, Target(s.bs, s.tailIndex, s.want))
    requires |s.count| == |s.place| && s.committed <= |s.uses| && Forward(s.prod)
    ensures var left := StepsLeft(ProducerStep(s, ok, full, block));
      && 0 <= left <= StepsLeft(s)
      && ((s.prod.Requisition? && ok ==> Usable(s.place, block)) ==> left < StepsLeft(s))
  {
    hide Sound, At, LookUp, GrownIndex, Target;
  }

  lemma ProgressBack(s: State, ok: bool, full: bool, block: nat)
    requires Sound(s) && StageOk(s.prod, |s.uses|, s.committed, Target(s.bs, s.tailIndex, s.want))
    requires |s.count| == |s.place| && s.committed <= |s.uses| && !Forward(s.prod) && !s.prod.Ready?
    ensures var left := StepsLeft(ProducerStep(s, ok, full, block));
      && 0 <= left <= StepsLeft(s)
      && ((s.prod.Requisition? && ok ==> Usable(s.place, block)) ==> left < StepsLeft(s))
  {
    hide Sound, At, LookUp, GrownIndex, Target;
  }

  lemma OthersDoNot(s: State, a: Action)
    requires a.Claim? || a.Consume?
    ensures StepsLeft(Step(s, a)) == StepsLeft(s)
  {}

  /** Every insertion ends: the producer's steps are always defined, each brings its call closer to the end,
      whatever fails, and nothing that consumers do takes it further from it. */
  lemma InsertionEnds(s0: State, capacity: nat, schedule: seq<Action>, a: Action)
    requires Init(s0, capacity) && CarefulRun(s0, schedule) && !a.Enqueue?
    ensures var s := Run(s0, schedule);
      && Sound(s) && (s.prod.Ready? <==> StepsLeft(s) == 0)
      && 0 <= StepsLeft(Step(s, a)) <= StepsLeft(s)
      && (a.Produce? && !s.prod.Ready? && (s.prod.Requisition? && a.ok ==> Usable(s.place, a.block)) ==>
            StepsLeft(Step(s, a)) < StepsLeft(s))
  {
    var s := Run(s0, schedule);
    ReachableInv(s0, capacity, schedule);
    ProducerSound(s);
    hide Sound, IndexInv, LiveInv, ValueInv, OldInv, TailInv, TentativeInv, InsertInv, ConsAll, ConsumerStep,
      ProducerStep;
    hide CountInv, ZeroInv, JunkInv;
    if a.Produce? {
      if Forward(s.prod) {
        ProgressForward(s, a.ok, a.full, a.block);
      } else if !s.prod.Ready? {
        ProgressBack(s, a.ok, a.full, a.block);
      }
    } else {
      OthersDoNot(s, a);
    }
  }

  lemma ReadyStays(s: State, ok: bool, full: bool, block: nat)
    requires Sound(s)
    ensures s.prod.Ready? ==> ProducerStep(s, ok, full, block) == s
  {}

  lemma GrownRoom(s: State)
    requires Inv(s) && s.prod.Check? && s.headers != [] && Cur(s).index != []
    requires Inv(Grow(s).(prod := StoreKey(s.prod.todo)))
    ensures var s' := Grow(s);
      && Cur(s').index != [] && At(Cur(s'), Cur(s').tail + 1) < |s'.entries|
      && s'.entries[At(Cur(s'), Cur(s').tail + 1)] == Entry(INVALID, Junk)
  {
    hide IndexInv, LiveInv, ValueInv, OldInv, InsertInv, JunkInv, TentativeInv, PlaceInv, CountInv, ConsAll, ZeroInv;
    hide CallInv, GrownIndex, EntryOf, Slot;
    CheckTail(s);
    GrownInsert(s);
    NextEntry(Grow(s).(prod := StoreKey(s.prod.todo)));
  }

  /** A grown index has room: the slot after its tail has never been used. */
  lemma GrowthFindsRoom(s0: State, capacity: nat, schedule: seq<Action>, a: Action)
    requires Init(s0, capacity) && CarefulRun(s0, schedule)
    requires |Step(Run(s0, schedule), a).headers| > |Run(s0, schedule).headers|
    ensures var s' := Step(Run(s0, schedule), a);
      && s'.headers != [] && Cur(s').index != [] && At(Cur(s'), Cur(s').tail + 1) < |s'.entries|
      && s'.entries[At(Cur(s'), Cur(s').tail + 1)] == Entry(INVALID, Junk)
  {
    hide Inv;
    var s := Run(s0, schedule);
    ReachableInv(s0, capacity, schedule);
    Grew(s, a);
    StepKeeps(s, a);
    GrownRoom(s);
  }

  /** The index grows when, and only when, the producer looks at the slot for its next block, finds it taken by a
      block not yet drained, and is refused neither room nor memory. */
  lemma GrowsWhenTaken(s0: State, capacity: nat, schedule: seq<Action>, a: Action)
    requires Init(s0, capacity) && CarefulRun(s0, schedule)
    ensures var s := Run(s0, schedule);
      |Step(s, a).headers| > |s.headers| <==> a.Produce? && s.prod.Check? && a.ok && !a.full && SlotTaken(s)
  {
    hide Inv;
    var s := Run(s0, schedule);
    ReachableInv(s0, capacity, schedule);
    if s.prod.Check? && s.headers != [] { TakenExactly(s); }
    ReachableSound(s);
    GrowsHere(s, a);
  }

  lemma ReachableSound(s: State)
    requires Inv(s)
    ensures Sound(s)
  {
    ProducerSound(s);
    hide Sound, Inv;
  }

  lemma GrowsHere(s: State, a: Action)
    requires Sound(s)
    requires s.prod.Check? && s.headers != [] ==>
      && At(Cur(s), Cur(s).tail + 1) < |s.entries|
      && var e := s.entries[At(Cur(s), Cur(s).tail + 1)]; e.key == INVALID || e.value == Null <==> !SlotTaken(s)
    ensures |Step(s, a).headers| > |s.headers| <==> a.Produce? && s.prod.Check? && a.ok && !a.full && SlotTaken(s)
  {
    hide At, LookUp, GrownIndex;
  }

  lemma Grew(s: State, a: Action)
    requires |Step(s, a).headers| > |s.headers|
    ensures a.Produce? && s.prod.Check? && s.headers != [] && Cur(s).index != []
    ensures Step(s, a) == Grow(s).(prod := StoreKey(s.prod.todo))
  {}

  predicate IsEnqueue(a: Action) { a.Enqueue? }

  /** The call that started in s with `count` elements is still going, has failed, or has succeeded. */
  ghost predicate Outcome(s: State, s': State, count: nat) {
    && s'.bs == s.bs && s.bs > 0 && s.committed <= |s'.uses| && s.committed <= |s.uses|
    && (forall k :: 0 <= k < s.committed ==> s'.uses[k].block == s.uses[k].block)
    && (|| (s'.tailIndex == s.tailIndex && s'.committed == s.committed && (s'.prod != Ready ==> s'.want == count))
        || (s'.prod == Ready && s'.tailIndex == s.tailIndex + count && s'.committed == Ceil(s.tailIndex + count, s.bs)
            && s.committed <= s'.committed))
  }

  lemma OutcomeStep(s: State, s': State, count: nat, a: Action)
    requires Outcome(s, s', count) && Inv(s') && !IsEnqueue(a) && Careful(s', a)
    ensures Outcome(s, Step(s', a), count)
  {
    hide IndexInv, LiveInv, ValueInv, OldInv, InsertInv, TailInv, JunkInv, TentativeInv, PlaceInv, CountInv, ConsAll;
    hide ZeroInv;
    match a
    case Produce(ok, full, block) => ProduceSame(s', ok, full, block);
    case Claim(u, n) =>
    case Consume(u) => if u < |s'.cons| { ConsumeSame(s', u); }
  }

  predicate SameUses(s: State, s': State) {
    s.committed <= |s.uses| && s.committed <= |s'.uses|
      && forall k :: 0 <= k < s.committed ==> s'.uses[k].block == s.uses[k].block
  }

  lemma UsesKept(s: State, ok: bool, full: bool, block: nat)
    requires s.committed <= |s.uses| && Sound(s)
    ensures SameUses(s, ProducerStep(s, ok, full, block))
  {
    hide Sound, At, LookUp, GrownIndex;
  }

  /** No step changes the block of a committed use. */
  lemma ProduceSame(s: State, ok: bool, full: bool, block: nat)
    requires s.committed <= |s.uses|
    ensures var s' := Step(s, Produce(ok, full, block));
      && s'.bs == s.bs && (s.prod == Ready ==> s' == s) && SameUses(s, s')
      && (if s.prod == Publish && Sound(s)
          then s'.prod == Ready && s'.tailIndex == s.tailIndex + s.want && s'.committed == |s.uses|
          else s'.tailIndex == s.tailIndex && s'.committed == s.committed && s'.want == s.want)
  {
    if Sound(s) { UsesKept(s, ok, full, block); }
    hide Sound, At, LookUp, GrownIndex;
  }

  lemma ConsumeSame(s: State, u: nat)
    requires u < |s.cons|
    ensures var s' := Step(s, Consume(u));
      && s'.bs == s.bs && s'.prod == s.prod && s'.want == s.want
      && s'.tailIndex == s.tailIndex && s'.committed == s.committed && |s'.uses| == |s.uses|
      && (forall k :: 0 <= k < |s.uses| ==> s'.uses[k].block == s.uses[k].block)
  {}

  lemma {:induction false} OutcomeRun(s: State, s': State, count: nat, schedule: seq<Action>)
    requires Outcome(s, s', count) && Inv(s') && CarefulRun(s', schedule)
    requires forall a :: a in schedule ==> !IsEnqueue(a)
    ensures Outcome(s, Run(s', schedule), count)
    decreases |schedule|
  {
    hide Outcome, Inv, Careful;
    if schedule != [] {
      OutcomeStep(s, s', count, schedule[0]);
      StepKeeps(s', schedule[0]);
      OutcomeRun(s, Step(s', schedule[0]), count, schedule[1..]);
    }
  }

  /** An insertion is all or nothing: when it is over, either its elements are in, in exactly as many
      blocks as they need, or the sub-queue is as it was; in both cases the index leads to exactly the live
      uses of committed blocks, and no other block is kept. */
  lemma EnqueueAllOrNothing(s0: State, capacity: nat, before: seq<Action>, count: nat, during: seq<Action>)
    requires Init(s0, capacity) && Run(s0, before).prod == Ready
    requires CarefulRun(s0, before) && CarefulRun(Step(Run(s0, before), Enqueue(count)), during)
    requires forall a :: a in during ==> !IsEnqueue(a)
    requires Run(Step(Run(s0, before), Enqueue(count)), during).prod == Ready
    ensures var s := Run(s0, before);
      var s' := Run(Step(s, Enqueue(count)), during);
      && s.bs > 0 && |s.uses| == s.committed <= |s'.uses| == s'.committed
      && (forall k :: 0 <= k < |s.uses| ==> s'.uses[k].block == s.uses[k].block)
      && (|| (s'.tailIndex == s.tailIndex && |s'.uses| == |s.uses|)
          || (s'.tailIndex == s.tailIndex + count && |s'.uses| == Ceil(s.tailIndex + count, s.bs)))
      && Exactly(s')
  {
    hide Inv, Step, Exactly;
    var s := Run(s0, before);
    ReachableInv(s0, capacity, before);
    StartOutcome(s, count);
    StepKeeps(s, Enqueue(count));
    OutcomeRun(s, Step(s, Enqueue(count)), count, during);
    RunKeeps(Step(s, Enqueue(count)), during);
    WhenReady(s);
    WhenReady(Run(Step(s, Enqueue(count)), during));
  }

  lemma StartOutcome(s: State, count: nat)
    requires Inv(s) && s.prod == Ready
    ensures Outcome(s, Step(s, Enqueue(count)), count)
  {
    hide IndexInv, LiveInv, ValueInv, OldInv, InsertInv, JunkInv, TentativeInv, PlaceInv, CountInv, ConsAll, ZeroInv;
  }

  /** The index leads to the blocks of the live uses and no others, and the blocks in use are the ones held. */
  ghost predicate Exactly(s: State) {
    && (forall e {:trigger s.entries[e]} :: 0 <= e < |s.entries| && s.entries[e].value.Ptr? ==>
          s.bs > 0 && LeadsTo(s.bs, s.entries, s.headers, s.uses, e, s.entries[e].key / s.bs))
    && (forall k :: 0 <= k < |s.uses| && s.uses[k].live ==>
          && s.headers != [] && Cur(s).index != [] && EntryOf(Cur(s), k) < |s.entries|
          && s.entries[EntryOf(Cur(s), k)] == Entry(k * s.bs, Ptr(s.uses[k].block)))
    && (forall b :: 0 <= b < |s.place| && s.place[b].InUse? ==>
          s.place[b].k < |s.uses| && s.uses[s.place[b].k].held && s.uses[s.place[b].k].block == b)
    && (forall k :: 0 <= k < |s.uses| && s.uses[k].held ==>
          s.uses[k].block < |s.place| && s.place[s.uses[k].block] == InUse(k))
  }

  lemma WhenReady(s: State)
    requires Inv(s) && s.prod == Ready
    ensures |s.uses| == s.committed && s.bs > 1 && Exactly(s)
  {
    forall k | 0 <= k < |s.uses| && s.uses[k].live
      ensures && s.headers != [] && Cur(s).index != [] && EntryOf(Cur(s), k) < |s.entries|
              && s.entries[EntryOf(Cur(s), k)] == Entry(k * s.bs, Ptr(s.uses[k].block))
    {}
    forall b | 0 <= b < |s.place| && s.place[b].InUse?
      ensures s.place[b].k < |s.uses| && s.uses[s.place[b].k].held && s.uses[s.place[b].k].block == b
    {}
  }

  /** The index slot for the next block still leads to the block one capacity before it. */
  predicate SlotTaken(s: State) {
    && s.headers != [] && 0 <= |s.uses| - |Cur(s).index|
    && |s.uses| - |Cur(s).index| < |s.uses| && s.uses[|s.uses| - |Cur(s).index|].live
  }

  /** Something that the producer asks for is refused: room within the size limit; a larger index, the slot being
      taken; or a block. */
  predicate Refused(s: State, a: Action) {
    && a.Produce?
    && (|| (s.prod.Check? && (a.full || (!a.ok && SlotTaken(s))))
        || (s.prod.Requisition? && !a.ok))
  }

  predicate RefusedIn(s: State, schedule: seq<Action>)
    decreases |schedule|
  {
    schedule != [] && (Refused(s, schedule[0]) || RefusedIn(Step(s, schedule[0]), schedule[1..]))
  }

  /** An entry that may not be taken is that of the live block one capacity before. */
  lemma EntryIsTaken(bs: nat, entries: seq<Entry>, headers: seq<Header>, uses: seq<Use>)
    requires LiveInv(bs, entries, headers, uses, |uses|) && ValueInv(bs, entries, headers, uses)
    requires JunkInv(entries, headers, |uses|, false) && IndexInv(bs, entries, headers)
    requires headers != [] && Last(headers).index != [] && EntryOf(Last(headers), |uses|) < |entries|
    requires var e := entries[EntryOf(Last(headers), |uses|)]; e.key != INVALID && e.value != Null
    ensures var k := |uses| - |Last(headers).index|; 0 <= k < |uses| && uses[k].live
  {
    var cur, e := Last(headers), EntryOf(Last(headers), |uses|);
    var k := entries[e].key / bs;
    assert LeadsTo(bs, entries, headers, uses, e, k);
    assert LiveAt(bs, entries, cur, k, uses[k].block, |uses|);
    assert HeaderOk(bs, entries, headers[|headers| - 1]);
    hide LiveInv, ValueInv, JunkInv, IndexInv;
    if k != |uses| - |cur.index| { OtherEntries(cur, k, |uses|); }
  }

  lemma TakenIsFull(s: State)
    requires Shared(s) && JunkInv(s.entries, s.headers, |s.uses|, Inserting(s.prod)) && s.prod.Check? && s.headers != []
    ensures Cur(s).index != [] && At(Cur(s), Cur(s).tail + 1) < |s.entries|
    ensures var e := s.entries[At(Cur(s), Cur(s).tail + 1)]; e.key == INVALID || e.value == Null <==> !SlotTaken(s)
  {
    CheckLooks(s);
    var e := s.entries[EntryOf(Cur(s), |s.uses|)];
    if e.key == INVALID || e.value == Null {
      SlotIsFree(s.bs, s.entries, s.headers, s.uses);
    } else {
      EntryIsTaken(s.bs, s.entries, s.headers, s.uses);
    }
    hide IndexInv, LiveInv, ValueInv, OldInv, TailInv, TentativeInv, CallInv, JunkInv;
  }

  lemma TakenExactly(s: State)
    requires Inv(s) && s.prod.Check? && s.headers != []
    ensures Cur(s).index != [] && At(Cur(s), Cur(s).tail + 1) < |s.entries|
    ensures var e := s.entries[At(Cur(s), Cur(s).tail + 1)]; e.key == INVALID || e.value == Null <==> !SlotTaken(s)
  {
    hide IndexInv, LiveInv, ValueInv, OldInv, TailInv, TentativeInv, InsertInv, CallInv, PlaceInv, CountInv, ConsAll;
    hide ZeroInv, JunkInv, At;
    TakenIsFull(s);
  }

  /** The call that started in s with `count` elements is on its way to success, or has succeeded. */
  predicate GoingWell(s: State, s': State, count: nat) {
    && s'.headers != []
    && (if Forward(s'.prod) then s'.tailIndex == s.tailIndex && s'.want == count
        else s'.prod == Ready && s'.tailIndex == s.tailIndex + count)
  }

  lemma GoingWellStep(s: State, s': State, count: nat, a: Action)
    requires GoingWell(s, s', count) && Inv(s') && !IsEnqueue(a) && !Refused(s', a)
    ensures GoingWell(s, Step(s', a), count)
  {
    match a
    case Produce(ok, full, block) =>
      hide Sound, At, LookUp, GrownIndex, SlotTaken, Inv;
      if Sound(s') {
        if s'.prod.Check? { TakenExactly(s'); }
        ForwardOn(s', ok, full, block);
      }
      ProduceSame(s', ok, full, block);
    case Claim(u, n) =>
    case Consume(u) => if u < |s'.cons| { ConsumeHeaders(s', u); ConsumeSame(s', u); }
  }

  lemma ForwardOn(s: State, ok: bool, full: bool, block: nat)
    requires Sound(s) && s.headers != [] && !Refused(s, Produce(ok, full, block))
    requires s.prod.Check? ==>
      && At(Cur(s), Cur(s).tail + 1) < |s.entries|
      && var e := s.entries[At(Cur(s), Cur(s).tail + 1)]; e.key == INVALID || e.value == Null <==> !SlotTaken(s)
    ensures Forward(s.prod) ==> ProducerStep(s, ok, full, block).headers != []
    ensures Forward(s.prod) && s.prod != Publish ==> Forward(ProducerStep(s, ok, full, block).prod)
  {
    hide Sound, At, LookUp, GrownIndex, SlotTaken;
  }

  lemma ConsumeHeaders(s: State, u: nat)
    requires u < |s.cons|
    ensures Step(s, Consume(u)).headers == s.headers
  {}

  lemma {:induction false} GoingWellRun(s: State, s': State, count: nat, schedule: seq<Action>)
    requires GoingWell(s, s', count) && Inv(s') && CarefulRun(s', schedule)
    requires (forall a :: a in schedule ==> !IsEnqueue(a)) && !RefusedIn(s', schedule)
    ensures GoingWell(s, Run(s', schedule), count)
    decreases |schedule|
  {
    hide GoingWell, Inv, Careful, Refused;
    if schedule != [] {
      GoingWellStep(s, s', count, schedule[0]);
      StepKeeps(s', schedule[0]);
      GoingWellRun(s, Step(s', schedule[0]), count, schedule[1..]);
    }
  }

  /** An insertion into a sub-queue that has an index succeeds unless something it asks for is refused: room within
      the size limit, a larger index when the slot for its next block is taken, or a block.  Until the first refusal
      it is never rolled back, and when it is over its elements are in; after a refusal none of them are. */
  lemma SucceedsUnlessRefused(s0: State, capacity: nat, before: seq<Action>, count: nat, during: seq<Action>)
    requires Init(s0, capacity) && Run(s0, before).prod == Ready && Run(s0, before).headers != []
    requires CarefulRun(s0, before) && CarefulRun(Step(Run(s0, before), Enqueue(count)), during)
    requires forall a :: a in during ==> !IsEnqueue(a)
    ensures var s := Run(s0, before);
      var s' := Run(Step(s, Enqueue(count)), during);
      if RefusedIn(Step(s, Enqueue(count)), during) then !Forward(s'.prod) && s'.tailIndex == s.tailIndex
      else
        && (s'.prod == Ready || Forward(s'.prod))
        && (s'.prod == Ready ==> s'.tailIndex == s.tailIndex + count)
  {
    hide Inv, Step, Refused, RefusedIn, GoingWell;
    var s := Run(s0, before);
    ReachableInv(s0, capacity, before);
    StartsWell(s, count);
    StepKeeps(s, Enqueue(count));
    if RefusedIn(Step(s, Enqueue(count)), during) {
      RefusedRun(s, Step(s, Enqueue(count)), count, during);
    } else {
      GoingWellRun(s, Step(s, Enqueue(count)), count, during);
      WellIs(s, Run(Step(s, Enqueue(count)), during), count);
    }
  }

  lemma WellIs(s: State, s': State, count: nat)
    requires GoingWell(s, s', count)
    ensures s'.prod == Ready || Forward(s'.prod)
    ensures s'.prod == Ready ==> s'.tailIndex == s.tailIndex + count
  {}

  /** The call has been refused something and is being taken back, or has been. */
  predicate GoingBack(s: State, tail: nat) {
    && s.tailIndex == tail
    && (s.prod.DropTail? || s.prod.DropValue? || s.prod.Undo? || s.prod.UndoTail? || s.prod.Return? || s.prod == Ready)
  }

  lemma GoingBackStep(s: State, tail: nat, a: Action)
    requires Inv(s) && !IsEnqueue(a) && s.tailIndex == tail && (GoingBack(s, tail) || Refused(s, a))
    ensures GoingBack(Step(s, a), tail)
  {
    ReachableSound(s);
    match a
    case Produce(ok, full, block) =>
      if s.prod.Check? && s.headers != [] { TakenExactly(s); }
      UsesBound(s);
      hide Sound, At, LookUp, GrownIndex, SlotTaken, Inv;
      ProduceSame(s, ok, full, block);
      BackOn(s, ok, full, block);
    case Claim(u, n) =>
    case Consume(u) => if u < |s.cons| { ConsumeSame(s, u); }
  }

  lemma UsesBound(s: State)
    requires Inv(s)
    ensures s.committed <= |s.uses|
  {
    hide IndexInv, LiveInv, ValueInv, OldInv, InsertInv, CallInv, PlaceInv, CountInv, ConsAll, ZeroInv, JunkInv;
  }

  lemma BackOn(s: State, ok: bool, full: bool, block: nat)
    requires Sound(s) && (GoingBack(s, s.tailIndex) || Refused(s, Produce(ok, full, block)))
    requires s.prod.Check? && s.headers != [] ==>
      && At(Cur(s), Cur(s).tail + 1) < |s.entries|
      && var e := s.entries[At(Cur(s), Cur(s).tail + 1)]; e.key == INVALID || e.value == Null <==> !SlotTaken(s)
    ensures GoingBack(ProducerStep(s, ok, full, block), ProducerStep(s, ok, full, block).tailIndex)
  {
    hide Sound, At, LookUp, GrownIndex, SlotTaken;
  }

  lemma {:induction false} GoingBackRun(s: State, tail: nat, schedule: seq<Action>)
    requires Inv(s) && CarefulRun(s, schedule) && GoingBack(s, tail)
    requires forall a :: a in schedule ==> !IsEnqueue(a)
    ensures GoingBack(Run(s, schedule), tail)
    decreases |schedule|
  {
    hide Inv, Careful, Step;
    if schedule != [] {
      GoingBackStep(s, tail, schedule[0]);
      StepKeeps(s, schedule[0]);
      GoingBackRun(Step(s, schedule[0]), tail, schedule[1..]);
    }
  }

  /** Until the first refusal the call goes well, and from then on it goes back. */
  lemma {:induction false} RefusedRun(s: State, s': State, count: nat, schedule: seq<Action>)
    requires GoingWell(s, s', count) && Inv(s') && CarefulRun(s', schedule) && RefusedIn(s', schedule)
    requires forall a :: a in schedule ==> !IsEnqueue(a)
    ensures GoingBack(Run(s', schedule), s.tailIndex)
    decreases |schedule|
  {
    hide Inv, Careful, Step, Refused;
    StepKeeps(s', schedule[0]);
    if Refused(s', schedule[0]) {
      RefusedForward(s, s', count, schedule[0]);
      GoingBackStep(s', s.tailIndex, schedule[0]);
      GoingBackRun(Step(s', schedule[0]), s.tailIndex, schedule[1..]);
    } else {
      GoingWellStep(s, s', count, schedule[0]);
      RefusedRun(s, Step(s', schedule[0]), count, schedule[1..]);
    }
  }

  lemma RefusedForward(s: State, s': State, count: nat, a: Action)
    requires GoingWell(s, s', count) && Refused(s', a)
    ensures s'.tailIndex == s.tailIndex
  {}

  lemma StartsWell(s: State, count: nat)
    requires Inv(s) && s.prod == Ready && s.headers != []
    ensures GoingWell(s, Step(s, Enqueue(count)), count)
  {
    BlockSize(s);
    hide Inv;
  }

  /** A consumer that gives a block back is the only one with any business in it. */
  lemma FreedOnce(s0: State, capacity: nat, schedule: seq<Action>, u: nat, v: nat)
    requires Init(s0, capacity) && CarefulRun(s0, schedule)
    requires u < |Run(s0, schedule).cons| && Run(s0, schedule).cons[u].Releasing?
    requires v < |Run(s0, schedule).cons| && v != u
    ensures var s := Run(s0, schedule);
      var pc := s.cons[u];
      && pc.block < |s.place| && s.place[pc.block] == InUse(pc.k)
      && !Closes(s.cons[v], pc.k) && Pending(s.cons[v], pc.k * s.bs, s.bs) == 0
      && pc.k * s.bs + s.bs <= s.headIndex
  {
    var s := Run(s0, schedule);
    ReachableInv(s0, capacity, schedule);
    var pc := s.cons[u];
    assert Cons(s, pc);
    OnlyCloser(s, u, v, pc.k);
    TotalMember(s.cons, PendingW(pc.k * s.bs, s.bs), v);
  }

  /** With nothing in flight, the blocks in use are those with elements left, and only those. */
  lemma QuiescentBlocks(s0: State, capacity: nat, schedule: seq<Action>, b: nat)
    requires Init(s0, capacity) && CarefulRun(s0, schedule)
    requires b < |Run(s0, schedule).place| && Run(s0, schedule).prod == Ready
    requires forall u :: 0 <= u < |Run(s0, schedule).cons| ==> Run(s0, schedule).cons[u] == Idle
    ensures var s := Run(s0, schedule);
      s.place[b].InUse? ==> s.place[b].k < |s.uses| && s.uses[s.place[b].k].block == b
                            && s.headIndex < s.place[b].k * s.bs + s.bs
    ensures var s := Run(s0, schedule);
      forall k {:trigger s.uses[k]} :: 0 <= k < |s.uses| && s.headIndex < k * s.bs + s.bs ==>
        s.uses[k].block < |s.place| && s.place[s.uses[k].block] == InUse(k)
  {
    var s := Run(s0, schedule);
    ReachableInv(s0, capacity, schedule);
    forall k | 0 <= k < |s.uses| ensures s.uses[k].held <==> s.headIndex < k * s.bs + s.bs {
      IdleUse(s, k);
    }
  }

  lemma IdleUse(s: State, k: nat)
    requires Counts(s) && k < s.committed && (s.uses[k].live ==> s.uses[k].held) && s.bs > 0
    requires forall u :: 0 <= u < |s.cons| ==> s.cons[u] == Idle
    ensures s.uses[k].held <==> s.headIndex < k * s.bs + s.bs
  {
    TotalZero(s.cons, PendingW(k * s.bs, s.bs));
    TotalZero(s.cons, ClosingW(k));
  }

  /** The block of use k is in use for it. */
  predicate Kept(s: State, k: int) {
    0 <= k < |s.uses| && s.uses[k].block < |s.place| && s.place[s.uses[k].block] == InUse(k)
  }

  lemma PartBlock(i: nat, b: nat)
    requires b > 1 && i % b != 0
    ensures i / b == Ceil(i, b) - 1 && i / b * b < i < i / b * b + b
  {
    DivBounds(i, b);
    DivUnique(i - 1, b, i / b);
    ModShift(i - 1, 1, b);
  }

  /** A partly filled block has not been given back. */
  lemma TailIsKept(s: State)
    requires Inv(s) && s.bs > 0 && s.tailIndex % s.bs != 0
    ensures s.tailIndex / s.bs == s.committed - 1 && Kept(s, s.committed - 1) && s.uses[s.committed - 1].live
  {
    hide IndexInv, LiveInv, ValueInv, OldInv, TentativeInv, InsertInv, ZeroInv, JunkInv, ConsAll, StageOk, CountInv,
      TailInv;
    hide PlaceInv;
    PartBlock(s.tailIndex, s.bs);
    CommittedWithin(s);
    TailLive(s.bs, s.count, s.headIndex, s.cons, s.uses, s.committed);
    LiveKept(s.place, s.count, s.uses, s.prod, s.committed - 1);
  }

  lemma TailLive(bs: nat, count: seq<nat>, head: nat, cons: seq<Consumer>, uses: seq<Use>, committed: nat)
    requires CountInv(bs, count, head, cons, uses, committed) && 0 < committed && head < (committed - 1) * bs + bs
    ensures uses[committed - 1].live
  {}

  lemma LiveKept(place: seq<Place>, count: seq<nat>, uses: seq<Use>, prod: Producer, k: nat)
    requires PlaceInv(place, count, uses, prod) && k < |uses| && uses[k].live
    ensures uses[k].block < |place| && place[uses[k].block] == InUse(k)
  {}

  /** Neither have the blocks of the call under way, before the rollback comes to them. */
  lemma TentativeIsKept(s: State, k: nat)
    requires Inv(s) && s.committed + Returned(s.prod) <= k < |s.uses|
    ensures Kept(s, k)
  {
    hide IndexInv, LiveInv, ValueInv, OldInv, InsertInv, ZeroInv, JunkInv, ConsAll, StageOk, CountInv;
  }
}
