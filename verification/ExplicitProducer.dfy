/** An explicit producer's sub-queue: a circular list of blocks, a circular block index that doubles when
    full, one emptiness flag per slot, and reuse of emptied blocks.

    The class is the source's object, run by one thread at a time; its ghost field `Contents` is the
    plain FIFO sequence that every method is proved to refine.  Allocation succeeds, constructors do not
    throw, and the sub-queue size is unlimited (the default trait), so no call fails.  What concurrent
    consumers see is the subject of modules Tickets and StableLookup. */
module ExplicitProducer {
  import opened Arith
  import opened Wrappers

  datatype Entry<T> = NoEntry | Entry(base: int, block: Block<T>)

  /** The flags of slots j, ..., j + count - 1 have been set; slot m has its flag at position n - 1 - m. */
  predicate FlagsSet(before: seq<bool>, after: seq<bool>, j: nat, count: nat) {
    && |after| == |before|
    && forall m :: 0 <= m < |after| ==>
         (after[m] <==> before[m] || |after| - j - count <= m < |after| - j)
  }

  predicate AllFlags(flags: seq<bool>, n: nat, mark: bool) {
    |flags| == n && forall j :: 0 <= j < n ==> flags[j] == mark
  }

  class Block<T> {
    var next: Block?<T>
    var elements: seq<Cell<T>>
    var emptyFlags: seq<bool>

    /** A block as it comes from the allocator or the pool: its flags say nothing. */
    constructor (size: nat)
      ensures |elements| == |emptyFlags| == size && next == null
    {
      next := null;
      elements := seq(size, _ => Junk);
      emptyFlags := seq(size, _ => false);
    }

    method IsEmpty() returns (empty: bool)
      ensures empty <==> forall j :: 0 <= j < |emptyFlags| ==> emptyFlags[j]
    {
      var i := 0;
      while i < |emptyFlags|
        invariant 0 <= i <= |emptyFlags|
        invariant forall j :: 0 <= j < i ==> emptyFlags[j]
      {
        if !emptyFlags[i] { return false; }
        i := i + 1;
      }
      return true;
    }

    /** Slot j of a block has its flag at the mirrored position. */
    method SetEmpty(j: nat)
      requires j < |emptyFlags|
      modifies this`emptyFlags
      ensures FlagsSet(old(emptyFlags), emptyFlags, j, 1)
    {
      emptyFlags := emptyFlags[|emptyFlags| - 1 - j := true];
    }

    /** Marks slots j, ..., j + count - 1. */
    method SetManyEmpty(j: nat, count: nat)
      requires j + count <= |emptyFlags|
      modifies this`emptyFlags
      ensures FlagsSet(old(emptyFlags), emptyFlags, j, count)
    {
      var n := |emptyFlags|;
      var i := n - 1 - j - count + 1;
      var k := 0;
      while k != count
        invariant 0 <= k <= count && |emptyFlags| == n
        invariant forall m :: 0 <= m < n ==> (emptyFlags[m] <==> old(emptyFlags)[m] || i <= m < i + k)
      {
        emptyFlags := emptyFlags[i + k := true];
        k := k + 1;
      }
    }

    method SetAllEmpty(empty: bool)
      modifies this`emptyFlags
      ensures AllFlags(emptyFlags, |old(emptyFlags)|, empty)
    {
      var n := |emptyFlags|;
      var i := 0;
      while i != n
        invariant 0 <= i <= n == |emptyFlags|
        invariant forall j :: 0 <= j < i ==> emptyFlags[j] == empty
      {
        emptyFlags := emptyFlags[i := empty];
        i := i + 1;
      }
    }
  }

  /** The first element moved to the end. */
  ghost function Rotated<X>(s: seq<X>): (r: seq<X>)
    requires s != []
    ensures |r| == |s|
  {
    s[1..] + [s[0]]
  }

  function Slot(k: int, origin: int, size: nat): int
    requires size > 0
  {
    (k - origin) % size
  }

  /** Block use number k has its entry at its slot. */
  ghost predicate EntryAt<T>(es: seq<Entry<T>>, origin: int, b: nat, k: int, block: Block<T>) {
    && |es| > 0 && 0 <= Slot(k, origin, |es|) < |es|
    && es[Slot(k, origin, |es|)] == Entry(k * b, block)
  }

  /** The index lists the ring in order, with bases a block apart. */
  ghost predicate Lists<T>(es: seq<Entry<T>>, origin: int, b: nat, first: int, ring: seq<Block<T>>) {
    && |es| > 0 && |ring| <= |es|
    && forall k {:trigger ring[k]} :: 0 <= k < |ring| ==> EntryAt(es, origin, b, first + k, ring[k])
  }

  lemma SlotRange(k: int, origin: int, size: nat)
    requires size > 0
    ensures 0 <= Slot(k, origin, size) < size
    ensures (Slot(k, origin, size) + 1) % size == Slot(k + 1, origin, size)
  {
    ModAdd(k - origin, 1, size);
  }

  lemma SlotBefore(k: int, origin: int, size: nat)
    requires size > 0
    ensures (Slot(k, origin, size) - 1) % size == Slot(k - 1, origin, size)
  {
    ModAdd(k - origin, -1, size);
  }

  lemma SlotFrom(k: int, m: int, origin: int, size: nat)
    requires size > 0
    ensures (Slot(k, origin, size) + (m - k)) % size == Slot(m, origin, size)
  {
    ModAdd(k - origin, m - k, size);
  }

  lemma KeepsEntry<T>(es: seq<Entry<T>>, origin: int, b: nat, k: int, block: Block<T>, m: int, e: Entry<T>)
    requires EntryAt(es, origin, b, k, block) && 0 < m - k < |es| && 0 <= Slot(m, origin, |es|) < |es|
    ensures EntryAt(es[Slot(m, origin, |es|) := e], origin, b, k, block)
  {
    ModDistinct(k - origin, m - origin, |es|);
  }

  /** Reusing the oldest block overwrites exactly its slot, or a free one. */
  lemma ListsRotated<T>(es: seq<Entry<T>>, origin: int, b: nat, first: int, ring: seq<Block<T>>)
    requires Lists(es, origin, b, first, ring) && ring != []
    ensures var m := first + |ring|;
      && 0 <= Slot(m, origin, |es|) < |es|
      && Lists(es[Slot(m, origin, |es|) := Entry(m * b, ring[0])], origin, b, first + 1, Rotated(ring))
  {
    var m := first + |ring|;
    var ring' := Rotated(ring);
    forall k | 0 <= k < |ring'|
      ensures EntryAt(es[Slot(m, origin, |es|) := Entry(m * b, ring[0])], origin, b, first + 1 + k, ring'[k])
    {
      if k < |ring| - 1 {
        KeepsEntry(es, origin, b, first + (k + 1), ring[k + 1], m, Entry(m * b, ring[0]));
      }
    }
  }

  lemma ListsAppended<T>(es: seq<Entry<T>>, origin: int, b: nat, first: int, ring: seq<Block<T>>, block: Block<T>)
    requires Lists(es, origin, b, first, ring) && |ring| < |es|
    ensures var m := first + |ring|;
      && 0 <= Slot(m, origin, |es|) < |es|
      && Lists(es[Slot(m, origin, |es|) := Entry(m * b, block)], origin, b, first, ring + [block])
  {
    var m := first + |ring|;
    var ring' := ring + [block];
    forall k | 0 <= k < |ring'|
      ensures EntryAt(es[Slot(m, origin, |es|) := Entry(m * b, block)], origin, b, first + k, ring'[k])
    {
      if k < |ring| {
        KeepsEntry(es, origin, b, first + k, ring[k], m, Entry(m * b, block));
      }
    }
  }

  /** A copy of the slots in use, oldest first, lists the ring from origin `first`. */
  lemma ListsCopied<T>(es: seq<Entry<T>>, b: nat, first: int, ring: seq<Block<T>>)
    requires |ring| <= |es| && |es| > 0
    requires forall k :: 0 <= k < |ring| ==> es[k] == Entry((first + k) * b, ring[k])
    ensures Lists(es, first, b, first, ring)
  {
    forall k | 0 <= k < |ring| ensures EntryAt(es, first, b, first + k, ring[k]) {
      DivUnique(k, |es|, 0);
    }
  }

  ghost predicate Distinct<T>(ring: seq<Block<T>>) {
    forall k, m :: 0 <= k < m < |ring| ==> ring[k] != ring[m]
  }

  /** Each block links to the one after it, the newest to the oldest. */
  ghost predicate Circular<T>(ring: seq<Block<T>>)
    reads ring`next
  {
    && (forall k :: 0 <= k < |ring| - 1 ==> ring[k].next == ring[k + 1])
    && (ring != [] ==> ring[|ring| - 1].next == ring[0])
  }

  /** Index i holds x: it lies in block number i / b, at position i % b. */
  ghost predicate CellAt<T>(rows: seq<seq<Cell<T>>>, first: int, b: nat, i: nat, x: T)
    requires b > 0
  {
    var k := i / b - first;
    0 <= k < |rows| && i % b < |rows[k]| && rows[k][i % b] == Full(x)
  }

  /** The indices from `head` on hold `contents`. */
  ghost predicate Holds<T>(rows: seq<seq<Cell<T>>>, first: int, b: nat, head: nat, contents: seq<T>) {
    b > 0 && forall j :: 0 <= j < |contents| ==> CellAt(rows, first, b, head + j, contents[j])
  }

  predicate FlagOk(flag: bool, first: int, b: nat, k: int, m: int, head: nat) {
    flag <==> (first + k) * b + (b - 1 - m) < head
  }

  /** In the blocks put to use before number `inUse`, exactly the slots of indices below the head are
      flagged empty. */
  ghost predicate Flagged(flags: seq<seq<bool>>, first: int, b: nat, inUse: int, head: nat) {
    forall k :: 0 <= k < |flags| ==>
      && |flags[k]| == b
      && (first + k < inUse ==> forall m :: 0 <= m < b ==> FlagOk(flags[k][m], first, b, k, m, head))
  }

  lemma HoldsRotated<T>(rows: seq<seq<Cell<T>>>, first: int, b: nat, head: nat, contents: seq<T>)
    requires Holds(rows, first, b, head, contents) && rows != [] && (first + 1) * b <= head
    ensures Holds(Rotated(rows), first + 1, b, head, contents)
  {
    var rows' := Rotated(rows);
    forall j | 0 <= j < |contents| ensures CellAt(rows', first + 1, b, head + j, contents[j]) {
    }
  }

  /** Constructing an element at the tail appends it. */
  lemma HoldsWritten<T>(rows: seq<seq<Cell<T>>>, first: int, b: nat, head: nat, contents: seq<T>, x: T)
    requires Holds(rows, first, b, head, contents)
    requires var i := head + |contents|; var k := i / b - first; 0 <= k < |rows| && |rows[k]| == b
    ensures var i := head + |contents|; var k := i / b - first;
      Holds(rows[k := rows[k][i % b := Full(x)]], first, b, head, contents + [x])
  {
    var i := head + |contents|;
    var k := i / b - first;
    var rows' := rows[k := rows[k][i % b := Full(x)]];
    forall j | 0 <= j <= |contents| ensures CellAt(rows', first, b, head + j, (contents + [x])[j]) {
    }
  }

  /** Destroying the element at the head removes it. */
  lemma HoldsTaken<T>(rows: seq<seq<Cell<T>>>, first: int, b: nat, head: nat, contents: seq<T>)
    requires Holds(rows, first, b, head, contents) && contents != []
    ensures CellAt(rows, first, b, head, contents[0])
    ensures var k := head / b - first;
      Holds(rows[k := rows[k][head % b := Junk]], first, b, head + 1, contents[1..])
  {
    assert CellAt(rows, first, b, head + 0, contents[0]);
    var k := head / b - first;
    var rows' := rows[k := rows[k][head % b := Junk]];
    forall j | 0 <= j < |contents| - 1 ensures CellAt(rows', first, b, head + 1 + j, contents[1..][j]) {
    }
  }

  /** An empty oldest block is one that the head has passed. */
  lemma PassedWhenEmpty(flags: seq<seq<bool>>, first: int, b: nat, inUse: int, head: nat)
    requires Flagged(flags, first, b, inUse, head) && flags != [] && b > 0 && first < inUse
    requires AllFlags(flags[0], b, true)
    ensures (first + 1) * b <= head
  {
    assert FlagOk(flags[0][0], first, b, 0, 0, head);
  }

  lemma EmptyWhenPassed(flags: seq<seq<bool>>, first: int, b: nat, inUse: int, head: nat)
    requires Flagged(flags, first, b, inUse, head) && flags != [] && b > 0 && first < inUse && (first + 1) * b <= head
    ensures AllFlags(flags[0], b, true)
  {
    forall m | 0 <= m < b ensures flags[0][m] {
      assert FlagOk(flags[0][m], first, b, 0, m, head);
    }
  }

  lemma BlocksBelow(head: nat, first: int, b: nat)
    requires b > 0 && first * b <= head
    ensures head / b >= first && (head / b > first <==> (first + 1) * b <= head)
  {
    DivExact(first, b);
    DivMono(first * b, head, b);
    DivBounds(head, b);
    if head / b > first { MulMono(first + 1, head / b, b); }
    if (first + 1) * b <= head {
      DivExact(first + 1, b);
      DivMono((first + 1) * b, head, b);
    }
  }

  lemma FlagMoved(flag: bool, flag': bool, first: int, b: nat, k: int, m: int, head: nat, n: nat)
    requires b > 0 && 0 <= m < b && FlagOk(flag, first, b, k, m, head) && head % b + n <= b
    requires first + k != head / b ==> flag' == flag
    requires first + k == head / b ==> (flag' <==> flag || b - head % b - n <= m < b - head % b)
    ensures FlagOk(flag', first, b, k, m, head + n)
  {
    if first + k < head / b {
      MulMono(first + k + 1, head / b, b);
    } else if first + k > head / b {
      MulMono(head / b + 1, first + k, b);
    }
  }

  /** Flagging the n indices from the head on, all in one block, moves the head past them. */
  lemma FlaggedTaken(flags: seq<seq<bool>>, row: seq<bool>, first: int, b: nat, inUse: int, head: nat, n: nat)
    requires b > 0 && Flagged(flags, first, b, inUse, head) && head % b + n <= b
    requires 0 <= head / b - first < |flags| && FlagsSet(flags[head / b - first], row, head % b, n)
    ensures Flagged(flags[head / b - first := row], first, b, inUse, head + n)
  {
    var q := head / b - first;
    var flags' := flags[q := row];
    forall k, m | 0 <= k < |flags'| && first + k < inUse && 0 <= m < b
      ensures FlagOk(flags'[k][m], first, b, k, m, head + n)
    {
      hide FlagOk;
      FlagMoved(flags[k][m], flags'[k][m], first, b, k, m, head, n);
    }
  }

  lemma BoundaryBlocks(tail: nat, b: nat)
    requires b > 0 && tail % b == 0
    ensures Ceil(tail, b) * b == tail && Ceil(tail, b) == tail / b
  {
    DivUnique(tail + b - 1, b, tail / b);
  }

  lemma SameBlock(i: nat, j: nat, b: nat)
    requires b > 0 && i <= j < i - i % b + b
    ensures j / b == i / b
  {
    DivUnique(j, b, i / b);
  }

  lemma NextBlockStart(i: nat, b: nat)
    requires b > 0
    ensures var j := i - i % b + b; j > i && j / b == i / b + 1 && j % b == 0
  {
    DivExact(i / b + 1, b);
  }

  lemma LastBlock(i: nat, b: nat, blocks: nat)
    requires b > 0 && i < blocks * b
    ensures i / b < blocks
  {}

  /** The index space still to reserve, and the base of the newest block. */
  predicate Remaining(total: int, blocks: int, b: nat, diff: int, base: int) {
    diff == (total - blocks) * b && base == (blocks - 1) * b
  }

  lemma RemainingStep(total: int, blocks: int, b: nat, diff: int, base: int)
    requires b > 0 && Remaining(total, blocks, b, diff, base) && diff > 0
    ensures blocks < total && Remaining(total, blocks + 1, b, diff - b, base + b)
  {}

  /** The block after i's starts before `tail` unless i's is the last block. */
  lemma CeilReached(i: nat, tail: nat, b: nat)
    requires b > 0 && i < tail
    ensures Ceil(tail, b) > i / b + 1 ==> i - i % b + b < tail
    ensures Ceil(tail, b) <= i / b + 1 ==> tail <= i - i % b + b
  {
    var c := Ceil(tail, b);
    if c > i / b + 1 { MulMono(i / b + 2, c, b); } else { MulMono(c, i / b + 1, b); }
  }

  /** The index space a bulk insertion reserves is what its new blocks cover. */
  lemma BulkCount(start: nat, count: nat, b: nat)
    requires b > 0
    ensures var last := start + count - 1; var base := start - 1 - (start - 1) % b;
      && Ceil(start, b) <= Ceil(start + count, b)
      && Remaining(Ceil(start + count, b), Ceil(start, b), b, last - last % b - base, base)
      && (last - last % b - base > 0 <==> Ceil(start, b) < Ceil(start + count, b))
  {
    CeilFloor(start, b);
    CeilFloor(start + count, b);
    var d := Ceil(start + count, b) - Ceil(start, b);
    assert (Ceil(start + count, b) - 1) * b - (Ceil(start, b) - 1) * b == d * b;
  }

  /** Where a bulk insertion starts writing: at a boundary in the first new block, or else in the last one
      in use, which the head has not passed. */
  lemma BulkStart(start: nat, count: nat, first: int, head: nat, b: nat)
    requires b > 0 && first * b <= head <= start
    ensures start % b == 0 ==> start / b == Ceil(start, b) && (count > 0 ==> Ceil(start, b) < Ceil(start + count, b))
    ensures start % b != 0 ==> start / b == Ceil(start, b) - 1
    ensures first <= start / b
  {
    DivExact(first, b);
    DivMono(first * b, start, b);
    if start % b == 0 {
      BoundaryBlocks(start, b);
      if count > 0 {
        DivMono(start + b, start + count + b - 1, b);
      }
    } else {
      CeilInside(start, b);
    }
  }

  lemma CeilInside(tail: nat, b: nat)
    requires b > 0 && tail % b != 0
    ensures Ceil(tail, b) == tail / b + 1 && Ceil(tail, b) * b == tail / b * b + b && tail < Ceil(tail, b) * b
  {
    DivUnique(tail + b - 1, b, tail / b + 1);
  }

  lemma NextCeil(tail: nat, b: nat)
    requires b > 0
    ensures Ceil(tail + 1, b) == tail / b + 1
  {
    ModShift(tail, 1, b);
  }

  lemma CircularRotated<T>(ring: seq<Block<T>>)
    requires ring != [] && Distinct(ring) && Circular(ring)
    ensures var r := Rotated(ring);
      Distinct(r) && Circular(r) && ring[|ring| - 1].next == r[|r| - 1]
  {}

  /** `rows` and `flags` are what the blocks of the ring store. */
  ghost predicate Mirrors<T>(ring: seq<Block<T>>, rows: seq<seq<Cell<T>>>, flags: seq<seq<bool>>, b: nat)
    reads ring`elements, ring`emptyFlags
  {
    && |rows| == |flags| == |ring|
    && forall k :: 0 <= k < |ring| ==>
         ring[k].elements == rows[k] && ring[k].emptyFlags == flags[k] && |rows[k]| == |flags[k]| == b
  }

  lemma MirrorsAppended<T>(ring: seq<Block<T>>, rows: seq<seq<Cell<T>>>, flags: seq<seq<bool>>, b: nat, block: Block<T>)
    requires Mirrors(ring, rows, flags, b) && |block.elements| == |block.emptyFlags| == b
    ensures Mirrors(ring + [block], rows + [block.elements], flags + [block.emptyFlags], b)
  {}

  class Producer<T> {
    const bs: nat
    var tailIndex: nat
    var headIndex: nat
    var optimistic: nat
    var overcommit: nat
    var tailBlock: Block?<T>

    // the block index
    var entries: array<Entry<T>>
    var front: int
    var prFront: nat
    var slotsUsed: nat

    /** The sub-queue as a sequence. */
    ghost var Contents: seq<T>
    /** The blocks of the circular list, oldest first; `blocks` counts every use of a block so far, so
        that ring[k] holds the indices from (blocks - |ring| + k) * bs on. */
    ghost var ring: seq<Block<T>>
    ghost var blocks: nat
    ghost var origin: int
    /** What the blocks of the ring store. */
    ghost var rows: seq<seq<Cell<T>>>
    ghost var flags: seq<seq<bool>>

    ghost function First(): int reads this`blocks, this`ring { blocks - |ring| }

    /** How many blocks ahead of the tail lie wholly below the head. */
    ghost function Drained(): int
      requires bs > 0
      reads this`headIndex, this`blocks, this`ring
    {
      headIndex / bs - First()
    }

    /** There is a block ahead of the tail block, and all its slots are flagged. */
    ghost predicate AheadEmpty()
      reads this`ring, this`flags
    {
      ring != [] && flags != [] && AllFlags(flags[0], bs, true)
    }

    ghost predicate LinksOk()
      reads this`ring, this`slotsUsed, this`rows, this`flags, ring
    {
      |ring| == slotsUsed && Mirrors(ring, rows, flags, bs) && Distinct(ring) && Circular(ring)
    }

    ghost predicate RingOk()
      reads this`ring, this`slotsUsed, this`rows, this`flags, this`tailBlock, ring
    {
      && LinksOk()
      && tailBlock == (if ring == [] then null else ring[|ring| - 1])
    }

    ghost predicate IndexOk()
      reads this`slotsUsed, this`ring, this`blocks, this`origin, this`entries, this`prFront, entries
    {
      && slotsUsed == |ring| <= blocks && (blocks > 0 ==> |ring| > 0)
      && Lists(entries[..], origin, bs, First(), ring)
      && prFront == Slot(blocks, origin, entries.Length)
    }

    /** The blocks put to use before number `inUse` are accounted for; later ones are only reserved. */
    ghost predicate Reserving(inUse: int)
      reads this`ring, this`slotsUsed, this`rows, this`flags, this`tailBlock, this`blocks, this`origin
      reads this`entries, this`prFront, this`headIndex, this`Contents, ring, entries
    {
      && bs > 1 && RingOk() && IndexOk() && First() <= inUse <= blocks
      && Holds(rows, First(), bs, headIndex, Contents)
      && Flagged(flags, First(), bs, inUse, headIndex)
      && First() * bs <= headIndex <= inUse * bs
    }

    ghost predicate Published()
      reads this`ring, this`blocks, this`origin, this`entries, this`front
    {
      ring != [] ==> entries.Length > 0 && front == Slot(blocks - 1, origin, entries.Length)
    }

    ghost predicate Counted()
      reads this`headIndex, this`tailIndex, this`Contents, this`optimistic, this`overcommit
    {
      |Contents| == tailIndex - headIndex && optimistic == headIndex + overcommit
    }

    ghost predicate Valid()
      reads this, ring, entries
    {
      Reserving(blocks) && Published() && Counted() && blocks == Ceil(tailIndex, bs)
    }

    constructor (bs: nat, indexSize: nat)
      requires bs > 1 && indexSize > 0
      ensures Valid() && Contents == [] && this.bs == bs && fresh(entries)
    {
      this.bs := bs;
      tailIndex, headIndex, optimistic, overcommit := 0, 0, 0, 0;
      tailBlock := null;
      entries := new Entry<T>[indexSize](_ => NoEntry);
      front, prFront, slotsUsed := -1, 0, 0;
      Contents, ring, blocks, origin, rows, flags := [], [], 0, 0, [], [];
      new;
      DivUnique(bs - 1, bs, 0);
      DivUnique(0, indexSize, 0);
    }

    /** Copies the slots in use to the start of a new index, oldest first. */
    method CopyIndex(copy: array<Entry<T>>)
      requires IndexOk() && slotsUsed == entries.Length && copy != entries && copy.Length >= slotsUsed
      modifies copy
      ensures forall k :: 0 <= k < |ring| ==> copy[k] == Entry((First() + k) * bs, ring[k])
    {
      var size := entries.Length;
      ghost var es, first, o, r, b := entries[..], First(), origin, ring, bs;
      ModAdd(blocks - o, 0 - slotsUsed, size);
      var j := 0;
      var i := (prFront - slotsUsed) % size;
      while j != slotsUsed
        invariant 0 <= j <= slotsUsed == |r| && i == Slot(first + j, o, size)
        invariant entries[..] == es && Lists(es, o, b, first, r)
        invariant forall k :: 0 <= k < j ==> copy[k] == Entry((first + k) * b, r[k])
      {
        copy[j] := entries[i];
        SlotRange(first + j, o, size);
        j := j + 1;
        i := (i + 1) % size;
      }
    }

    /** The index doubled; the ring's blocks keep their order from slot 0 on. */
    method NewBlockIndex(expose: nat)
      requires IndexOk() && slotsUsed == entries.Length
      modifies this`entries, this`front, this`prFront, this`origin
      ensures IndexOk() && fresh(entries) && entries.Length == 2 * old(entries.Length)
      ensures front == expose - 1
    {
      var size := 2 * entries.Length;
      var copy := new Entry<T>[size](_ => NoEntry);
      CopyIndex(copy);
      ListsCopied(copy[..], bs, First(), ring);
      DivUnique(slotsUsed, size, 0);
      origin := First();
      entries := copy;
      front := expose - 1;
      prFront := slotsUsed;
    }

    /** Writes the entry of a block just put to use, and moves on to the next slot. */
    method PutEntry(base: nat)
      requires tailBlock != null && entries.Length > 0 && prFront == Slot(blocks, origin, entries.Length)
      modifies this`prFront, this`blocks, entries
      ensures blocks == old(blocks) + 1 && prFront == Slot(blocks, origin, entries.Length)
      ensures 0 <= old(prFront) < entries.Length
      ensures entries[..] == old(entries[..])[old(prFront) := Entry(base, tailBlock)]
    {
      SlotRange(blocks, origin, entries.Length);
      entries[prFront] := Entry(base, tailBlock);
      prFront := (prFront + 1) % entries.Length;
      blocks := blocks + 1;
    }

    /** The block ahead of the tail becomes the tail block. */
    method TakeAhead()
      requires RingOk() && ring != []
      modifies this`tailBlock, this`ring, this`rows, this`flags
      ensures RingOk() && ring == Rotated(old(ring))
      ensures rows == Rotated(old(rows)) && flags == Rotated(old(flags))
    {
      CircularRotated(ring);
      tailBlock := tailBlock.next;
      ring := Rotated(ring);
      rows := Rotated(rows);
      flags := Rotated(flags);
    }

    /** Reuses the oldest block: its entry goes to the next index slot. */
    method ReuseAhead(base: nat)
      requires RingOk() && IndexOk() && ring != [] && base == blocks * bs
      modifies this`tailBlock, this`prFront, this`ring, this`rows, this`flags, this`blocks, entries
      ensures RingOk() && IndexOk() && blocks == old(blocks) + 1
      ensures ring == Rotated(old(ring))
      ensures rows == Rotated(old(rows)) && flags == Rotated(old(flags))
    {
      hide Lists, Mirrors, Circular, Distinct;
      ListsRotated(entries[..], origin, bs, First(), ring);
      TakeAhead();
      PutEntry(base);
    }

    /** A new block joins the list behind the tail block, flagged empty. */
    method AppendBlock(base: nat)
      requires RingOk() && IndexOk() && slotsUsed < entries.Length && base == blocks * bs
      modifies this`tailBlock, this`prFront, this`slotsUsed, this`ring, this`rows, this`flags, this`blocks
      modifies entries, tailBlock
      ensures RingOk() && IndexOk() && blocks == old(blocks) + 1
      ensures |ring| == |old(ring)| + 1 && ring == old(ring) + [ring[|old(ring)|]] && fresh(ring[|old(ring)|])
      ensures rows == old(rows) + [rows[|old(ring)|]] && flags == old(flags) + [seq(bs, _ => true)]
    {
      ghost var es, first, r := entries[..], First(), ring;
      LinkNewBlock();
      assert |es| == entries.Length > |r| && ring == r + [tailBlock];
      hide Lists, Mirrors, Circular, Distinct;
      ListsAppended(es, origin, bs, first, r, tailBlock);
      PutEntry(base);
    }

    method NewBlock() returns (block: Block<T>)
      ensures fresh(block) && |block.elements| == bs && block.emptyFlags == seq(bs, _ => true)
    {
      block := new Block<T>(bs);
      block.SetAllEmpty(true);
    }

    /** Puts a block behind the tail block in the circular list. */
    method Splice(newBlock: Block<T>)
      requires Circular(ring) && Distinct(ring) && tailBlock == (if ring == [] then null else ring[|ring| - 1])
      requires newBlock !in ring
      modifies newBlock`next, (if tailBlock == null then {} else {tailBlock})`next
      ensures Circular(ring + [newBlock])
    {
      if tailBlock == null {
        newBlock.next := newBlock;
      } else {
        newBlock.next := tailBlock.next;
        tailBlock.next := newBlock;
      }
    }

    /** Splices a new block into the circular list after the tail block. */
    method LinkNewBlock()
      requires RingOk()
      modifies this`tailBlock, this`slotsUsed, this`ring, this`rows, this`flags, tailBlock
      ensures RingOk() && |ring| == |old(ring)| + 1 && ring == old(ring) + [ring[|old(ring)|]]
      ensures fresh(ring[|old(ring)|])
      ensures rows == old(rows) + [rows[|old(ring)|]] && flags == old(flags) + [seq(bs, _ => true)]
    {
      hide Circular, Mirrors;
      var newBlock := NewBlock();
      Splice(newBlock);
      MirrorsAppended(ring, rows, flags, bs, newBlock);
      tailBlock := newBlock;
      slotsUsed := slotsUsed + 1;
      ring := ring + [newBlock];
      rows := rows + [newBlock.elements];
      flags := flags + [newBlock.emptyFlags];
    }

    /** Resets the flags of a block of the ring. */
    method ResetEmpty(block: Block<T>, ghost k: nat)
      requires LinksOk() && k < |ring| && block == ring[k]
      modifies this`flags, block`emptyFlags
      ensures LinksOk() && |flags| == |old(flags)| && flags == old(flags)[k := flags[k]]
      ensures AllFlags(flags[k], bs, false)
    {
      block.SetAllEmpty(false);
      flags := flags[k := block.emptyFlags];
    }

    /** Puts the first reserved block to use. */
    method PutToUse(block: Block<T>, ghost inUse: int)
      requires Reserving(inUse) && inUse < blocks && block == ring[inUse - First()]
      modifies this`flags, block`emptyFlags
      ensures Reserving(inUse + 1)
    {
      assert |flags| == |ring|;
      hide Holds, Flagged, Lists, Mirrors, Circular, Distinct, AllFlags;
      ghost var fs, k := flags, inUse - First();
      ResetEmpty(block, k);
    }

    /** Reserves the block ahead of the tail block, which is empty. */
    method ReserveAhead(base: nat, ghost inUse: int)
      requires Reserving(inUse) && ring != [] && First() < inUse && AllFlags(flags[0], bs, true)
      requires base == blocks * bs
      modifies this`tailBlock, this`prFront, this`ring, this`rows, this`flags, this`blocks, entries
      ensures Reserving(inUse) && blocks == old(blocks) + 1 && ring == Rotated(old(ring))
      ensures forall k :: 0 <= k < |ring| ==> ring[k] in old(ring)
    {
      assert |rows| == |flags| == |ring| <= blocks;
      hide Holds, Flagged, Lists, Mirrors, Circular, Distinct, Rotated, AllFlags, Slot;
      ghost var first, rs, fs, h := First(), rows, flags, headIndex;
      PassedWhenEmpty(fs, first, bs, inUse, h);
      HoldsRotated(rs, first, bs, h, Contents);
      ReuseAhead(base);
    }

    /** Reserves a new block. */
    method ReserveNew(base: nat, ghost inUse: int)
      requires Reserving(inUse) && slotsUsed < entries.Length && base == blocks * bs
      modifies this`tailBlock, this`prFront, this`slotsUsed, this`ring, this`rows, this`flags, this`blocks
      modifies entries, tailBlock
      ensures Reserving(inUse) && blocks == old(blocks) + 1
      ensures |ring| == |old(ring)| + 1 && ring == old(ring) + [ring[|old(ring)|]] && fresh(ring[|old(ring)|])
    {
      assert |rows| == |flags| == |ring| <= blocks;
      hide Holds, Flagged, Lists, Mirrors, Circular, Distinct;
      ghost var first, rs, fs, h := First(), rows, flags, headIndex;
      AppendBlock(base);
    }

    /** Reserves a new block, doubling the index first if it is full. */
    method ReserveFresh(base: nat, expose: nat, ghost inUse: int)
      requires Reserving(inUse) && base == blocks * bs
      modifies this`tailBlock, this`prFront, this`slotsUsed, this`ring, this`rows, this`flags, this`blocks
      modifies this`front, this`entries, this`origin, entries, tailBlock
      ensures Reserving(inUse) && blocks == old(blocks) + 1
      ensures if |old(ring)| < old(entries.Length) then entries == old(entries)
              else fresh(entries) && entries.Length == 2 * old(entries.Length)
      ensures |ring| == |old(ring)| + 1 && ring == old(ring) + [ring[|old(ring)|]] && fresh(ring[|old(ring)|])
    {
      assert 0 < entries.Length && slotsUsed <= entries.Length;
      hide Holds, Flagged, Lists, LinksOk, Slot;
      if slotsUsed == entries.Length {
        NewBlockIndex(expose);
      }
      ReserveNew(base, inUse);
    }

    /** The block ahead can be reused exactly when all its elements have been dequeued. */
    lemma EmptyIsDrained(inUse: int)
      requires Reserving(inUse)
      ensures Drained() >= 0 && (First() < inUse ==> (AheadEmpty() <==> Drained() > 0))
      ensures First() == inUse ==> Drained() == 0
    {
      BlocksBelow(headIndex, First(), bs);
      assert |flags| == |ring|;
      hide LinksOk, IndexOk, Holds, Flagged, FlagOk, AllFlags;
      if First() < inUse {
        if AheadEmpty() { PassedWhenEmpty(flags, First(), bs, inUse, headIndex); }
        if Drained() > 0 { EmptyWhenPassed(flags, First(), bs, inUse, headIndex); }
      }
    }

    /** Whether there is a block ahead of the tail block that can be reused. */
    method AheadIsEmpty() returns (empty: bool)
      requires RingOk()
      ensures |flags| == |ring| && (empty <==> AheadEmpty())
    {
      empty := false;
      if tailBlock != null {
        empty := tailBlock.next.IsEmpty();
      }
    }

    // ---- single elements

    /** Reserves the block ahead if it is empty, or else a new one. */
    method ReserveNext()
      requires Reserving(blocks) && tailIndex == blocks * bs
      modifies this`tailBlock, this`prFront, this`slotsUsed, this`ring, this`rows, this`flags, this`blocks
      modifies this`front, this`entries, this`origin, entries, ring
      ensures Reserving(blocks - 1) && blocks == old(blocks) + 1
      ensures ring != [] && tailBlock == ring[|ring| - 1]
      ensures if old(AheadEmpty()) then ring == Rotated(old(ring)) && entries == old(entries)
              else
                && |ring| == |old(ring)| + 1 && ring[..|old(ring)|] == old(ring) && fresh(ring[|old(ring)|])
                && (if |old(ring)| < old(entries.Length) then entries == old(entries)
                    else fresh(entries) && entries.Length == 2 * old(entries.Length))
      ensures forall k :: 0 <= k < |ring| ==> ring[k] in old(ring) || fresh(ring[k])
    {
      hide Holds, Flagged, Lists, LinksOk, Slot, AllFlags;
      ghost var inUse := blocks;
      var reuse := AheadIsEmpty();
      if reuse {
        ReserveAhead(tailIndex, inUse);
      } else {
        ReserveFresh(tailIndex, slotsUsed, inUse);
      }
    }

    /** At a block boundary: puts the block ahead to use if it is empty, or else a new one. */
    method StartBlock()
      requires Reserving(blocks) && tailIndex == blocks * bs
      modifies this`tailBlock, this`prFront, this`slotsUsed, this`ring, this`rows, this`flags, this`blocks
      modifies this`front, this`entries, this`origin, entries, ring
      ensures Reserving(blocks) && Published() && ring != [] && blocks == old(blocks) + 1
      ensures if old(AheadEmpty()) then ring == Rotated(old(ring)) && entries == old(entries)
              else
                && |ring| == |old(ring)| + 1 && ring[..|old(ring)|] == old(ring) && fresh(ring[|old(ring)|])
                && (if |old(ring)| < old(entries.Length) then entries == old(entries)
                    else fresh(entries) && entries.Length == 2 * old(entries.Length))
      ensures forall k :: 0 <= k < |ring| ==> ring[k] in old(ring) || fresh(ring[k])
    {
      hide Holds, Flagged, RingOk, IndexOk, Slot;
      ReserveNext();
      PutToUse(tailBlock, blocks - 1);
      Publish();
    }

    /** Makes the newest entry the current one. */
    method Publish()
      requires IndexOk() && ring != []
      modifies this`front
      ensures Published()
    {
      SlotBefore(blocks, origin, entries.Length);
      front := (prFront - 1) % entries.Length;
    }

    /** The index at the tail belongs to the newest block. */
    ghost predicate Ready()
      reads this, ring, entries
    {
      Reserving(blocks) && Published() && Counted() && ring != [] && tailIndex / bs == blocks - 1
    }

    lemma TailInNewest()
      requires Valid() && tailIndex % bs != 0
      ensures Ready()
    {
      hide Holds, Flagged, Slot, Ceil, LinksOk;
      CeilInside(tailIndex, bs);
    }

    /** Constructs an element at index i, in block k of the ring. */
    method Construct(block: Block<T>, i: nat, x: T, ghost k: nat)
      requires bs > 0 && LinksOk() && k < |ring| && block == ring[k]
      modifies this`rows, block`elements
      ensures LinksOk() && |old(rows)| == |ring| && |old(rows)[k]| == bs
      ensures rows == old(rows)[k := old(rows)[k][i % bs := Full(x)]]
    {
      block.elements := block.elements[i % bs := Full(x)];
      rows := rows[k := rows[k][i % bs := Full(x)]];
    }

    /** Moves the element at index i out of block k, and destroys what is left of it. */
    method Take(block: Block<T>, i: nat, ghost k: nat) returns (x: T)
      requires bs > 0 && LinksOk() && k < |ring| && block == ring[k]
      requires rows[k][i % bs].Full?
      modifies this`rows, block`elements
      ensures LinksOk() && |old(rows)| == |ring| && |old(rows)[k]| == bs && old(rows)[k][i % bs] == Full(x)
      ensures rows == old(rows)[k := old(rows)[k][i % bs := Junk]]
    {
      x := block.elements[i % bs].x;
      block.elements := block.elements[i % bs := Junk];
      rows := rows[k := rows[k][i % bs := Junk]];
    }

    method WriteTail(x: T)
      requires Ready()
      modifies this`rows, this`Contents, this`tailIndex, tailBlock
      ensures Valid() && Contents == old(Contents) + [x]
    {
      ghost var k := |ring| - 1;
      assert |rows| == |ring| && |rows[k]| == bs && tailBlock == ring[k] && headIndex + |Contents| == tailIndex;
      hide Holds, Flagged, Slot, LinksOk, IndexOk;
      HoldsWritten(rows, First(), bs, headIndex, Contents, x);
      Construct(tailBlock, tailIndex, x, k);
      Contents := Contents + [x];
      NextCeil(tailIndex, bs);
      tailIndex := tailIndex + 1;
    }

    /** Appends an element.  A block is added only at a boundary, and only if no block ahead has been drained; the
        index is doubled only if it is full. */
    method Enqueue(x: T)
      requires Valid()
      modifies this, ring, entries
      ensures Valid() && Contents == old(Contents) + [x]
      ensures if old(tailIndex) % bs != 0 then ring == old(ring) && entries == old(entries)
              else if old(Drained()) > 0 then ring == Rotated(old(ring)) && entries == old(entries)
              else
                && |ring| == |old(ring)| + 1 && ring[..|old(ring)|] == old(ring) && fresh(ring[|old(ring)|])
                && (if |old(ring)| < old(entries.Length) then entries == old(entries)
                    else fresh(entries) && entries.Length == 2 * old(entries.Length))
      ensures forall k :: 0 <= k < |ring| ==> ring[k] in old(ring) || fresh(ring[k])
    {
      hide Holds, Flagged, Slot, Ceil, LinksOk, IndexOk;
      if tailIndex % bs == 0 {
        BoundaryBlocks(tailIndex, bs);
        EmptyIsDrained(blocks);
        NoBlocks();
        StartBlock();
      } else {
        TailInNewest();
      }
      WriteTail(x);
    }

    lemma RingFits()
      requires IndexOk()
      ensures |ring| <= entries.Length && entries.Length > 0
    {}

    lemma NoBlocks()
      requires Reserving(blocks)
      ensures First() == blocks <==> ring == []
    {}

    lemma OffsetIs(i: nat, newest: int, b: nat)
      requires b > 0
      ensures (i - i % b - newest * b) / b == i / b - newest
    {
      assert i - i % b - newest * b == (i / b - newest) * b;
      DivExact(i / b - newest, b);
    }

    /** The entry of the block that holds index i, reached from the current entry. */
    method FindEntry(i: nat) returns (at: nat)
      requires bs > 1 && IndexOk() && Published() && First() * bs <= i < blocks * bs
      ensures ring != [] && 0 <= i / bs - First() < |ring|
      ensures |entries[..]| > 0 && at == Slot(i / bs, origin, |entries[..]|)
      ensures EntryAt(entries[..], origin, bs, i / bs, ring[i / bs - First()])
    {
      InRing(i);
      assert EntryAt(entries[..], origin, bs, First() + (|ring| - 1), ring[|ring| - 1]);
      hide Lists, Slot;
      var headBase := entries[front].base;
      var blockBase := i - i % bs;
      OffsetIs(i, blocks - 1, bs);
      var offset := (blockBase - headBase) / bs;
      SlotFrom(blocks - 1, i / bs, origin, entries.Length);
      at := (front + offset) % entries.Length;
    }

    lemma InRing(i: nat)
      requires bs > 1 && IndexOk() && First() * bs <= i < blocks * bs
      ensures ring != [] && 0 <= i / bs - First() < |ring|
    {
      DivExact(First(), bs);
      DivMono(First() * bs, i, bs);
      DivBounds(i, bs);
    }

    /** Flags slot j of block k empty. */
    method MarkEmpty(block: Block<T>, j: nat, ghost k: nat)
      requires LinksOk() && k < |ring| && block == ring[k] && j < bs
      modifies this`flags, block`emptyFlags
      ensures LinksOk() && |flags| == |old(flags)| && flags == old(flags)[k := flags[k]]
      ensures FlagsSet(old(flags)[k], flags[k], j, 1)
    {
      block.SetEmpty(j);
      flags := flags[k := block.emptyFlags];
    }

    /** Removes the element at the front, if there is one. */
    method Dequeue() returns (r: Option<T>)
      requires Valid()
      modifies this, ring
      ensures Valid() && ring == old(ring) && entries == old(entries)
      ensures old(Contents) == [] ==> r == None && Contents == []
      ensures old(Contents) != [] ==> r == Some(old(Contents)[0]) && Contents == old(Contents)[1..]
    {
      hide Holds, Flagged, LinksOk, IndexOk, Ceil, Published, Slot;
      r := None;
      var tail := tailIndex;
      var seen := overcommit;
      if optimistic - seen < tail {
        var mine := optimistic;
        optimistic := optimistic + 1;
        tail := tailIndex;
        if mine - seen < tail {
          var index := headIndex;
          headIndex := headIndex + 1;
          CeilCovers(tailIndex, bs);
          var at := FindEntry(index);
          var block := entries[at].block;
          var x := TakeHead(block, index, index / bs - First());
          r := Some(x);
        } else {
          // only when another consumer claimed meanwhile: see module Tickets
        }
      }
    }

    /** The head's slot holds the front element. */
    lemma HeadSlot(i: nat, k: nat)
      requires bs > 1 && LinksOk() && k < |ring| && k == i / bs - First()
      requires Holds(rows, First(), bs, i, Contents) && Contents != []
      ensures |flags| == |rows| == |ring| && |rows[k]| == bs && i % bs < bs && rows[k][i % bs] == Full(Contents[0])
    {
      assert CellAt(rows, First(), bs, i + 0, Contents[0]);
    }

    /** Takes the element at index i, the head before this call claimed it, out of block k. */
    method TakeHead(block: Block<T>, i: nat, ghost k: nat) returns (x: T)
      requires bs > 1 && LinksOk() && k < |ring| && block == ring[k] && k == i / bs - First()
      requires Holds(rows, First(), bs, i, Contents) && Contents != []
      requires Flagged(flags, First(), bs, blocks, i)
      modifies this`rows, this`flags, this`Contents, block`elements, block`emptyFlags
      ensures LinksOk() && x == old(Contents)[0] && Contents == old(Contents)[1..]
      ensures Holds(rows, First(), bs, i + 1, Contents) && Flagged(flags, First(), bs, blocks, i + 1)
    {
      hide Holds, Flagged, LinksOk, FlagsSet, CellAt;
      HeadSlot(i, k);
      HoldsTaken(rows, First(), bs, i, Contents);
      x := Take(block, i, k);
      ghost var fs := flags;
      MarkEmpty(block, i % bs, k);
      FlaggedTaken(fs, flags[k], First(), bs, blocks, i, 1);
      Contents := Contents[1..];
    }

    // ---- bulk removal

    /** Flags n slots of block k empty, from slot j on. */
    method MarkManyEmpty(block: Block<T>, j: nat, n: nat, ghost k: nat)
      requires LinksOk() && k < |ring| && block == ring[k] && j + n <= bs
      modifies this`flags, block`emptyFlags
      ensures LinksOk() && |flags| == |old(flags)| && flags == old(flags)[k := flags[k]]
      ensures FlagsSet(old(flags)[k], flags[k], j, n)
    {
      block.SetManyEmpty(j, n);
      flags := flags[k := block.emptyFlags];
    }

    /** Moves out the elements at indices i, ..., end - 1, all in block k. */
    method TakeElements(block: Block<T>, i: nat, end: nat, ghost k: nat, ghost c: seq<T>) returns (out: seq<T>)
      requires bs > 1 && LinksOk() && k < |ring| && block == ring[k] && k == i / bs - First()
      requires Holds(rows, First(), bs, i, c) && i <= end <= i + |c| && end <= i - i % bs + bs
      modifies this`rows, block`elements
      ensures LinksOk() && out == c[..end - i] && Holds(rows, First(), bs, end, c[end - i..])
    {
      hide Holds, LinksOk;
      out := [];
      var index := i;
      while index != end
        invariant i <= index <= end && LinksOk() && out == c[..index - i]
        invariant Holds(rows, First(), bs, index, c[index - i..])
      {
        ghost var rest := c[index - i..];
        SameBlock(i, index, bs);
        HoldsTaken(rows, First(), bs, index, rest);
        var x := Take(block, index, k);
        out := out + [x];
        index := index + 1;
      }
    }

    /** Takes the elements from index i to `end`, all in block k, and flags their slots. */
    method TakeRun(block: Block<T>, i: nat, end: nat, ghost k: nat, ghost c: seq<T>) returns (out: seq<T>)
      requires bs > 1 && LinksOk() && k < |ring| && block == ring[k] && k == i / bs - First()
      requires Holds(rows, First(), bs, i, c) && i <= end <= i + |c| && end <= i - i % bs + bs
      requires Flagged(flags, First(), bs, blocks, i)
      modifies this`rows, this`flags, block`elements, block`emptyFlags
      ensures LinksOk() && out == c[..end - i] && Holds(rows, First(), bs, end, c[end - i..])
      ensures Flagged(flags, First(), bs, blocks, end)
    {
      assert |flags| == |ring|;
      hide Holds, Flagged, LinksOk, FlagsSet;
      out := TakeElements(block, i, end, k, c);
      ghost var fs := flags;
      MarkManyEmpty(block, i % bs, end - i, k);
      FlaggedTaken(fs, flags[k], First(), bs, blocks, i, end - i);
    }

    /** The indices from i on hold c, and exactly the slots below i are flagged. */
    ghost predicate Left(i: nat, c: seq<T>)
      reads this`ring, this`slotsUsed, this`rows, this`flags, this`blocks, this`tailBlock, ring
    {
      RingOk() && Holds(rows, First(), bs, i, c) && Flagged(flags, First(), bs, blocks, i)
    }

    /** Index i belongs to the block at position k of the ring. */
    ghost predicate BlockOf(i: nat, k: int)
      requires bs > 0
      reads this`ring, this`blocks
    {
      0 <= k < |ring| && k == i / bs - First()
    }

    /** Takes elements from index i on: n of them, or those left in block k. */
    method TakeBlock(at: int, i: nat, n: nat, ghost k: int, ghost c: seq<T>)
      returns (out: seq<T>, next: int, ghost rest: seq<T>)
      requires bs > 1 && IndexOk() && BlockOf(i, k) && at == Slot(First() + k, origin, |entries[..]|)
      requires Left(i, c) && n <= |c| && i + n <= blocks * bs
      modifies this`rows, this`flags, ring
      ensures IndexOk() && |out| <= n && c == out + rest && Left(i + |out|, rest)
      ensures n > 0 ==> out != []
      ensures |out| < n ==> BlockOf(i + |out|, k + 1)
      ensures next == Slot(First() + k + 1, origin, |entries[..]|)
    {
      hide Holds, Flagged, LinksOk, Slot;
      var end := i - i % bs + bs;
      NextBlockStart(i, bs);
      if end < i + n { LastBlock(end, bs, blocks); }
      end := if i + n < end then i + n else end;
      assert EntryAt(entries[..], origin, bs, First() + k, ring[k]);
      var block := entries[at].block;
      SlotRange(First() + k, origin, entries.Length);
      next := (at + 1) % entries.Length;
      hide IndexOk, EntryAt;
      out := TakeRun(block, i, end, k, c);
      rest := c[|out|..];
    }

    /** Takes n elements from index i on, block by block. */
    method TakeBlocks(i: nat, n: nat, ghost c: seq<T>) returns (out: seq<T>)
      requires bs > 1 && IndexOk() && Published() && First() * bs <= i < blocks * bs
      requires n <= |c| && i + n <= blocks * bs && Left(i, c)
      modifies this`rows, this`flags, ring
      ensures IndexOk() && out == c[..n] && Left(i + n, c[n..])
    {
      hide IndexOk, Left, Published, Slot, EntryAt;
      var at: int := FindEntry(i);
      ghost var k := i / bs - First();
      hide BlockOf;
      out := [];
      ghost var rest := c;
      while true
        invariant |out| <= n && c == out + rest && IndexOk() && Left(i + |out|, rest)
        invariant BlockOf(i + |out|, k)
        invariant at == Slot(First() + k, origin, |entries[..]|)
        decreases n - |out|
      {
        var run;
        run, at, rest := TakeBlock(at, i + |out|, n - |out|, k, rest);
        assert out + (run + rest) == (out + run) + rest;
        out := out + run;
        k := k + 1;
        if |out| == n { break; }
      }
    }

    /** Takes the n elements from index i on, the head before this call claimed them. */
    method TakeFront(i: nat, n: nat) returns (out: seq<T>)
      requires bs > 1 && IndexOk() && Published() && First() * bs <= i < blocks * bs
      requires n <= |Contents| && headIndex == i + n <= blocks * bs && Left(i, Contents)
      modifies this`rows, this`flags, this`Contents, ring
      ensures Reserving(blocks) && Published()
      ensures out == old(Contents)[..n] && Contents == old(Contents)[n..]
    {
      hide Holds, Flagged, RingOk, IndexOk, Published;
      out := TakeBlocks(i, n, Contents);
      Contents := Contents[n..];
    }

    /** Removes up to max elements from the front. */
    method DequeueBulk(max: nat) returns (out: seq<T>)
      requires Valid()
      modifies this, ring
      ensures Valid() && ring == old(ring) && entries == old(entries)
      ensures var n := if max < |old(Contents)| then max else |old(Contents)|;
        out == old(Contents)[..n] && Contents == old(Contents)[n..]
    {
      hide Holds, Flagged, RingOk, IndexOk, Ceil, Published, Slot, EntryAt;
      out := [];
      var tail := tailIndex;
      var seen := overcommit;
      var desired := tail - (optimistic - seen);
      if 0 < desired {
        desired := if desired < max then desired else max;
        var mine := optimistic;
        optimistic := optimistic + desired;
        tail := tailIndex;
        var actual := tail - (mine - seen);
        if 0 < actual {
          actual := if desired < actual then desired else actual;
          // equal unless another consumer claimed meanwhile: see module Tickets
          var firstIndex := headIndex;
          headIndex := headIndex + actual;
          CeilCovers(tailIndex, bs);
          out := TakeFront(firstIndex, actual);
        }
      }
    }

    // ---- bulk insertion

    lemma NextIsOldest()
      requires RingOk() && ring != []
      ensures tailBlock != null && tailBlock.next == ring[0]
      ensures forall k :: 0 < k < |ring| ==> ring[k] != ring[0]
    {}

    /** The first block reserved since number `inUse`, and the last one in use before it. */
    ghost predicate Marks(inUse: int, firstBlock: Block?<T>, startBlock: Block?<T>)
      reads this`ring, this`blocks
    {
      && First() <= inUse <= blocks
      && (if inUse < blocks then firstBlock == ring[inUse - First()] else firstBlock == null)
      && (First() < inUse ==> startBlock == ring[inUse - 1 - First()])
    }

    /** Reserves blocks from ahead of the tail while they are needed and empty; `total` is the number of
        block uses needed. */
    method ReserveAllAhead(diff0: int, base0: int, ghost total: int)
      returns (diff: int, base: int, firstBlock: Block?<T>)
      requires Reserving(blocks) && blocks <= total && Remaining(total, blocks, bs, diff0, base0)
      modifies this`tailBlock, this`prFront, this`ring, this`rows, this`flags, this`blocks, entries
      ensures Reserving(old(blocks)) && old(blocks) <= blocks <= total && Remaining(total, blocks, bs, diff, base)
      ensures Marks(old(blocks), firstBlock, old(tailBlock))
      ensures |ring| == |old(ring)| && (blocks < total ==> Drained() == 0) && Drained() >= 0
      ensures forall k :: 0 <= k < |ring| ==> ring[k] in old(ring)
    {
      hide Holds, Flagged, LinksOk, IndexOk, AllFlags;
      ghost var inUse, startBlock, r := blocks, tailBlock, ring;
      diff, base, firstBlock := diff0, base0, null;
      while true
        invariant Reserving(inUse) && inUse <= blocks <= total && Remaining(total, blocks, bs, diff, base)
        invariant Marks(inUse, firstBlock, startBlock) && |ring| == |r|
        invariant forall k :: 0 <= k < |ring| ==> ring[k] in r
        decreases total - blocks
      {
        var ahead := AheadIsEmpty();
        EmptyIsDrained(inUse);
        if blocks < total { MulMono(1, total - blocks, bs); }
        if diff <= 0 || tailBlock == null || tailBlock.next == firstBlock || !ahead {
          if diff > 0 && tailBlock != null { NextIsOldest(); }
          break;
        }
        NextIsOldest();
        RemainingStep(total, blocks, bs, diff, base);
        diff := diff - bs;
        base := base + bs;
        ReserveAhead(base, inUse);
        firstBlock := if firstBlock == null then tailBlock else firstBlock;
      }
    }

    /** Reserves new blocks for what is still needed; a new index exposes `expose` slots. */
    method ReserveAllFresh(diff0: int, base0: int, first0: Block?<T>, expose: nat, ghost inUse: int,
                           ghost startBlock: Block?<T>, ghost total: int)
      returns (firstBlock: Block?<T>)
      requires Reserving(inUse) && blocks <= total && Remaining(total, blocks, bs, diff0, base0)
      requires Marks(inUse, first0, startBlock)
      modifies this`tailBlock, this`prFront, this`slotsUsed, this`ring, this`rows, this`flags, this`blocks
      modifies this`front, this`entries, this`origin, entries, ring
      ensures Reserving(inUse) && blocks == total && Marks(inUse, firstBlock, startBlock)
      ensures |ring| == |old(ring)| + (total - old(blocks))
      ensures if |ring| > old(entries.Length) then fresh(entries) && entries.Length < 2 * |ring|
              else entries == old(entries)
      ensures forall k :: 0 <= k < |ring| ==> ring[k] in old(ring) || fresh(ring[k])
    {
      hide Holds, Flagged, LinksOk, IndexOk;
      RingFits();
      var diff, base := diff0, base0;
      firstBlock := first0;
      while diff > 0
        invariant Reserving(inUse) && blocks <= total && Remaining(total, blocks, bs, diff, base)
        invariant Marks(inUse, firstBlock, startBlock)
        invariant |ring| == |old(ring)| + (blocks - old(blocks))
        invariant if |ring| > old(entries.Length) then fresh(entries) && entries.Length < 2 * |ring|
                  else entries == old(entries)
        invariant forall k :: 0 <= k < |ring| ==> ring[k] in old(ring) || fresh(ring[k])
        decreases total - blocks
      {
        RemainingStep(total, blocks, bs, diff, base);
        RingFits();
        diff := diff - bs;
        base := base + bs;
        ReserveFresh(base, expose, inUse);
        firstBlock := if firstBlock == null then tailBlock else firstBlock;
      }
      if blocks < total { MulMono(1, total - blocks, bs); }
    }

    /** Resets the flags of every reserved block, from the first on. */
    method PutAllToUse(firstBlock: Block<T>, ghost inUse: int)
      requires Reserving(inUse) && inUse < blocks && firstBlock == ring[inUse - First()]
      modifies this`flags, ring
      ensures Reserving(blocks)
    {
      hide Holds, Flagged, LinksOk, IndexOk;
      var block := firstBlock;
      ghost var m := inUse;
      while true
        invariant Reserving(m) && inUse <= m < blocks && block == ring[m - First()]
        decreases blocks - m
      {
        PutToUse(block, m);
        m := m + 1;
        NextInRing(m - 1 - First());
        if block == tailBlock { break; }
        block := block.next;
      }
    }

    lemma NextInRing(k: int)
      requires LinksOk() && 0 <= k < |ring|
      ensures ring[k] == ring[|ring| - 1] <==> k == |ring| - 1
      ensures k < |ring| - 1 ==> ring[k].next == ring[k + 1]
    {}

    /** Constructs xs[done] at index i, in block k. */
    method FillSlot(block: Block<T>, i: nat, xs: seq<T>, done: nat, ghost k: int)
      requires bs > 1 && LinksOk() && BlockOf(i, k) && block == ring[k] && done < |xs|
      requires Holds(rows, First(), bs, headIndex, Contents + xs[..done]) && headIndex + |Contents| + done == i
      modifies this`rows, block`elements
      ensures LinksOk() && Holds(rows, First(), bs, headIndex, Contents + xs[..done + 1])
    {
      assert |rows| == |ring| && |rows[k]| == bs;
      hide Holds, LinksOk;
      HoldsWritten(rows, First(), bs, headIndex, Contents + xs[..done], xs[done]);
      Construct(block, i, xs[done], k);
      assert Contents + xs[..done] + [xs[done]] == Contents + xs[..done + 1];
    }

    /** Constructs xs[done..done + n] at the indices from i on, all in one block. */
    method FillBlock(block: Block<T>, i: nat, n: nat, xs: seq<T>, done: nat, ghost k: int)
      requires bs > 1 && LinksOk() && BlockOf(i, k) && block == ring[k]
      requires i + n <= i - i % bs + bs && done + n <= |xs|
      requires Holds(rows, First(), bs, headIndex, Contents + xs[..done]) && headIndex + |Contents| + done == i
      modifies this`rows, block`elements
      ensures LinksOk() && Holds(rows, First(), bs, headIndex, Contents + xs[..done + n])
    {
      hide Holds, LinksOk;
      var j := 0;
      while j < n
        invariant j <= n && LinksOk()
        invariant Holds(rows, First(), bs, headIndex, Contents + xs[..done + j])
      {
        SameBlock(i, i + j, bs);
        FillSlot(block, i + j, xs, done + j, k);
        j := j + 1;
      }
    }

    /** Fills the cursor's block from index `cur` on, as far as there are elements. */
    method FillNext(cur: nat, start: nat, xs: seq<T>, ghost k: int) returns (stop: nat)
      requires bs > 1 && LinksOk() && BlockOf(cur, k) && tailBlock == ring[k]
      requires start == headIndex + |Contents| && start <= cur < start + |xs| && blocks == Ceil(start + |xs|, bs)
      requires Holds(rows, First(), bs, headIndex, Contents + xs[..cur - start])
      modifies this`rows, tailBlock`elements
      ensures LinksOk() && cur < stop <= start + |xs|
      ensures Holds(rows, First(), bs, headIndex, Contents + xs[..stop - start])
      ensures if k == |ring| - 1 then stop == start + |xs|
              else k + 1 < |ring| && stop < start + |xs| && BlockOf(stop, k + 1)
    {
      hide Holds, LinksOk, Ceil;
      stop := cur - cur % bs + bs;
      NextBlockStart(cur, bs);
      CeilReached(cur, start + |xs|, bs);
      stop := if start + |xs| < stop then start + |xs| else stop;
      FillBlock(tailBlock, cur, stop - cur, xs, cur - start, k);
    }

    /** Fills the blocks from the start on, one at a time; the tail block is the cursor. */
    method Fill(start: nat, xs: seq<T>, endBlock: Block?<T>, ghost k0: int)
      requires bs > 1 && LinksOk() && IndexOk() && start == headIndex + |Contents|
      requires Holds(rows, First(), bs, headIndex, Contents) && blocks == Ceil(start + |xs|, bs)
      requires endBlock == (if ring == [] then null else ring[|ring| - 1])
      requires if xs == [] then tailBlock == endBlock
               else BlockOf(start, k0) && 0 <= k0 < |ring| && tailBlock == ring[k0]
      modifies this`rows, this`tailBlock, ring
      ensures RingOk() && IndexOk() && Holds(rows, First(), bs, headIndex, Contents + xs)
    {
      hide Holds, LinksOk, IndexOk, Ceil, BlockOf;
      var cur := start;
      ghost var k := k0;
      assert Contents + xs[..0] == Contents && Contents + xs[..|xs|] == Contents + xs;
      while true
        invariant LinksOk() && IndexOk() && start <= cur <= start + |xs|
        invariant Holds(rows, First(), bs, headIndex, Contents + xs[..cur - start])
        invariant if cur == start + |xs| then tailBlock == endBlock
                  else BlockOf(cur, k) && 0 <= k < |ring| && tailBlock == ring[k]
        decreases start + |xs| - cur
      {
        if cur != start + |xs| {
          cur := FillNext(cur, start, xs, k);
          NextInRing(k);
        }
        if tailBlock == endBlock { break; }
        tailBlock := tailBlock.next;
        k := k + 1;
      }
    }

    /** Reserves the blocks needed, resets their flags, and publishes the newest. */
    method ReserveBulk(diff0: int, base0: int, ghost total: int) returns (firstBlock: Block?<T>)
      requires Reserving(blocks) && blocks < total && Remaining(total, blocks, bs, diff0, base0)
      modifies this`tailBlock, this`prFront, this`slotsUsed, this`ring, this`rows, this`flags, this`blocks
      modifies this`front, this`entries, this`origin, entries, ring
      ensures Reserving(blocks) && Published() && blocks == total
      ensures Marks(old(blocks), firstBlock, old(tailBlock))
      ensures |ring| == |old(ring)| + Max0(blocks - old(blocks) - old(Drained()))
      ensures if |ring| > old(entries.Length) then fresh(entries) && entries.Length < 2 * |ring|
              else entries == old(entries)
      ensures forall k :: 0 <= k < |ring| ==> ring[k] in old(ring) || fresh(ring[k])
    {
      hide Holds, Flagged, RingOk, IndexOk, Published;
      ghost var inUse, startBlock := blocks, tailBlock;
      var expose := slotsUsed;
      var diff, base;
      diff, base, firstBlock := ReserveAllAhead(diff0, base0, total);
      firstBlock := ReserveAllFresh(diff, base, firstBlock, expose, inUse, startBlock, total);
      PutAllToUse(firstBlock, inUse);
      Publish();
    }

    /** Reserves what `count` more elements need. */
    method ReserveFor(count: nat) returns (firstBlock: Block?<T>)
      requires Reserving(blocks) && Published() && blocks == Ceil(tailIndex, bs)
      modifies this`tailBlock, this`prFront, this`slotsUsed, this`ring, this`rows, this`flags, this`blocks
      modifies this`front, this`entries, this`origin, entries, ring
      ensures Reserving(blocks) && Published() && blocks == Ceil(tailIndex + count, bs)
      ensures Marks(old(blocks), firstBlock, old(tailBlock))
      ensures old(blocks) == blocks ==> tailBlock == old(tailBlock)
      ensures |ring| == |old(ring)| + Max0(blocks - old(blocks) - old(Drained()))
      ensures if |ring| > old(entries.Length) then fresh(entries) && entries.Length < 2 * |ring|
              else entries == old(entries)
      ensures forall k :: 0 <= k < |ring| ==> ring[k] in old(ring) || fresh(ring[k])
    {
      hide Holds, Flagged, LinksOk, IndexOk, Ceil, Published, Marks, AllFlags;
      EmptyIsDrained(blocks);
      IndexHas();
      NothingMarked();
      var last := tailIndex + count - 1;
      var base := tailIndex - 1 - (tailIndex - 1) % bs;
      var diff := last - last % bs - base;
      BulkCount(tailIndex, count, bs);
      firstBlock := null;
      if diff > 0 {
        firstBlock := ReserveBulk(diff, base, Ceil(tailIndex + count, bs));
      }
    }

    lemma IndexHas()
      requires Reserving(blocks)
      ensures |ring| <= entries.Length
    {
      RingFits();
    }

    lemma NothingMarked()
      requires Reserving(blocks)
      ensures Marks(blocks, null, tailBlock)
    {}

    lemma CursorStart(start: nat, count: nat, inUse: int, firstBlock: Block?<T>, startBlock: Block?<T>)
      requires Reserving(blocks) && Marks(inUse, firstBlock, startBlock) && headIndex <= start && count > 0
      requires inUse == Ceil(start, bs) && blocks == Ceil(start + count, bs)
      ensures BlockOf(start, start / bs - First()) && 0 <= start / bs - First() < |ring|
      ensures ring[start / bs - First()] == (if start % bs == 0 && firstBlock != null then firstBlock else startBlock)
    {
      hide Holds, Flagged, RingOk, IndexOk, Ceil;
      BulkStart(start, count, First(), headIndex, bs);
    }

    /** Points the tail block at the block where writing starts. */
    method SetCursor(start: nat, count: nat, startBlock: Block?<T>, firstBlock: Block?<T>, ghost inUse: int)
      returns (ghost k: int)
      requires bs > 1 && Reserving(blocks) && Marks(inUse, firstBlock, startBlock) && headIndex <= start
      requires inUse == Ceil(start, bs) && blocks == Ceil(start + count, bs)
      modifies this`tailBlock
      ensures if count == 0 then tailBlock == startBlock
              else BlockOf(start, k) && 0 <= k < |ring| && tailBlock == ring[k]
    {
      hide Holds, Flagged, RingOk, IndexOk, Ceil;
      if count > 0 { CursorStart(start, count, inUse, firstBlock, startBlock); }
      k := start / bs - First();
      tailBlock := startBlock;
      if start % bs == 0 && firstBlock != null {
        tailBlock := firstBlock;
      }
    }

    /** What writing elements leaves alone. */
    ghost predicate Accounted()
      reads this`ring, this`blocks, this`flags, this`headIndex
    {
      && bs > 1 && First() <= blocks && Flagged(flags, First(), bs, blocks, headIndex)
      && First() * bs <= headIndex <= blocks * bs
    }

    lemma Parts()
      requires Reserving(blocks)
      ensures Accounted() && LinksOk() && IndexOk() && Holds(rows, First(), bs, headIndex, Contents)
      ensures tailBlock == if ring == [] then null else ring[|ring| - 1]
    {}

    lemma Settled()
      requires Accounted() && RingOk() && IndexOk() && Holds(rows, First(), bs, headIndex, Contents)
      ensures Reserving(blocks)
    {}

    /** Writes the elements into the blocks reserved for them. */
    method WriteAll(xs: seq<T>, startBlock: Block?<T>, firstBlock: Block?<T>, ghost inUse: int)
      requires bs > 1 && Reserving(blocks) && Published() && Counted() && blocks == Ceil(tailIndex + |xs|, bs)
      requires Marks(inUse, firstBlock, startBlock) && inUse == Ceil(tailIndex, bs)
      requires xs == [] ==> startBlock == tailBlock
      modifies this`rows, this`tailBlock, this`Contents, this`tailIndex, ring
      ensures Valid() && Contents == old(Contents) + xs
    {
      hide Holds, Accounted, LinksOk, RingOk, IndexOk, Ceil, Published, BlockOf, Marks, Reserving;
      Parts();
      var endBlock := tailBlock;
      ghost var k := SetCursor(tailIndex, |xs|, startBlock, firstBlock, inUse);
      Fill(tailIndex, xs, endBlock, k);
      tailIndex := tailIndex + |xs|;
      Contents := Contents + xs;
      Settled();
    }

    /** Appends every element of xs.  The blocks added are those needed beyond what is drained ahead of the tail;
        there is a new index only if the blocks do not fit the one there is. */
    method EnqueueBulk(xs: seq<T>)
      requires Valid()
      modifies this, ring, entries
      ensures Valid() && Contents == old(Contents) + xs
      ensures var needed := Ceil(old(tailIndex) + |xs|, bs) - Ceil(old(tailIndex), bs);
        |ring| == |old(ring)| + Max0(needed - old(Drained()))
      ensures if |ring| > old(entries.Length) then fresh(entries) && entries.Length < 2 * |ring|
              else entries == old(entries)
      ensures forall k :: 0 <= k < |ring| ==> ring[k] in old(ring) || fresh(ring[k])
    {
      hide Holds, Flagged, RingOk, IndexOk, Ceil, Published, Marks;
      ghost var inUse := blocks;
      var startBlock := tailBlock;
      var firstBlock := ReserveFor(|xs|);
      WriteAll(xs, startBlock, firstBlock, inUse);
    }
  }
}
