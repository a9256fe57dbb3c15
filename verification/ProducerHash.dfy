/** The map from threads to their implicit producers, as a step machine: a chain of growing tables with
    linear probing, entries copied forward lazily, and threads that may hold on to an old table.

    Any number of threads look their producer up, or insert a new one, under any schedule; one step is one
    atomic operation.  Thread t's id is t, and its hash is an arbitrary number.  Allocating a table or a
    producer may fail.  Producers are never recycled, since an implicit producer never becomes inactive.

    `tick`, `counted`, `mine`, `home` and `last` are bookkeeping that no step reads. */
module ProducerHash {
  import opened Arith
  import opened Sums
  import opened Wrappers

  const EMPTY: int := -1

  datatype Slot = Slot(key: int, value: Option<nat>)

  datatype Pc =
    | Idle
    | LoadMain
    | Search(main: nat, x: nat, i: nat)                             // probe number i in table x
    | Put(main: nat, i: nat, value: nat, added: bool)               // probe number i in table main
    | PutCas(main: nat, i: nat, value: nat, added: bool)
    | PutValue(main: nat, i: nat, value: nat, added: bool)
    | Count(main: nat)                                              // fetch_add of one
    | Decide(main: nat, n: nat)
    | ResizeLoad(n: nat)                                            // from here on the thread has the lock
    | Allocate(main: nat, n: nat)
    | FailCount
    | FailUnlock
    | Unlock(main: nat, n: nat)
    | Room(main: nat, n: nat)
    | Create(main: nat)
    | DropCount
    | Reload(n: nat)

  datatype Result = NoResult | Got(producer: nat) | Failed

  /** `counted`: the thread's increment of the count stands, with new count `tick`.  `mine` is the producer
      its first successful call returned, registered in table `home`; `last` is what the last call returned. */
  datatype Thread = Thread(pc: Pc, counted: bool, tick: nat, mine: Option<nat>, home: nat, last: Result)

  /** Each table's predecessor is the one before it; the last one is the current one. */
  datatype State = State(hash: seq<nat>, tables: seq<seq<Slot>>, count: int, locked: bool,
                         owners: seq<nat>, threads: seq<Thread>)

  /** `ok` is false when memory runs out. */
  datatype Action = Get(t: nat) | Go(t: nat, ok: bool)

  function Half(capacity: nat): nat { capacity / 2 }

  /** Three quarters, as the sum of two shifts. */
  function Limit(capacity: nat): nat { capacity / 2 + capacity / 4 }

  function Index(h: nat, i: nat, capacity: nat): nat
    requires capacity > 0
  {
    (h + i) % capacity
  }

  function At(s: State, t: nat, th: Thread): State
    requires t < |s.threads|
  {
    s.(threads := s.threads[t := th])
  }

  function Goto(s: State, t: nat, pc: Pc): State
    requires t < |s.threads|
  {
    At(s, t, s.threads[t].(pc := pc))
  }

  /** The smallest of capacity, 2 capacity, 4 capacity, ... whose half exceeds n. */
  function Grown(capacity: nat, n: nat): (c: nat)
    requires capacity > 0
    ensures c >= capacity && n < Half(c)
    decreases 2 * n + 2 - capacity
  {
    if n >= Half(capacity) then Grown(2 * capacity, n) else capacity
  }

  function Main(s: State): nat
    requires s.tables != []
  {
    |s.tables| - 1
  }

  function SetSlot(s: State, x: nat, j: nat, slot: Slot): State
    requires x < |s.tables| && j < |s.tables[x]|
  {
    s.(tables := s.tables[x := s.tables[x][j := slot]])
  }

  /** The tables a thread follows exist. */
  predicate PcOk(s: State, pc: Pc) {
    && s.tables != []
    && (match pc
        case Search(main, x, _) => main < |s.tables| && x <= main && s.tables[x] != []
        case Put(main, _, _, _) => main < |s.tables| && s.tables[main] != []
        case PutCas(main, _, _, _) => main < |s.tables| && s.tables[main] != []
        case PutValue(main, _, _, _) => main < |s.tables| && s.tables[main] != []
        case Count(main) => main < |s.tables|
        case Decide(main, _) => main < |s.tables|
        case Allocate(main, _) => main < |s.tables| && s.tables[main] != []
        case Unlock(main, _) => main < |s.tables|
        case Room(main, _) => main < |s.tables|
        case Create(main) => main < |s.tables|
        case _ => true)
  }

  /** The call returns. */
  function Return(s: State, t: nat, last: Result): State
    requires t < |s.threads|
  {
    At(s, t, s.threads[t].(pc := Idle, last := last))
  }

  function SearchStep(s: State, t: nat): State
    requires t < |s.threads| == |s.hash| && s.threads[t].pc.Search? && PcOk(s, s.threads[t].pc)
  {
    var pc := s.threads[t].pc;
    var slot := s.tables[pc.x][Index(s.hash[t], pc.i, |s.tables[pc.x]|)];
    if slot.key == t then
      if slot.value.None? then s
      else if pc.x != pc.main then Goto(s, t, Put(pc.main, 0, slot.value.value, false))
      else Return(s, t, Got(slot.value.value))
    else if slot.key == EMPTY then
      if pc.x > 0 && s.tables[pc.x - 1] != [] then Goto(s, t, Search(pc.main, pc.x - 1, 0))
      else Goto(s, t, Count(pc.main))
    else Goto(s, t, Search(pc.main, pc.x, pc.i + 1))
  }

  function PutStep(s: State, t: nat): State
    requires t < |s.threads| == |s.hash| && PcOk(s, s.threads[t].pc)
    requires var pc := s.threads[t].pc; pc.Put? || pc.PutCas? || pc.PutValue?
  {
    var pc := s.threads[t].pc;
    var j := Index(s.hash[t], pc.i, |s.tables[pc.main]|);
    var empty := s.tables[pc.main][j].key == EMPTY;
    match pc
    case Put(main, i, value, added) =>
      Goto(s, t, if empty then PutCas(main, i, value, added) else Put(main, i + 1, value, added))
    case PutCas(main, i, value, added) =>
      if empty then Goto(SetSlot(s, main, j, Slot(t, s.tables[main][j].value)), t, PutValue(main, i, value, added))
      else Goto(s, t, Put(main, i + 1, value, added))
    case PutValue(main, i, value, added) =>
      var s1 := SetSlot(s, main, j, s.tables[main][j].(value := Some(value)));
      var th := s.threads[t].(pc := Idle, last := Got(value));
      At(s1, t, if added then th.(mine := Some(value), home := main) else th)
    case _ => s
  }

  function CountStep(s: State, t: nat, ok: bool): State
    requires t < |s.threads| == |s.hash| && PcOk(s, s.threads[t].pc)
  {
    var th := s.threads[t];
    match th.pc
    case Count(main) =>
      var n := if s.count >= 0 then s.count + 1 else 0;
      At(s.(count := s.count + 1), t, th.(pc := Decide(main, n), counted := true, tick := n))
    case Decide(main, n) =>
      if n >= Half(|s.tables[main]|) && !s.locked then Goto(s.(locked := true), t, ResizeLoad(n))
      else Goto(s, t, Room(main, n))
    case ResizeLoad(n) =>
      if n >= Half(|s.tables[Main(s)]|) && s.tables[Main(s)] != [] then Goto(s, t, Allocate(Main(s), n))
      else Goto(s, t, Unlock(Main(s), n))
    case Allocate(main, n) =>
      if !ok then Goto(s, t, FailCount)
      else
        var table := seq(Grown(2 * |s.tables[main]|, n), _ => Slot(EMPTY, None));
        Goto(s.(tables := s.tables + [table]), t, Unlock(|s.tables|, n))
    case FailCount => At(s.(count := s.count - 1), t, th.(pc := FailUnlock, counted := false))
    case FailUnlock => Return(s.(locked := false), t, Failed)
    case Unlock(main, n) => Goto(s.(locked := false), t, Room(main, n))
    case Room(main, n) =>
      if n < Limit(|s.tables[main]|) then Goto(s, t, Create(main)) else Goto(s, t, Reload(n))
    case Create(main) =>
      if !ok then Goto(s, t, DropCount)
      else if s.tables[main] == [] then s
      else Goto(s.(owners := s.owners + [t]), t, Put(main, 0, |s.owners|, true))
    case DropCount => Return(At(s.(count := s.count - 1), t, th.(counted := false)), t, Failed)
    case Reload(n) => Goto(s, t, Decide(Main(s), n))
    case _ => s
  }

  function Advance(s: State, t: nat, ok: bool): State
    requires t < |s.threads| == |s.hash| && PcOk(s, s.threads[t].pc)
  {
    var pc := s.threads[t].pc;
    if pc.Idle? then s
    else if pc.LoadMain? then
      if s.tables[Main(s)] == [] then s else Goto(s, t, Search(Main(s), Main(s), 0))
    else if pc.Search? then SearchStep(s, t)
    else if pc.Put? || pc.PutCas? || pc.PutValue? then PutStep(s, t)
    else CountStep(s, t, ok)
  }

  function Step(s: State, a: Action): State {
    match a
    case Get(t) => if t < |s.threads| && s.threads[t].pc == Idle then Goto(s, t, LoadMain) else s
    case Go(t, ok) =>
      if t < |s.threads| == |s.hash| && PcOk(s, s.threads[t].pc) then Advance(s, t, ok) else s
  }

  function Run(s: State, schedule: seq<Action>): State
    decreases |schedule|
  {
    if schedule == [] then s else Run(Step(s, schedule[0]), schedule[1..])
  }

  /** One empty table, nobody counted. */
  ghost predicate Init(s: State) {
    && |s.threads| == |s.hash| && |s.tables| == 1 && s.tables[0] != []
    && (forall j :: 0 <= j < |s.tables[0]| ==> s.tables[0][j] == Slot(EMPTY, None))
    && s.count == 0 && !s.locked && s.owners == []
    && (forall t :: 0 <= t < |s.threads| ==> s.threads[t] == Thread(Idle, false, 0, None, 0, NoResult))
  }

  // ---------------------------------------------------------------- the invariant

  predicate Absent(table: seq<Slot>, t: int) { forall j :: 0 <= j < |table| ==> table[j].key != t }

  ghost predicate Present(table: seq<Slot>, t: int) { exists j :: 0 <= j < |table| && table[j].key == t }

  /** The slots of the first i probes from h on are taken, none of them by t. */
  ghost predicate Passed(table: seq<Slot>, h: nat, i: nat, t: int) {
    table != [] && forall d: nat {:trigger Index(h, d, |table|)} :: d < i ==>
      table[Index(h, d, |table|)].key != EMPTY && table[Index(h, d, |table|)].key != t
  }

  /** How many probes from h on lead to slot j. */
  function Distance(h: nat, j: nat, capacity: nat): nat
    requires capacity > 0
  {
    (j - h) % capacity
  }

  /** A key's value is its thread's producer, or about to be written by it. */
  predicate ValueOk(th: Thread, h: nat, table: seq<Slot>, x: nat, j: nat)
    requires j < |table|
  {
    || (table[j].value.Some? && table[j].value == th.mine)
    || (table[j].value.None? && th.pc.PutValue? && th.pc.main == x && j == Index(h, th.pc.i, |table|))
  }

  /** A key belongs to a counted thread whose new count left room here, and no probe for it meets an empty
      slot first. */
  ghost predicate KeyOk(th: Thread, h: nat, table: seq<Slot>, x: nat, j: nat)
    requires j < |table|
  {
    && th.counted && th.tick < Limit(|table|) && Passed(table, h, Distance(h, j, |table|), table[j].key)
    && ValueOk(th, h, table, x, j)
  }

  ghost predicate TableInv(hash: seq<nat>, threads: seq<Thread>, table: seq<Slot>, x: nat) {
    && table != [] && |threads| == |hash|
    && (forall j :: 0 <= j < |table| && table[j].key == EMPTY ==> table[j].value.None?)
    && (forall j {:trigger table[j]} :: 0 <= j < |table| && table[j].key != EMPTY ==>
          0 <= table[j].key < |threads| && KeyOk(threads[table[j].key], hash[table[j].key], table, x, j))
    && (forall j, k :: 0 <= j < k < |table| && table[j].key == table[k].key ==> table[j].key == EMPTY)
  }

  ghost predicate TablesInv(s: State) {
    && s.tables != [] && |s.threads| == |s.hash|
    && (forall x {:trigger s.tables[x]} :: 0 <= x < |s.tables| ==> TableInv(s.hash, s.threads, s.tables[x], x))
    && (forall x, y :: 0 <= x < y < |s.tables| ==> |s.tables[x]| < |s.tables[y]|)
  }

  function One(b: bool): nat { if b then 1 else 0 }

  function CountedW(): Thread -> nat { (th: Thread) => One(th.counted) }
  function UpToW(n: nat): Thread -> nat { (th: Thread) => One(th.counted && th.tick <= n) }
  function LockW(): Thread -> nat { (th: Thread) => One(HasLock(th.pc)) }

  predicate HasLock(pc: Pc) {
    pc.ResizeLoad? || pc.Allocate? || pc.FailCount? || pc.FailUnlock? || pc.Unlock?
  }

  /** The count is that of the counted threads, and no more than n of them have a new count up to n. */
  ghost predicate CountInv(s: State) {
    && Total(s.threads, CountedW()) == s.count
    && (forall n: nat {:trigger UpToW(n)} :: Total(s.threads, UpToW(n)) <= n)
    && Total(s.threads, LockW()) == One(s.locked)
  }

  /** The thread has been counted and has not registered its producer yet. */
  predicate InFlight(pc: Pc) {
    || pc.Decide? || pc.ResizeLoad? || pc.Allocate? || pc.FailCount? || pc.Unlock? || pc.Room? || pc.Create?
    || pc.DropCount? || pc.Reload? || ((pc.Put? || pc.PutCas? || pc.PutValue?) && pc.added)
  }

  ghost predicate Nowhere(tables: seq<seq<Slot>>, t: int, from: int) {
    forall y {:trigger tables[y]} :: 0 <= y < |tables| && from <= y ==> Absent(tables[y], t)
  }

  predicate Owned(owners: seq<nat>, value: nat, t: nat) { value < |owners| && owners[value] == t }

  predicate Writes(pc: Pc) { pc.Put? || pc.PutCas? || pc.PutValue? }

  /** What a thread writing its key knows. */
  ghost predicate WriteInv(hash: seq<nat>, tables: seq<seq<Slot>>, owners: seq<nat>, th: Thread, t: nat)
    requires t < |hash| && Writes(th.pc)
  {
    var pc := th.pc;
    && pc.main < |tables| && pc.i < |tables[pc.main]| && th.tick < Limit(|tables[pc.main]|)
    && Passed(tables[pc.main], hash[t], pc.i, t)
    && (if pc.added then th.mine.None? && Owned(owners, pc.value, t) else th.mine == Some(pc.value))
    && (if pc.PutValue?
        then tables[pc.main][Index(hash[t], pc.i, |tables[pc.main]|)] == Slot(t, None)
             && (pc.added ==>
                   forall y {:trigger tables[y]} :: 0 <= y < |tables| && y != pc.main ==> Absent(tables[y], t))
        else Absent(tables[pc.main], t))
  }

  ghost predicate PcInv(hash: seq<nat>, tables: seq<seq<Slot>>, owners: seq<nat>, th: Thread, t: nat)
    requires t < |hash|
  {
    match th.pc
    case Search(main, x, i) =>
      && x <= main < |tables| && i < |tables[x]| && Passed(tables[x], hash[t], i, t) && Nowhere(tables, t, x + 1)
    case Put(_, _, _, _) => WriteInv(hash, tables, owners, th, t)
    case PutCas(_, _, _, _) => WriteInv(hash, tables, owners, th, t)
    case PutValue(_, _, _, _) => WriteInv(hash, tables, owners, th, t)
    case Count(main) => main < |tables| && th.mine.None?
    case Decide(main, n) => main < |tables| && th.tick == n
    case ResizeLoad(n) => th.tick == n
    case Allocate(main, n) => main == |tables| - 1 && th.tick == n && n >= Half(|tables[main]|)
    case Unlock(main, n) => main < |tables| && th.tick == n
    case Room(main, n) => main < |tables| && th.tick == n
    case Create(main) => main < |tables| && th.tick < Limit(|tables[main]|)
    case FailUnlock => th.mine.None?
    case Reload(n) => th.tick == n
    case _ => true
  }

  ghost predicate ThreadInv(hash: seq<nat>, tables: seq<seq<Slot>>, owners: seq<nat>, th: Thread, t: nat) {
    && t < |hash|
    && (th.counted <==> th.mine.Some? || InFlight(th.pc)) && (InFlight(th.pc) ==> th.mine.None?)
    && (th.mine.Some? ==>
          Owned(owners, th.mine.value, t) && th.home < |tables| && Present(tables[th.home], t))
    && (th.mine.None? && !th.pc.PutValue? ==> Nowhere(tables, t, 0))
    && (th.last.Got? ==> th.mine == Some(th.last.producer)) && (th.last.Failed? ==> th.mine.None?)
    && PcInv(hash, tables, owners, th, t)
  }

  ghost predicate ThreadsInv(s: State) {
    forall t {:trigger s.threads[t]} :: 0 <= t < |s.threads| ==>
      ThreadInv(s.hash, s.tables, s.owners, s.threads[t], t)
  }

  ghost predicate Inv(s: State) { TablesInv(s) && CountInv(s) && ThreadsInv(s) }

  // ---------------------------------------------------------------- room in a table

  function TakenW(): Slot -> nat { (slot: Slot) => One(slot.key != EMPTY) }

  const NOBODY: Thread := Thread(Idle, false, 0, None, 0, NoResult)

  /** Distinct keys of threads with new counts up to n are no more than there are such threads. */
  lemma {:induction false} TakenBound(table: seq<Slot>, threads: seq<Thread>, n: nat)
    requires forall j :: 0 <= j < |table| && table[j].key != EMPTY ==>
      0 <= table[j].key < |threads| && threads[table[j].key].counted && threads[table[j].key].tick <= n
    requires forall j, k :: 0 <= j < k < |table| && table[j].key == table[k].key ==> table[j].key == EMPTY
    ensures Total(table, TakenW()) <= Total(threads, UpToW(n))
  {
    if table != [] {
      var rest := table[1..];
      if table[0].key == EMPTY {
        TakenBound(rest, threads, n);
      } else {
        var t := table[0].key;
        TotalUpdate(threads, UpToW(n), t, NOBODY);
        TakenBound(rest, threads[t := NOBODY], n);
      }
    }
  }

  lemma {:induction false} AllTaken(table: seq<Slot>)
    requires Absent(table, EMPTY)
    ensures Total(table, TakenW()) == |table|
  {
    if table != [] {
      AllTaken(table[1..]);
    }
  }

  /** Fewer than three quarters of a table's slots are taken, and at least one is free. */
  lemma TableHasRoom(s: State, x: nat)
    requires TablesInv(s) && CountInv(s) && x < |s.tables|
    ensures Total(s.tables[x], TakenW()) < |s.tables[x]| && !Absent(s.tables[x], EMPTY)
    ensures Limit(|s.tables[x]|) > 0 ==> Total(s.tables[x], TakenW()) < Limit(|s.tables[x]|)
  {
    var table := s.tables[x];
    var limit := Limit(|table|);
    var n: nat := if limit > 0 then limit - 1 else 0;
    forall j | 0 <= j < |table| && table[j].key != EMPTY
      ensures limit > 0 && 0 <= table[j].key < |s.threads|
      ensures s.threads[table[j].key].counted && s.threads[table[j].key].tick <= n
    {}
    TakenBound(table, s.threads, n);
    if Absent(table, EMPTY) { AllTaken(table); }
  }

  /** Every slot is at some distance below the capacity. */
  lemma DistanceIs(h: nat, j: nat, capacity: nat)
    requires j < capacity
    ensures Distance(h, j, capacity) < capacity && Index(h, Distance(h, j, capacity), capacity) == j
  {
    ModAdd(j - h, h, capacity);
    DivUnique(j, capacity, 0);
  }

  lemma IndexDistance(h: nat, i: nat, capacity: nat)
    requires i < capacity
    ensures Distance(h, Index(h, i, capacity), capacity) == i
  {
    ModAdd(h + i, 0 - h, capacity);
    DivUnique(i, capacity, 0);
  }

  /** A probe loop never gets around a table that has a free slot. */
  lemma ProbeBounded(table: seq<Slot>, h: nat, i: nat, t: int)
    requires Passed(table, h, i, t) && i <= |table| && !Absent(table, EMPTY)
    ensures i < |table|
  {
    if i == |table| {
      forall j | 0 <= j < |table| ensures table[j].key != EMPTY {
        DistanceIs(h, j, |table|);
      }
    }
  }

  /** A search that has met an empty slot has not overlooked its key. */
  lemma NotThere(hash: seq<nat>, threads: seq<Thread>, table: seq<Slot>, x: nat, t: nat, i: nat)
    requires TableInv(hash, threads, table, x) && t < |hash| && i < |table| && Passed(table, hash[t], i, t)
    requires table[Index(hash[t], i, |table|)].key == EMPTY
    ensures Absent(table, t)
  {
    var h := hash[t];
    forall j | 0 <= j < |table| ensures table[j].key != t {
      DistanceIs(h, j, |table|);
    }
  }

  // ---------------------------------------------------------------- what other threads see

  ghost predicate TableGrows(table: seq<Slot>, table': seq<Slot>, u: nat) {
    && |table'| == |table|
    && forall j {:trigger table'[j]} :: 0 <= j < |table| ==>
         table'[j] == table[j] || ((table[j].key == EMPTY || table[j].key == u) && table'[j].key == u)
  }

  /** Thread u has taken free slots or written its own, or added an empty table. */
  ghost predicate Grows(tables: seq<seq<Slot>>, tables': seq<seq<Slot>>, u: nat) {
    && |tables| <= |tables'|
    && (forall x {:trigger tables'[x]} :: 0 <= x < |tables| ==> TableGrows(tables[x], tables'[x], u))
    && (forall x {:trigger tables'[x]} :: |tables| <= x < |tables'| ==>
          forall j :: 0 <= j < |tables'[x]| ==> tables'[x][j].key == EMPTY)
  }

  lemma PresentFrame(table: seq<Slot>, table': seq<Slot>, u: nat, t: nat)
    requires TableGrows(table, table', u) && Present(table, t)
    ensures Present(table', t)
  {
    var j :| 0 <= j < |table| && table[j].key == t;
    assert table'[j].key == t;
  }

  lemma WriteFrame(hash: seq<nat>, tables: seq<seq<Slot>>, tables': seq<seq<Slot>>, owners: seq<nat>, owners': seq<nat>,
                   th: Thread, t: nat, u: nat)
    requires t < |hash| && Writes(th.pc) && WriteInv(hash, tables, owners, th, t) && t != u
    requires Grows(tables, tables', u) && owners <= owners'
    ensures WriteInv(hash, tables', owners', th, t)
  {
    var main := th.pc.main;
    if th.pc.PutValue? {
      if th.pc.added {
        forall y | 0 <= y < |tables'| && y != main ensures Absent(tables'[y], t) {
        }
      }
    }
  }

  lemma ThreadFrame(hash: seq<nat>, tables: seq<seq<Slot>>, tables': seq<seq<Slot>>, owners: seq<nat>,
      owners': seq<nat>,
                    th: Thread, t: nat, u: nat)
    requires ThreadInv(hash, tables, owners, th, t) && t != u
    requires Grows(tables, tables', u) && owners <= owners' && (th.pc.Allocate? ==> |tables'| == |tables|)
    ensures ThreadInv(hash, tables', owners', th, t)
  {
    if th.mine.Some? { PresentFrame(tables[th.home], tables'[th.home], u, t); }
    if Writes(th.pc) { WriteFrame(hash, tables, tables', owners, owners', th, t, u); }
  }

  // ---------------------------------------------------------------- sums

  lemma SumsAfter(s: State, u: nat, th: Thread)
    requires u < |s.threads|
    ensures Total(s.threads[u := th], CountedW()) + One(s.threads[u].counted)
         == Total(s.threads, CountedW()) + One(th.counted)
    ensures Total(s.threads[u := th], LockW()) + One(HasLock(s.threads[u].pc))
         == Total(s.threads, LockW()) + One(HasLock(th.pc))
    ensures forall n: nat {:trigger UpToW(n)} ::
      Total(s.threads[u := th], UpToW(n)) + One(s.threads[u].counted && s.threads[u].tick <= n)
        == Total(s.threads, UpToW(n)) + One(th.counted && th.tick <= n)
  {
    TotalUpdate(s.threads, CountedW(), u, th);
    TotalUpdate(s.threads, LockW(), u, th);
    forall n: nat {:trigger UpToW(n)}
      ensures Total(s.threads[u := th], UpToW(n)) + One(s.threads[u].counted && s.threads[u].tick <= n)
           == Total(s.threads, UpToW(n)) + One(th.counted && th.tick <= n)
    {
      TotalUpdate(s.threads, UpToW(n), u, th);
    }
  }

  lemma OnlyLock(s: State, u: nat, v: nat)
    requires CountInv(s) && u < |s.threads| && v < |s.threads| && u != v && HasLock(s.threads[u].pc)
    ensures !HasLock(s.threads[v].pc) && s.locked
  {
    TotalMember(s.threads, LockW(), u);
    if HasLock(s.threads[v].pc) { TotalPair(s.threads, LockW(), u, v); }
  }

  // ---------------------------------------------------------------- a thread's own steps

  /** Thread u moves on; its table entries and its count stay. */
  ghost predicate Moves(s: State, s': State, u: nat) {
    && u < |s.threads| == |s'.threads|
    && s' == s.(threads := s.threads[u := s'.threads[u]], owners := s'.owners, locked := s'.locked)
    && s.owners <= s'.owners
    && var th, th' := s.threads[u], s'.threads[u];
    && th'.counted == th.counted && th'.tick == th.tick && th'.mine == th.mine && !th.pc.PutValue?
    && One(HasLock(th'.pc)) - One(HasLock(th.pc)) == One(s'.locked) - One(s.locked)
  }

  lemma TablesMove(s: State, th: Thread, u: nat)
    requires TablesInv(s) && u < |s.threads|
    requires || Nowhere(s.tables, u, 0)
             || (th.counted == s.threads[u].counted && th.tick == s.threads[u].tick && th.mine == s.threads[u].mine
                 && !s.threads[u].pc.PutValue?)
    ensures forall x {:trigger s.tables[x]} :: 0 <= x < |s.tables| ==>
      TableInv(s.hash, s.threads[u := th], s.tables[x], x)
  {
    var threads' := s.threads[u := th];
    forall x | 0 <= x < |s.tables| ensures TableInv(s.hash, threads', s.tables[x], x) {
      var table := s.tables[x];
      forall j | 0 <= j < |table| && table[j].key != EMPTY
        ensures 0 <= table[j].key < |threads'| && KeyOk(threads'[table[j].key], s.hash[table[j].key], table, x, j)
      {}
    }
  }

  lemma MovesKeeps(s: State, s': State, u: nat)
    requires Inv(s) && Moves(s, s', u) && ThreadInv(s.hash, s.tables, s'.owners, s'.threads[u], u)
    ensures Inv(s')
  {
    TablesMove(s, s'.threads[u], u);
    SumsAfter(s, u, s'.threads[u]);
    forall t | 0 <= t < |s'.threads| ensures ThreadInv(s.hash, s.tables, s'.owners, s'.threads[t], t) {
      if t != u {
        ThreadFrame(s.hash, s.tables, s.tables, s.owners, s'.owners, s.threads[t], t, u);
      }
    }
  }

  lemma StartOk(s: State, t: nat)
    requires TablesInv(s) && t < |s.threads|
    requires ThreadInv(s.hash, s.tables, s.owners, s.threads[t], t) && s.threads[t].pc.LoadMain?
    ensures s.tables[Main(s)] != []
    ensures var s' := Goto(s, t, Search(Main(s), Main(s), 0));
      ThreadInv(s.hash, s.tables, s.owners, s'.threads[t], t)
  {}

  /** Finding its key in an older table, a thread has room for it in the newer one. */
  lemma FoundOk(s: State, t: nat)
    requires TablesInv(s) && t < |s.threads|
    requires ThreadInv(s.hash, s.tables, s.owners, s.threads[t], t) && s.threads[t].pc.Search?
    requires var pc := s.threads[t].pc; s.tables[pc.x][Index(s.hash[t], pc.i, |s.tables[pc.x]|)].key == t
    ensures PcOk(s, s.threads[t].pc)
    ensures var s' := SearchStep(s, t);
      Moves(s, s', t) && s'.owners == s.owners && ThreadInv(s.hash, s.tables, s.owners, s'.threads[t], t)
  {
    var pc := s.threads[t].pc;
    var j := Index(s.hash[t], pc.i, |s.tables[pc.x]|);
    assert KeyOk(s.threads[t], s.hash[t], s.tables[pc.x], pc.x, j);
  }

  lemma PassedOk(s: State, t: nat)
    requires TablesInv(s) && CountInv(s) && t < |s.threads|
    requires ThreadInv(s.hash, s.tables, s.owners, s.threads[t], t) && s.threads[t].pc.Search?
    requires var pc := s.threads[t].pc;
      var key := s.tables[pc.x][Index(s.hash[t], pc.i, |s.tables[pc.x]|)].key; key != t && key != EMPTY
    ensures var pc := s.threads[t].pc;
      pc.i + 1 < |s.tables[pc.x]| && Passed(s.tables[pc.x], s.hash[t], pc.i + 1, t)
  {
    var pc := s.threads[t].pc;
    TableHasRoom(s, pc.x);
    ProbeBounded(s.tables[pc.x], s.hash[t], pc.i + 1, t);
  }

  /** Meeting an empty slot, a thread goes on with the next older table, or has no producer yet. */
  lemma EmptyOk(s: State, t: nat)
    requires TablesInv(s) && t < |s.threads|
    requires ThreadInv(s.hash, s.tables, s.owners, s.threads[t], t) && s.threads[t].pc.Search?
    requires var pc := s.threads[t].pc; s.tables[pc.x][Index(s.hash[t], pc.i, |s.tables[pc.x]|)].key == EMPTY
    ensures var pc := s.threads[t].pc;
      && Nowhere(s.tables, t, pc.x) && (pc.x > 0 ==> s.tables[pc.x - 1] != [])
      && (pc.x == 0 ==> s.threads[t].mine.None?)
  {
    var pc := s.threads[t].pc;
    NotThere(s.hash, s.threads, s.tables[pc.x], pc.x, t, pc.i);
  }

  lemma MissedOk(s: State, t: nat)
    requires TablesInv(s) && CountInv(s) && t < |s.threads| && PcOk(s, s.threads[t].pc)
    requires ThreadInv(s.hash, s.tables, s.owners, s.threads[t], t) && s.threads[t].pc.Search?
    requires var pc := s.threads[t].pc; s.tables[pc.x][Index(s.hash[t], pc.i, |s.tables[pc.x]|)].key != t
    ensures var s' := SearchStep(s, t);
      Moves(s, s', t) && s'.owners == s.owners && ThreadInv(s.hash, s.tables, s.owners, s'.threads[t], t)
  {
    hide TablesInv, CountInv, Nowhere, Passed, Present;
    var pc := s.threads[t].pc;
    if s.tables[pc.x][Index(s.hash[t], pc.i, |s.tables[pc.x]|)].key == EMPTY {
      EmptyOk(s, t);
      if pc.x > 0 { NothingPassed(s.tables[pc.x - 1], s.hash[t], t); }
    } else {
      PassedOk(s, t);
    }
  }

  lemma NothingPassed(table: seq<Slot>, h: nat, t: int)
    requires table != []
    ensures Passed(table, h, 0, t)
  {}

  lemma SearchKeeps(s: State, t: nat)
    requires Inv(s) && t < |s.threads| && s.threads[t].pc.Search?
    ensures PcOk(s, s.threads[t].pc) && Inv(SearchStep(s, t))
  {
    var pc := s.threads[t].pc;
    if s.tables[pc.x][Index(s.hash[t], pc.i, |s.tables[pc.x]|)].key == t { FoundOk(s, t); } else { MissedOk(s, t); }
    MovesKeeps(s, SearchStep(s, t), t);
  }

  // ---- writing a key

  predicate SlotFree(s: State, t: nat)
    requires t < |s.threads| == |s.hash| && Writes(s.threads[t].pc) && PcOk(s, s.threads[t].pc)
  {
    var pc := s.threads[t].pc;
    s.tables[pc.main][Index(s.hash[t], pc.i, |s.tables[pc.main]|)].key == EMPTY
  }

  lemma ProbeOk(s: State, t: nat)
    requires TablesInv(s) && CountInv(s) && t < |s.threads| && Writes(s.threads[t].pc) && !s.threads[t].pc.PutValue?
    requires ThreadInv(s.hash, s.tables, s.owners, s.threads[t], t) && PcOk(s, s.threads[t].pc)
    requires s.threads[t].pc.PutCas? ==> !SlotFree(s, t)
    ensures var s' := PutStep(s, t);
      Moves(s, s', t) && s'.owners == s.owners && ThreadInv(s.hash, s.tables, s.owners, s'.threads[t], t)
  {
    var pc := s.threads[t].pc;
    var table := s.tables[pc.main];
    if !SlotFree(s, t) {
      TableHasRoom(s, pc.main);
      ProbeBounded(table, s.hash[t], pc.i + 1, t);
    }
  }

  lemma ProbeKeeps(s: State, t: nat)
    requires Inv(s) && t < |s.threads| && Writes(s.threads[t].pc) && !s.threads[t].pc.PutValue?
    requires PcOk(s, s.threads[t].pc) && (s.threads[t].pc.PutCas? ==> !SlotFree(s, t))
    ensures Inv(PutStep(s, t))
  {
    ProbeOk(s, t);
    MovesKeeps(s, PutStep(s, t), t);
  }

  /** A step of thread u that changes tables keeps what the others know. */
  lemma OthersKeep(s: State, s': State, u: nat)
    requires ThreadsInv(s) && u < |s.threads| && |s'.threads| == |s.threads|
    requires s'.hash == s.hash && s'.owners == s.owners && s'.threads == s.threads[u := s'.threads[u]]
    requires Grows(s.tables, s'.tables, u)
    requires |s'.tables| == |s.tables| || forall t :: 0 <= t < |s.threads| && t != u ==> !s.threads[t].pc.Allocate?
    requires ThreadInv(s'.hash, s'.tables, s'.owners, s'.threads[u], u)
    ensures ThreadsInv(s')
  {
    forall t | 0 <= t < |s'.threads| ensures ThreadInv(s'.hash, s'.tables, s'.owners, s'.threads[t], t) {
      if t != u {
        ThreadFrame(s.hash, s.tables, s'.tables, s.owners, s'.owners, s.threads[t], t, u);
      }
    }
  }

  /** The key goes into the first free slot that its probes meet. */
  lemma TakeTable(hash: seq<nat>, threads: seq<Thread>, table: seq<Slot>, x: nat, t: nat, i: nat, th: Thread)
    requires TableInv(hash, threads, table, x) && t < |threads| && i < |table|
    requires table[Index(hash[t], i, |table|)].key == EMPTY && Absent(table, t) && Passed(table, hash[t], i, t)
    requires th.counted && th.tick < Limit(|table|) && th.pc.PutValue? && th.pc.main == x && th.pc.i == i
    ensures Index(hash[t], i, |table|) < |table|
    ensures TableInv(hash, threads[t := th], table[Index(hash[t], i, |table|) := Slot(t, None)], x)
  {
    var j := Index(hash[t], i, |table|);
    var table' := table[j := Slot(t, None)];
    var threads' := threads[t := th];
    forall k | 0 <= k < |table'| && table'[k].key != EMPTY
      ensures 0 <= table'[k].key < |threads'| && KeyOk(threads'[table'[k].key], hash[table'[k].key], table', x, k)
    {
      if k == j {
        IndexDistance(hash[t], i, |table|);
      }
    }
  }

  /** One slot of one table has changed. */
  ghost predicate SlotSet(s: State, s': State, x: nat, j: nat, slot: Slot) {
    && x < |s.tables| && j < |s.tables[x]|
    && s'.tables == s.tables[x := s.tables[x][j := slot]] && s'.hash == s.hash && s'.owners == s.owners
  }

  lemma SlotSetGrows(s: State, s': State, x: nat, j: nat, slot: Slot, u: nat)
    requires SlotSet(s, s', x, j, slot) && (s.tables[x][j].key == EMPTY || s.tables[x][j].key == u) && slot.key == u
    ensures Grows(s.tables, s'.tables, u)
  {}

  lemma SlotSetTables(s: State, s': State, x: nat, j: nat, slot: Slot, u: nat)
    requires TablesInv(s) && SlotSet(s, s', x, j, slot) && u < |s.threads|
    requires |s'.threads| == |s.threads| && s'.threads == s.threads[u := s'.threads[u]]
    requires TableInv(s.hash, s'.threads, s.tables[x][j := slot], x)
    requires forall y {:trigger s.tables[y]} :: 0 <= y < |s.tables| && y != x ==>
      TableInv(s.hash, s'.threads, s.tables[y], y)
    ensures TablesInv(s')
  {
    forall y | 0 <= y < |s'.tables| ensures TableInv(s'.hash, s'.threads, s'.tables[y], y) {
    }
  }

  lemma TakeOwn(s: State, t: nat)
    requires TablesInv(s) && t < |s.threads| && s.threads[t].pc.PutCas?
    requires ThreadInv(s.hash, s.tables, s.owners, s.threads[t], t) && PcOk(s, s.threads[t].pc) && SlotFree(s, t)
    ensures var s' := PutStep(s, t);
      var j := Index(s.hash[t], s.threads[t].pc.i, |s.tables[s.threads[t].pc.main]|);
      && SlotSet(s, s', s.threads[t].pc.main, j, Slot(t, None)) && s'.threads == s.threads[t := s'.threads[t]]
      && ThreadInv(s'.hash, s'.tables, s'.owners, s'.threads[t], t)
  {
    var pc := s.threads[t].pc;
    var table := s.tables[pc.main];
    var j := Index(s.hash[t], pc.i, |table|);
    var th := s.threads[t];
    if th.mine.Some? {
      var k :| 0 <= k < |s.tables[th.home]| && s.tables[th.home][k].key == t;
    }
  }

  lemma TakeKeeps(s: State, t: nat)
    requires Inv(s) && t < |s.threads| && s.threads[t].pc.PutCas? && PcOk(s, s.threads[t].pc) && SlotFree(s, t)
    ensures Inv(PutStep(s, t))
  {
    var pc := s.threads[t].pc;
    var s' := PutStep(s, t);
    var j := Index(s.hash[t], pc.i, |s.tables[pc.main]|);
    TakeOwn(s, t);
    hide ThreadInv, TableInv, WriteInv, Passed, Absent;
    TakeTable(s.hash, s.threads, s.tables[pc.main], pc.main, t, pc.i, s'.threads[t]);
    TablesMove(s, s'.threads[t], t);
    SlotSetGrows(s, s', pc.main, j, Slot(t, None), t);
    SumsAfter(s, t, s'.threads[t]);
    OthersKeep(s, s', t);
  }

  lemma ValueTable(hash: seq<nat>, threads: seq<Thread>, table: seq<Slot>, x: nat, t: nat, j: nat, th: Thread,
      value: nat)
    requires TableInv(hash, threads, table, x) && t < |threads| && j < |table| && table[j] == Slot(t, None)
    requires th.counted && th.tick == threads[t].tick && th.mine == Some(value)
    ensures TableInv(hash, threads[t := th], table[j := Slot(t, Some(value))], x)
  {
    var table' := table[j := Slot(t, Some(value))];
    var threads' := threads[t := th];
    forall k | 0 <= k < |table'| && table'[k].key != EMPTY
      ensures 0 <= table'[k].key < |threads'| && KeyOk(threads'[table'[k].key], hash[table'[k].key], table', x, k)
    {}
  }

  /** In the other tables the thread's keys, if there are any, have their value already. */
  lemma ValueElsewhere(s: State, t: nat, th: Thread, y: nat)
    requires TablesInv(s) && t < |s.threads| && s.threads[t].pc.PutValue? && y < |s.tables| && y != s.threads[t].pc.main
    requires ThreadInv(s.hash, s.tables, s.owners, s.threads[t], t)
    requires th.counted && th.tick == s.threads[t].tick && (!s.threads[t].pc.added ==> th.mine == s.threads[t].mine)
    ensures TableInv(s.hash, s.threads[t := th], s.tables[y], y)
  {
    var table := s.tables[y];
    var threads' := s.threads[t := th];
    forall k | 0 <= k < |table| && table[k].key != EMPTY
      ensures 0 <= table[k].key < |threads'| && KeyOk(threads'[table[k].key], s.hash[table[k].key], table, y, k)
    {}
  }

  lemma ValueOwn(s: State, t: nat)
    requires TablesInv(s) && t < |s.threads| && s.threads[t].pc.PutValue?
    requires ThreadInv(s.hash, s.tables, s.owners, s.threads[t], t) && PcOk(s, s.threads[t].pc)
    ensures var s' := PutStep(s, t);
      var pc := s.threads[t].pc;
      var j := Index(s.hash[t], pc.i, |s.tables[pc.main]|);
      && s.tables[pc.main][j] == Slot(t, None)
      && SlotSet(s, s', pc.main, j, Slot(t, Some(pc.value))) && s'.threads == s.threads[t := s'.threads[t]]
      && ThreadInv(s'.hash, s'.tables, s'.owners, s'.threads[t], t)
      && s'.threads[t].mine == Some(pc.value) && s'.threads[t].counted && s'.threads[t].tick == s.threads[t].tick
      && s.threads[t].counted && s'.threads[t].pc == Idle && s'.count == s.count && s'.locked == s.locked
  {
    var pc := s.threads[t].pc;
    var s' := PutStep(s, t);
    var j := Index(s.hash[t], pc.i, |s.tables[pc.main]|);
    assert s'.tables[pc.main][j].key == t;
    var th := s.threads[t];
    if th.mine.Some? {
      var k :| 0 <= k < |s.tables[th.home]| && s.tables[th.home][k].key == t;
    }
  }

  lemma ValueKeeps(s: State, t: nat)
    requires Inv(s) && t < |s.threads| && s.threads[t].pc.PutValue? && PcOk(s, s.threads[t].pc)
    ensures Inv(PutStep(s, t))
  {
    assert ThreadInv(s.hash, s.tables, s.owners, s.threads[t], t);
    var pc := s.threads[t].pc;
    var s' := PutStep(s, t);
    var j := Index(s.hash[t], pc.i, |s.tables[pc.main]|);
    ValueOwn(s, t);
    var th := s'.threads[t];
    hide ThreadInv, TableInv;
    ValueTable(s.hash, s.threads, s.tables[pc.main], pc.main, t, j, th, pc.value);
    forall y {:trigger s.tables[y]} | 0 <= y < |s.tables| && y != pc.main
      ensures TableInv(s.hash, s'.threads, s.tables[y], y)
    {
      ValueElsewhere(s, t, th, y);
    }
    SlotSetTables(s, s', pc.main, j, Slot(t, Some(pc.value)), t);
    SlotSetGrows(s, s', pc.main, j, Slot(t, Some(pc.value)), t);
    SumsAfter(s, t, th);
    OthersKeep(s, s', t);
  }

  lemma PutKeeps(s: State, t: nat)
    requires Inv(s) && t < |s.threads| && Writes(s.threads[t].pc)
    ensures PcOk(s, s.threads[t].pc) && Inv(PutStep(s, t))
  {
    if s.threads[t].pc.PutValue? {
      ValueKeeps(s, t);
    } else if s.threads[t].pc.PutCas? && SlotFree(s, t) {
      TakeKeeps(s, t);
    } else {
      ProbeKeeps(s, t);
    }
  }

  // ---- counting and growing

  predicate Counting(pc: Pc) { pc.Count? || pc.FailCount? || pc.DropCount? }

  predicate Walks(pc: Pc) {
    pc.Decide? || pc.ResizeLoad? || pc.FailUnlock? || pc.Unlock? || pc.Room? || pc.Create? || pc.Reload? || pc.Allocate?
  }

  /** Steps around the lock. */
  lemma LockOk(s: State, t: nat, ok: bool)
    requires TablesInv(s) && t < |s.threads| && PcOk(s, s.threads[t].pc) && (HasLock(s.threads[t].pc) ==> s.locked)
    requires ThreadInv(s.hash, s.tables, s.owners, s.threads[t], t) && (s.threads[t].pc.Allocate? ==> !ok)
    requires var pc := s.threads[t].pc; pc.ResizeLoad? || pc.FailUnlock? || pc.Unlock? || pc.Allocate?
    ensures var s' := CountStep(s, t, ok);
      Moves(s, s', t) && ThreadInv(s.hash, s.tables, s'.owners, s'.threads[t], t)
  {
    hide TablesInv, Nowhere;
  }

  lemma RoomOk(s: State, t: nat, ok: bool)
    requires t < |s.threads| == |s.hash| && PcOk(s, s.threads[t].pc)
    requires ThreadInv(s.hash, s.tables, s.owners, s.threads[t], t)
    requires var pc := s.threads[t].pc; pc.Decide? || pc.Room? || pc.Reload?
    ensures var s' := CountStep(s, t, ok);
      Moves(s, s', t) && ThreadInv(s.hash, s.tables, s'.owners, s'.threads[t], t)
  {
    hide Nowhere, Present;
  }

  lemma CreateOk(s: State, t: nat, ok: bool)
    requires TablesInv(s) && t < |s.threads| && PcOk(s, s.threads[t].pc) && s.threads[t].pc.Create?
    requires ThreadInv(s.hash, s.tables, s.owners, s.threads[t], t)
    ensures var s' := CountStep(s, t, ok);
      Moves(s, s', t) && ThreadInv(s.hash, s.tables, s'.owners, s'.threads[t], t)
  {
    var main := s.threads[t].pc.main;
    hide TablesInv, TableInv, Nowhere, Absent, Limit;
  }

  /** A step that only moves the thread on, or takes or drops the lock, or makes a producer. */
  lemma WalkOk(s: State, t: nat, ok: bool)
    requires TablesInv(s) && CountInv(s) && t < |s.threads| && Walks(s.threads[t].pc) && PcOk(s, s.threads[t].pc)
    requires ThreadInv(s.hash, s.tables, s.owners, s.threads[t], t) && (s.threads[t].pc.Allocate? ==> !ok)
    ensures var s' := CountStep(s, t, ok);
      Moves(s, s', t) && ThreadInv(s.hash, s.tables, s'.owners, s'.threads[t], t)
  {
    hide Moves, ThreadInv, CountStep, CountInv, TablesInv, PcOk;
    var pc := s.threads[t].pc;
    LockHeld(s, t);
    if pc.Create? {
      CreateOk(s, t, ok);
    } else if pc.Decide? || pc.Room? || pc.Reload? {
      Threads(s);
      RoomOk(s, t, ok);
    } else {
      LockOk(s, t, ok);
    }
  }

  lemma Threads(s: State)
    requires TablesInv(s)
    ensures |s.threads| == |s.hash|
  {}

  lemma LockHeld(s: State, t: nat)
    requires CountInv(s) && t < |s.threads|
    ensures HasLock(s.threads[t].pc) ==> s.locked
  {
    if HasLock(s.threads[t].pc) { TotalMember(s.threads, LockW(), t); }
  }

  lemma WalkKeeps(s: State, t: nat, ok: bool)
    requires Inv(s) && t < |s.threads| && Walks(s.threads[t].pc) && PcOk(s, s.threads[t].pc)
    requires s.threads[t].pc.Allocate? ==> !ok
    ensures Inv(CountStep(s, t, ok))
  {
    WalkOk(s, t, ok);
    MovesKeeps(s, CountStep(s, t, ok), t);
  }

  lemma CountOwn(s: State, t: nat, ok: bool)
    requires CountInv(s) && t < |s.threads| == |s.hash| && Counting(s.threads[t].pc) && PcOk(s, s.threads[t].pc)
    requires ThreadInv(s.hash, s.tables, s.owners, s.threads[t], t)
    ensures var s' := CountStep(s, t, ok);
      && s'.threads == s.threads[t := s'.threads[t]] && s' == s.(threads := s'.threads, count := s'.count)
      && ThreadInv(s.hash, s.tables, s.owners, s'.threads[t], t) && Nowhere(s.tables, t, 0)
      && s'.count - s.count == One(s'.threads[t].counted) - One(s.threads[t].counted)
      && (s'.threads[t].counted ==> s'.threads[t].tick == s.count + 1)
      && HasLock(s'.threads[t].pc) == HasLock(s.threads[t].pc)
  {}

  /** A new count is larger than the number of threads counted so far, so it keeps every prefix small. */
  lemma CountKeeps(s: State, t: nat, ok: bool)
    requires Inv(s) && t < |s.threads| && Counting(s.threads[t].pc) && PcOk(s, s.threads[t].pc)
    ensures Inv(CountStep(s, t, ok))
  {
    var s' := CountStep(s, t, ok);
    CountOwn(s, t, ok);
    hide ThreadInv, TableInv;
    TablesMove(s, s'.threads[t], t);
    SumsAfter(s, t, s'.threads[t]);
    forall n: nat {:trigger UpToW(n)} ensures Total(s'.threads, UpToW(n)) <= n {
      CountedMore(s.threads, n);
    }
  }

  lemma {:induction false} CountedMore(threads: seq<Thread>, n: nat)
    ensures Total(threads, UpToW(n)) <= Total(threads, CountedW())
  {
    if threads != [] { CountedMore(threads[1..], n); }
  }

  lemma EmptyTable(hash: seq<nat>, threads: seq<Thread>, c: nat, x: nat)
    requires c > 0 && |threads| == |hash|
    ensures TableInv(hash, threads, seq(c, _ => Slot(EMPTY, None)), x)
  {}

  lemma AllocateOwn(s: State, t: nat)
    requires TablesInv(s) && t < |s.threads| && s.threads[t].pc.Allocate? && PcOk(s, s.threads[t].pc)
    requires ThreadInv(s.hash, s.tables, s.owners, s.threads[t], t)
    ensures var s' := CountStep(s, t, true);
      && s'.threads == s.threads[t := s'.threads[t]] && s'.hash == s.hash && s'.owners == s.owners
      && s'.count == s.count && s'.locked == s.locked && |s'.tables| == |s.tables| + 1
      && s'.tables == s.tables + [s'.tables[|s.tables|]]
      && s'.tables[|s.tables|] == seq(|s'.tables[|s.tables|]|, _ => Slot(EMPTY, None))
      && |s'.tables[|s.tables|]| > |s.tables[|s.tables| - 1]|
      && Grows(s.tables, s'.tables, t)
      && s'.threads[t] == s.threads[t].(pc := Unlock(|s.tables|, s.threads[t].pc.n))
  {
    var s' := CountStep(s, t, true);
  }

  lemma AllocateThread(s: State, t: nat)
    requires TablesInv(s) && t < |s.threads| && s.threads[t].pc.Allocate? && PcOk(s, s.threads[t].pc)
    requires ThreadInv(s.hash, s.tables, s.owners, s.threads[t], t)
    ensures var s' := CountStep(s, t, true); ThreadInv(s'.hash, s'.tables, s'.owners, s'.threads[t], t)
  {
    var s' := CountStep(s, t, true);
    forall y | 0 <= y < |s'.tables| ensures Absent(s'.tables[y], t) {
    }
  }

  lemma AllocateTables(s: State, s': State, u: nat)
    requires TablesInv(s) && u < |s.threads| == |s'.threads| && s'.threads == s.threads[u := s'.threads[u]]
    requires forall x {:trigger s.tables[x]} :: 0 <= x < |s.tables| ==>
      TableInv(s.hash, s'.threads, s.tables[x], x)
    requires s'.hash == s.hash && |s'.tables| == |s.tables| + 1 && s'.tables == s.tables + [s'.tables[|s.tables|]]
    requires s'.tables[|s.tables|] == seq(|s'.tables[|s.tables|]|, _ => Slot(EMPTY, None))
    requires |s'.tables[|s.tables|]| > |s.tables[|s.tables| - 1]|
    ensures TablesInv(s')
  {
    hide TableInv;
    EmptyTable(s.hash, s'.threads, |s'.tables[|s.tables|]|, |s.tables|);
    forall y | 0 <= y < |s'.tables| ensures TableInv(s'.hash, s'.threads, s'.tables[y], y) {
    }
  }

  lemma AllocateKeeps(s: State, t: nat)
    requires Inv(s) && t < |s.threads| && s.threads[t].pc.Allocate? && PcOk(s, s.threads[t].pc)
    ensures Inv(CountStep(s, t, true))
  {
    assert ThreadInv(s.hash, s.tables, s.owners, s.threads[t], t);
    hide ThreadInv, TableInv, CountStep, TablesInv, Grows;
    var s' := CountStep(s, t, true);
    AllocateOwn(s, t);
    AllocateThread(s, t);
    AllocateTables(s, s', t);
    SumsAfter(s, t, s'.threads[t]);
    forall v | 0 <= v < |s.threads| && v != t ensures !s.threads[v].pc.Allocate? { OnlyLock(s, t, v); }
    OthersKeep(s, s', t);
  }

  // ---------------------------------------------------------------- the invariant over runs

  lemma AdvanceKeeps(s: State, t: nat, ok: bool)
    requires Inv(s) && t < |s.threads|
    ensures PcOk(s, s.threads[t].pc) && Inv(Advance(s, t, ok))
  {
    var pc := s.threads[t].pc;
    if pc.Idle? {
    } else if pc.LoadMain? {
      StartOk(s, t);
      MovesKeeps(s, Goto(s, t, Search(Main(s), Main(s), 0)), t);
    } else if pc.Search? {
      SearchKeeps(s, t);
    } else if Writes(pc) {
      PutKeeps(s, t);
    } else {
      if Counting(pc) {
        CountKeeps(s, t, ok);
      } else if pc.Allocate? && ok {
        AllocateKeeps(s, t);
      } else {
        WalkKeeps(s, t, ok);
      }
    }
  }

  lemma GetKeeps(s: State, t: nat)
    requires Inv(s) && t < |s.threads| && s.threads[t].pc == Idle
    ensures Inv(Goto(s, t, LoadMain))
  {
    MovesKeeps(s, Goto(s, t, LoadMain), t);
  }

  lemma StepKeeps(s: State, a: Action)
    requires Inv(s)
    ensures Inv(Step(s, a))
  {
    hide Inv;
    match a
    case Get(t) => if t < |s.threads| && s.threads[t].pc == Idle { GetKeeps(s, t); }
    case Go(t, ok) => if t < |s.threads| { AdvanceKeeps(s, t, ok); }
  }

  lemma {:induction false} RunKeeps(s: State, schedule: seq<Action>)
    requires Inv(s)
    ensures Inv(Run(s, schedule))
    decreases |schedule|
  {
    hide Inv;
    if schedule != [] {
      StepKeeps(s, schedule[0]);
      RunKeeps(Step(s, schedule[0]), schedule[1..]);
    }
  }

  lemma ReachableInv(s0: State, schedule: seq<Action>)
    requires Init(s0)
    ensures Inv(Run(s0, schedule))
  {
    TotalZero(s0.threads, CountedW());
    TotalZero(s0.threads, LockW());
    forall n: nat {:trigger UpToW(n)} ensures Total(s0.threads, UpToW(n)) <= n {
      TotalZero(s0.threads, UpToW(n));
    }
    RunKeeps(s0, schedule);
  }

  // ---------------------------------------------------------------- what holds in every run

  lemma KeyHasValue(s: State, t: nat, x: nat, j: nat)
    requires TablesInv(s) && t < |s.threads| && x < |s.tables| && j < |s.tables[x]| && !s.threads[t].pc.PutValue?
    ensures s.tables[x][j].key == t ==> s.tables[x][j].value.Some?
  {}

  /** A probe loop is never at more than the table's capacity of probes, whatever the others insert and
      whichever table the thread holds on to: every loop ends.  A search that finds its key finds a producer
      with it. */
  lemma ProbesEnd(s0: State, schedule: seq<Action>, t: nat)
    requires Init(s0) && t < |Run(s0, schedule).threads|
    ensures var s := Run(s0, schedule);
      var pc := s.threads[t].pc;
      && PcOk(s, pc)
      && (pc.Search? ==>
            && pc.i < |s.tables[pc.x]| && !Absent(s.tables[pc.x], EMPTY) && t < |s.hash|
            && var slot := s.tables[pc.x][Index(s.hash[t], pc.i, |s.tables[pc.x]|)];
            slot.key == t ==> slot.value.Some?)
      && (Writes(pc) ==> pc.i < |s.tables[pc.main]| && !Absent(s.tables[pc.main], EMPTY))
  {
    var s := Run(s0, schedule);
    ReachableInv(s0, schedule);
    AdvanceKeeps(s, t, true);
    if s.threads[t].pc.Search? {
      TableHasRoom(s, s.threads[t].pc.x);
      KeyHasValue(s, t, s.threads[t].pc.x, Index(s.hash[t], s.threads[t].pc.i, |s.tables[s.threads[t].pc.x]|));
    }
    if Writes(s.threads[t].pc) { TableHasRoom(s, s.threads[t].pc.main); }
  }

  /** Every table has fewer than three quarters of its slots taken, each by a different thread, with no gap
      between a key and where its probes start. */
  lemma TablesStaySparse(s0: State, schedule: seq<Action>, x: nat)
    requires Init(s0) && x < |Run(s0, schedule).tables|
    ensures var table := Run(s0, schedule).tables[x];
      && 4 * Total(table, TakenW()) < 3 * |table|
      && (forall j, k :: 0 <= j < k < |table| && table[j].key == table[k].key ==> table[j].key == EMPTY)
    ensures var s := Run(s0, schedule);
      forall j {:trigger s.tables[x][j]} :: 0 <= j < |s.tables[x]| && s.tables[x][j].key != EMPTY ==>
        var t := s.tables[x][j].key;
        && 0 <= t < |s.threads| && |s.threads| == |s.hash|
        && Passed(s.tables[x], s.hash[t], Distance(s.hash[t], j, |s.tables[x]|), t)
  {
    var s := Run(s0, schedule);
    ReachableInv(s0, schedule);
    TableHasRoom(s, x);
    var table := s.tables[x];
    forall j | 0 <= j < |table| && table[j].key != EMPTY
      ensures var t := table[j].key;
        0 <= t < |s.threads| && Passed(table, s.hash[t], Distance(s.hash[t], j, |table|), t)
    {}
  }

  /** What a step may do to its thread's record of producers. */
  predicate Records(th: Thread, th': Thread) {
    && (th'.mine == th.mine || (th.pc.PutValue? && th.pc.added))
    && (th'.last == th.last || !th'.last.NoResult?)
  }

  predicate OneMoves(s: State, s': State, u: nat)
    requires u < |s.threads|
  {
    |s'.threads| == |s.threads| && s'.threads == s.threads[u := s'.threads[u]] && Records(s.threads[u], s'.threads[u])
  }

  lemma SearchEffect(s: State, u: nat)
    requires u < |s.threads| == |s.hash| && s.threads[u].pc.Search? && PcOk(s, s.threads[u].pc)
    ensures OneMoves(s, SearchStep(s, u), u)
  {}

  lemma PutEffect(s: State, u: nat)
    requires u < |s.threads| == |s.hash| && PcOk(s, s.threads[u].pc) && Writes(s.threads[u].pc)
    ensures OneMoves(s, PutStep(s, u), u)
  {}

  lemma CountEffect(s: State, u: nat, ok: bool)
    requires u < |s.threads| == |s.hash| && PcOk(s, s.threads[u].pc)
    ensures OneMoves(s, CountStep(s, u, ok), u)
  {}

  lemma StepEffect(s: State, a: Action) returns (u: nat)
    requires s.threads != []
    ensures u < |s.threads| && OneMoves(s, Step(s, a), u) && (a.t < |s.threads| ==> u == a.t)
  {
    u := if a.t < |s.threads| then a.t else 0;
    if a.Go? && a.t < |s.threads| == |s.hash| && PcOk(s, s.threads[a.t].pc) {
      hide SearchStep, PutStep, CountStep, PcOk;
      if s.threads[u].pc.Search? {
        SearchEffect(s, u);
      } else if Writes(s.threads[u].pc) {
        PutEffect(s, u);
      } else {
        CountEffect(s, u, a.ok);
      }
    }
  }

  lemma MineStays(s: State, a: Action, t: nat)
    requires Inv(s) && t < |s.threads| && s.threads[t].mine.Some?
    ensures |Step(s, a).threads| == |s.threads| && Step(s, a).threads[t].mine == s.threads[t].mine
  {
    hide Step, TablesInv, CountInv;
    var u := StepEffect(s, a);
  }

  lemma {:induction false} MineStaysRun(s: State, schedule: seq<Action>, t: nat)
    requires Inv(s) && t < |s.threads| && s.threads[t].mine.Some?
    ensures |Run(s, schedule).threads| == |s.threads| && Run(s, schedule).threads[t].mine == s.threads[t].mine
    decreases |schedule|
  {
    hide Inv, Step;
    if schedule != [] {
      MineStays(s, schedule[0], t);
      StepKeeps(s, schedule[0]);
      MineStaysRun(Step(s, schedule[0]), schedule[1..], t);
    }
  }

  /** Once a thread has obtained a producer, each of its later calls returns the same one. */
  lemma SameProducerAgain(s0: State, before: seq<Action>, after: seq<Action>, t: nat)
    requires Init(s0) && t < |Run(s0, before).threads| && Run(s0, before).threads[t].last.Got?
    ensures var s := Run(s0, before);
      var s' := Run(s, after);
      t < |s'.threads| && s'.threads[t].last == s.threads[t].last
  {
    var s := Run(s0, before);
    ReachableInv(s0, before);
    LastStaysRun(s, after, t);
  }

  lemma LastStays(s: State, a: Action, t: nat)
    requires Inv(s) && t < |s.threads| && s.threads[t].last.Got?
    ensures |Step(s, a).threads| == |s.threads| && Step(s, a).threads[t].last == s.threads[t].last
  {
    hide Step, TablesInv, CountInv;
    StepKeeps(s, a);
    var u := StepEffect(s, a);
  }

  lemma {:induction false} LastStaysRun(s: State, schedule: seq<Action>, t: nat)
    requires Inv(s) && t < |s.threads| && s.threads[t].last.Got?
    ensures |Run(s, schedule).threads| == |s.threads| && Run(s, schedule).threads[t].last == s.threads[t].last
    decreases |schedule|
  {
    hide Inv, Step;
    if schedule != [] {
      LastStays(s, schedule[0], t);
      StepKeeps(s, schedule[0]);
      LastStaysRun(Step(s, schedule[0]), schedule[1..], t);
    }
  }

  /** Two threads never share a producer. */
  lemma NeverShared(s0: State, schedule: seq<Action>, t: nat, u: nat)
    requires Init(s0) && t < |Run(s0, schedule).threads| && u < |Run(s0, schedule).threads| && t != u
    requires Run(s0, schedule).threads[t].last.Got? && Run(s0, schedule).threads[u].last.Got?
    ensures Run(s0, schedule).threads[t].last != Run(s0, schedule).threads[u].last
  {
    ReachableInv(s0, schedule);
  }

  /** A call that obtains a producer leaves its key in the table that was the current one when it began to look,
      in which its next call looks first if it is still the current one. */
  lemma KeyIsCopied(s0: State, schedule: seq<Action>, t: nat, ok: bool)
    requires Init(s0) && t < |Run(s0, schedule).threads| && Run(s0, schedule).threads[t].pc != Idle
    requires var s' := Step(Run(s0, schedule), Go(t, ok));
      t < |s'.threads| && s'.threads[t].pc == Idle && s'.threads[t].last.Got?
    ensures var s, s' := Run(s0, schedule), Step(Run(s0, schedule), Go(t, ok));
      var pc := s.threads[t].pc;
      (pc.Search? || pc.PutValue?) && pc.main < |s'.tables| && Present(s'.tables[pc.main], t)
  {
    var s := Run(s0, schedule);
    ReachableInv(s0, schedule);
    AdvanceKeeps(s, t, ok);
    Threads(s);
    hide Inv, SearchStep, PutStep, CountStep, PcOk, Present, Init;
    if Writes(s.threads[t].pc) { WritingReturns(s, t); }
    else if s.threads[t].pc.Search? { SearchReturns(s, t); }
    else if !s.threads[t].pc.LoadMain? { RefusalCounts(s, t, ok); }
  }

  lemma SearchReturns(s: State, t: nat)
    requires t < |s.threads| == |s.hash| && s.threads[t].pc.Search? && PcOk(s, s.threads[t].pc)
    requires SearchStep(s, t).threads[t].pc == Idle
    ensures var pc := s.threads[t].pc;
      pc.main < |s.tables| && SearchStep(s, t).tables == s.tables && Present(s.tables[pc.main], t)
  {
    var pc := s.threads[t].pc;
    assert s.tables[pc.main][Index(s.hash[t], pc.i, |s.tables[pc.main]|)].key == t;
  }

  lemma WritingReturns(s: State, t: nat)
    requires Inv(s) && t < |s.threads| == |s.hash| && Writes(s.threads[t].pc) && PcOk(s, s.threads[t].pc)
    requires PutStep(s, t).threads[t].pc == Idle
    ensures var pc, s' := s.threads[t].pc, PutStep(s, t);
      pc.PutValue? && pc.main < |s'.tables| && Present(s'.tables[pc.main], t)
  {
    var pc := s.threads[t].pc;
    KeyIsWritten(s, t);
    assert PutStep(s, t).tables[pc.main][Index(s.hash[t], pc.i, |s.tables[pc.main]|)].key == t;
    hide Inv;
  }

  lemma KeyIsWritten(s: State, t: nat)
    requires Inv(s) && t < |s.threads| == |s.hash| && s.threads[t].pc.PutValue? && PcOk(s, s.threads[t].pc)
    ensures var pc := s.threads[t].pc;
      s.tables[pc.main][Index(s.hash[t], pc.i, |s.tables[pc.main]|)].key == t
  {
    hide TablesInv, CountInv;
  }

  /** Only one thread at a time is between taking and dropping the resize lock; it adds a table only when its count
      is at least half the current one's capacity; the new table is at least twice as large as the current one,
      large enough for its count, and becomes the current one. */
  lemma OneGrower(s0: State, schedule: seq<Action>, t: nat, u: nat)
    requires Init(s0) && t < |Run(s0, schedule).threads| && Run(s0, schedule).threads[t].pc.Allocate?
    requires u < |Run(s0, schedule).threads| && u != t
    ensures var s := Run(s0, schedule);
      var s' := Step(s, Go(t, true));
      && !HasLock(s.threads[u].pc) && s.tables != [] && s.threads[t].pc.main == Main(s)
      && |s'.tables| == |s.tables| + 1 && |s'.tables[Main(s')]| >= 2 * |s.tables[Main(s)]|
      && Half(|s.tables[Main(s)]|) <= s.threads[t].tick < Half(|s'.tables[Main(s')]|)
  {
    var s := Run(s0, schedule);
    ReachableInv(s0, schedule);
    OnlyLock(s, t, u);
  }

  // ---------------------------------------------------------------- when a call succeeds

  /** The call has been refused memory and is on its way out. */
  predicate Failing(pc: Pc) { pc.FailCount? || pc.FailUnlock? || pc.DropCount? }

  /** An allocation of thread t is refused. */
  predicate Refused(s: State, a: Action, t: nat) {
    a == Go(t, false) && t < |s.threads| && (s.threads[t].pc.Allocate? || s.threads[t].pc.Create?)
  }

  /** Thread t is in one and the same call all along. */
  predicate Within(s: State, schedule: seq<Action>, t: nat)
    decreases |schedule|
  {
    && t < |s.threads| && s.threads[t].pc != Idle
    && (schedule == [] || Within(Step(s, schedule[0]), schedule[1..], t))
  }

  predicate RefusedIn(s: State, schedule: seq<Action>, t: nat)
    decreases |schedule|
  {
    schedule != [] && (Refused(s, schedule[0], t) || RefusedIn(Step(s, schedule[0]), schedule[1..], t))
  }

  lemma RefusalCounts(s: State, t: nat, ok: bool)
    requires t < |s.threads| == |s.hash| && PcOk(s, s.threads[t].pc)
    requires !s.threads[t].pc.Idle? && !s.threads[t].pc.Search? && !Writes(s.threads[t].pc)
    ensures var pc, pc' := s.threads[t].pc, CountStep(s, t, ok).threads[t].pc;
      pc' != Idle ==> (Failing(pc') <==> Failing(pc) || (!ok && (pc.Allocate? || pc.Create?)))
    ensures var th' := CountStep(s, t, ok).threads[t];
      th'.pc == Idle ==> Failing(s.threads[t].pc) && th'.last == Failed
  {}

  lemma SearchEnds(s: State, t: nat)
    requires t < |s.threads| == |s.hash| && s.threads[t].pc.Search? && PcOk(s, s.threads[t].pc)
    ensures var th' := SearchStep(s, t).threads[t]; !Failing(th'.pc) && (th'.pc == Idle ==> th'.last.Got?)
  {}

  lemma WritingEnds(s: State, t: nat)
    requires t < |s.threads| == |s.hash| && Writes(s.threads[t].pc) && PcOk(s, s.threads[t].pc)
    ensures var th' := PutStep(s, t).threads[t]; !Failing(th'.pc) && (th'.pc == Idle ==> th'.last.Got?)
  {}

  lemma OthersStay(s: State, a: Action, t: nat)
    requires t < |s.threads| && s.threads[t].pc != Idle && (a.Get? || a.t != t)
    ensures |Step(s, a).threads| == |s.threads| && Step(s, a).threads[t] == s.threads[t]
  {
    if a.t != t {
      var u := StepEffect(s, a);
      hide Step;
      if a.t >= |s.threads| { NobodyThere(s, a); }
    }
  }

  lemma NobodyThere(s: State, a: Action)
    requires a.t >= |s.threads|
    ensures Step(s, a) == s
  {}

  /** A step fails a call exactly by a refusal, and a call returns a producer exactly if it has not failed. */
  lemma RefusalStep(s: State, a: Action, t: nat)
    requires Inv(s) && t < |s.threads| && s.threads[t].pc != Idle
    ensures var th, s' := s.threads[t], Step(s, a);
      && |s'.threads| == |s.threads|
      && (s'.threads[t].pc != Idle ==> (Failing(s'.threads[t].pc) <==> Failing(th.pc) || Refused(s, a, t)))
      && (s'.threads[t].pc == Idle ==>
            if Failing(th.pc) then s'.threads[t].last == Failed else s'.threads[t].last.Got?)
  {
    var u := StepEffect(s, a);
    Threads(s);
    if a.Go? && a.t == t {
      AdvanceKeeps(s, t, a.ok);
      hide Inv, SearchStep, PutStep, CountStep, PcOk;
      var pc := s.threads[t].pc;
      if pc.Search? { SearchEnds(s, t); }
      else if Writes(pc) { WritingEnds(s, t); }
      else if !pc.LoadMain? { RefusalCounts(s, t, a.ok); }
    } else {
      OthersStay(s, a, t);
      hide Inv, Step;
    }
  }

  lemma {:induction false} RefusalRun(s: State, schedule: seq<Action>, t: nat)
    requires Inv(s) && Within(s, schedule, t)
    ensures var s' := Run(s, schedule);
      && Inv(s') && t < |s'.threads| && s'.threads[t].pc != Idle
      && (Failing(s'.threads[t].pc) <==> Failing(s.threads[t].pc) || RefusedIn(s, schedule, t))
    decreases |schedule|
  {
    hide Inv, Step, Refused;
    if schedule != [] {
      StepKeeps(s, schedule[0]);
      RefusalStep(s, schedule[0], t);
      RefusalRun(Step(s, schedule[0]), schedule[1..], t);
    }
  }

  /** A call comes back without a producer if and only if one of its own allocations was refused, in every run. */
  lemma FailsWhenRefused(s0: State, before: seq<Action>, during: seq<Action>, last: Action, t: nat)
    requires Init(s0) && t < |Run(s0, before).threads| && Run(s0, before).threads[t].pc == Idle
    requires var s1 := Step(Run(s0, before), Get(t)); Within(s1, during, t)
    requires var s2 := Run(Step(Run(s0, before), Get(t)), during);
      t < |Step(s2, last).threads| && Step(s2, last).threads[t].pc == Idle
    ensures var s1 := Step(Run(s0, before), Get(t));
      var result := Step(Run(s1, during), last).threads[t].last;
      if RefusedIn(s1, during, t) then result == Failed else result.Got?
  {
    hide Inv, Init, Within, RefusedIn;
    var s := Run(s0, before);
    ReachableInv(s0, before);
    StepKeeps(s, Get(t));
    RefusalRun(Step(s, Get(t)), during, t);
    RefusalStep(Run(Step(s, Get(t)), during), last, t);
  }

  // ---- a call that runs alone

  /** The slots of the first n tables. */
  function Slots(tables: seq<seq<Slot>>, n: nat): nat
    requires n <= |tables|
  {
    if n == 0 then 0 else Slots(tables, n - 1) + |tables[n - 1]|
  }

  /** Steps from the loop test on, if the lock is free. */
  function DecideSteps(s: State, n: nat): nat
    requires s.tables != [] && s.tables[Main(s)] != []
  {
    2 * Grown(2 * |s.tables[Main(s)]|, n) + 7
  }

  function RoomSteps(s: State, main: nat, n: nat): nat
    requires s.tables != [] && s.tables[Main(s)] != [] && main < |s.tables|
  {
    if n < Limit(|s.tables[main]|) then 2 * |s.tables[main]| + 3 else DecideSteps(s, n) + 2
  }

  function CountSteps(s: State): nat
    requires s.tables != [] && s.tables[Main(s)] != []
  {
    DecideSteps(s, if s.count >= 0 then s.count + 1 else 0) + 1
  }

  /** A bound on the steps that a call still takes when nobody else moves. */
  function StepsLeft(s: State, pc: Pc): int
    requires PcOk(s, pc) && s.tables[Main(s)] != []
  {
    match pc
    case LoadMain => Slots(s.tables, |s.tables|) + 2 + CountSteps(s)
    case Search(_, x, i) => Slots(s.tables, x + 1) - i + 1 + CountSteps(s)
    case Put(main, i, _, _) => 2 * (|s.tables[main]| - i) + 1
    case PutCas(main, i, _, _) => 2 * (|s.tables[main]| - i)
    case PutValue(_, _, _, _) => 1
    case Count(_) => CountSteps(s)
    case Decide(_, n) => DecideSteps(s, n)
    case ResizeLoad(n) => DecideSteps(s, n) - 1
    case Allocate(_, n) => DecideSteps(s, n) - 2
    case Unlock(main, n) => RoomSteps(s, main, n) + 1
    case Room(main, n) => RoomSteps(s, main, n)
    case Create(main) => 2 * |s.tables[main]| + 2
    case Reload(n) => DecideSteps(s, n) + 1
    case _ => 0
  }

  /** The call needs no larger table: its count leaves room in the table it works with. */
  predicate Roomy(s: State, pc: Pc) {
    var n := if s.count >= 0 then s.count + 1 else 0;
    match pc
    case LoadMain => s.tables != [] && n < Limit(|s.tables[Main(s)]|)
    case Search(main, _, _) => main < |s.tables| && n < Limit(|s.tables[main]|)
    case Count(main) => main < |s.tables| && n < Limit(|s.tables[main]|)
    case Decide(main, tick) => main < |s.tables| && tick < Limit(|s.tables[main]|)
    case Room(main, tick) => main < |s.tables| && tick < Limit(|s.tables[main]|)
    case Reload(tick) => s.tables != [] && tick < Limit(|s.tables[Main(s)]|)
    case _ => pc.Create? || Writes(pc)
  }

  /** Thread t is in a call that has not been refused anything; and nobody else has the lock, or it needs none. */
  ghost predicate CanGo(s: State, t: nat) {
    && t < |s.threads| && s.threads[t].pc != Idle && !Failing(s.threads[t].pc)
    && (s.locked ==> HasLock(s.threads[t].pc) || Roomy(s, s.threads[t].pc))
  }

  /** The step brings the call to its end, or closer to it. */
  ghost predicate Nearer(s: State, s': State, t: nat)
    requires t < |s.threads| && PcOk(s, s.threads[t].pc) && s.tables[Main(s)] != []
  {
    && t < |s'.threads|
    && if s'.threads[t].pc == Idle then s'.threads[t].last.Got? && StepsLeft(s, s.threads[t].pc) >= 1
       else
         && CanGo(s', t) && PcOk(s', s'.threads[t].pc) && s'.tables[Main(s')] != []
         && StepsLeft(s', s'.threads[t].pc) < StepsLeft(s, s.threads[t].pc)
  }

  lemma MainIsLargest(s: State, x: nat)
    requires TablesInv(s) && x < |s.tables|
    ensures 0 < |s.tables[x]| <= |s.tables[Main(s)]|
  {}

  lemma SearchNearer(s: State, t: nat)
    requires TablesInv(s) && CountInv(s) && CanGo(s, t) && s.threads[t].pc.Search? && PcOk(s, s.threads[t].pc)
    requires ThreadInv(s.hash, s.tables, s.owners, s.threads[t], t)
    ensures s.tables[Main(s)] != [] && Nearer(s, SearchStep(s, t), t)
  {
    var pc := s.threads[t].pc;
    MainIsLargest(s, pc.main);
    if pc.x > 0 { MainIsLargest(s, pc.x - 1); }
    SearchBelow(s, t);
    KeyHasValue(s, t, pc.x, Index(s.hash[t], pc.i, |s.tables[pc.x]|));
    ProbeNearer(s, t);
  }

  lemma FoundNearer(s: State, t: nat)
    requires CanGo(s, t) && |s.threads| == |s.hash| && s.threads[t].pc.Search? && PcOk(s, s.threads[t].pc)
    requires var pc := s.threads[t].pc;
      && pc.i < |s.tables[pc.x]| && 0 < |s.tables[pc.main]| <= |s.tables[Main(s)]|
      && (pc.x > 0 ==> s.tables[pc.x - 1] != [])
      && var slot := s.tables[pc.x][Index(s.hash[t], pc.i, |s.tables[pc.x]|)];
      slot.key == t && slot.value.Some?
    ensures Nearer(s, SearchStep(s, t), t)
  {
    CountIsMore(s, s.threads[t].pc.main);
    hide Index, Grown, DecideSteps;
  }

  lemma PassedNearer(s: State, t: nat)
    requires CanGo(s, t) && |s.threads| == |s.hash| && s.threads[t].pc.Search? && PcOk(s, s.threads[t].pc)
    requires var pc := s.threads[t].pc;
      && pc.i < |s.tables[pc.x]| && 0 < |s.tables[pc.main]| <= |s.tables[Main(s)]|
      && (pc.x > 0 ==> s.tables[pc.x - 1] != [])
      && var slot := s.tables[pc.x][Index(s.hash[t], pc.i, |s.tables[pc.x]|)];
      slot.key != t
    ensures Nearer(s, SearchStep(s, t), t)
  {
    hide Index, Grown;
  }

  lemma ProbeNearer(s: State, t: nat)
    requires CanGo(s, t) && |s.threads| == |s.hash| && s.threads[t].pc.Search? && PcOk(s, s.threads[t].pc)
    requires var pc := s.threads[t].pc;
      && pc.i < |s.tables[pc.x]| && 0 < |s.tables[pc.main]| <= |s.tables[Main(s)]|
      && (pc.x > 0 ==> s.tables[pc.x - 1] != [])
      && var slot := s.tables[pc.x][Index(s.hash[t], pc.i, |s.tables[pc.x]|)];
      slot.key == t ==> slot.value.Some?
    ensures Nearer(s, SearchStep(s, t), t)
  {
    hide Nearer, SearchStep, StepsLeft, Roomy;
    var pc := s.threads[t].pc;
    if s.tables[pc.x][Index(s.hash[t], pc.i, |s.tables[pc.x]|)].key == t {
      FoundNearer(s, t);
    } else {
      PassedNearer(s, t);
    }
  }

  /** There is more to do for a new key than to write it. */
  lemma CountIsMore(s: State, main: nat)
    requires s.tables != [] && s.tables[Main(s)] != [] && main < |s.tables| && |s.tables[main]| <= |s.tables[Main(s)]|
    ensures CountSteps(s) > 2 * |s.tables[main]| + 1
  {}

  lemma SearchBelow(s: State, t: nat)
    requires t < |s.threads| && s.threads[t].pc.Search? && ThreadInv(s.hash, s.tables, s.owners, s.threads[t], t)
    ensures var pc := s.threads[t].pc; pc.x < |s.tables| && pc.i < |s.tables[pc.x]|
  {}

  lemma WritingBelow(s: State, t: nat)
    requires t < |s.threads| && Writes(s.threads[t].pc) && ThreadInv(s.hash, s.tables, s.owners, s.threads[t], t)
    ensures var pc := s.threads[t].pc; pc.main < |s.tables| && pc.i < |s.tables[pc.main]|
  {}

  lemma WritingNearer(s: State, t: nat)
    requires TablesInv(s) && CanGo(s, t) && Writes(s.threads[t].pc) && PcOk(s, s.threads[t].pc)
    requires ThreadInv(s.hash, s.tables, s.owners, s.threads[t], t)
    ensures s.tables[Main(s)] != [] && Nearer(s, PutStep(s, t), t)
  {
    MainIsLargest(s, Main(s));
    WritingBelow(s, t);
    Threads(s);
    hide TablesInv, ThreadInv;
    PutNearer(s, t);
  }

  lemma PutNearer(s: State, t: nat)
    requires CanGo(s, t) && |s.threads| == |s.hash| && Writes(s.threads[t].pc) && PcOk(s, s.threads[t].pc)
    requires s.threads[t].pc.i < |s.tables[s.threads[t].pc.main]| && s.tables[Main(s)] != []
    ensures Nearer(s, PutStep(s, t), t)
  {
    hide CountSteps, DecideSteps, RoomSteps, Slots;
  }

  lemma CountedNearer(s: State, t: nat)
    requires CanGo(s, t) && |s.threads| == |s.hash| && PcOk(s, s.threads[t].pc) && s.tables[Main(s)] != []
    requires forall x :: 0 <= x < |s.tables| ==> 0 < |s.tables[x]| <= |s.tables[Main(s)]|
    requires s.threads[t].pc.Count?
    ensures Nearer(s, CountStep(s, t, true), t)
  {
    hide Grown;
  }

  lemma DecideNearer(s: State, t: nat)
    requires CanGo(s, t) && |s.threads| == |s.hash| && PcOk(s, s.threads[t].pc) && s.tables[Main(s)] != []
    requires forall x :: 0 <= x < |s.tables| ==> 0 < |s.tables[x]| <= |s.tables[Main(s)]|
    requires s.threads[t].pc.Decide?
    ensures Nearer(s, CountStep(s, t, true), t)
  {
    hide Slots, CountSteps;
  }

  lemma RoomNearer(s: State, t: nat)
    requires CanGo(s, t) && |s.threads| == |s.hash| && PcOk(s, s.threads[t].pc) && s.tables[Main(s)] != []
    requires forall x :: 0 <= x < |s.tables| ==> 0 < |s.tables[x]| <= |s.tables[Main(s)]|
    requires s.threads[t].pc.Room? || s.threads[t].pc.Reload? || s.threads[t].pc.Unlock?
    ensures Nearer(s, CountStep(s, t, true), t)
  {
    hide Slots, CountSteps, Grown;
  }

  lemma CreateNearer(s: State, t: nat)
    requires CanGo(s, t) && |s.threads| == |s.hash| && PcOk(s, s.threads[t].pc) && s.tables[Main(s)] != []
    requires forall x :: 0 <= x < |s.tables| ==> 0 < |s.tables[x]| <= |s.tables[Main(s)]|
    requires s.threads[t].pc.Create?
    ensures Nearer(s, CountStep(s, t, true), t)
  {
    hide Slots, CountSteps, DecideSteps;
  }

  lemma ResizeNearer(s: State, t: nat)
    requires CanGo(s, t) && |s.threads| == |s.hash| && PcOk(s, s.threads[t].pc) && s.tables[Main(s)] != []
    requires s.threads[t].pc.ResizeLoad?
    ensures Nearer(s, CountStep(s, t, true), t)
  {
    GrownTwice(2 * |s.tables[Main(s)]|, s.threads[t].pc.n);
    hide Slots, CountSteps, Grown;
  }

  lemma AllocateNearer(s: State, t: nat)
    requires CanGo(s, t) && |s.threads| == |s.hash| && PcOk(s, s.threads[t].pc) && s.tables[Main(s)] != []
    requires s.threads[t].pc.Allocate? && s.threads[t].pc.main == Main(s)
    ensures Nearer(s, CountStep(s, t, true), t)
  {
    GrownTwice(2 * |s.tables[Main(s)]|, s.threads[t].pc.n);
    hide Slots, CountSteps, Grown;
  }

  lemma GrownTwice(c: nat, n: nat)
    requires c > 0
    ensures c <= Grown(c, n) && n < Limit(Grown(c, n))
  {}

  lemma LoadNearer(s: State, t: nat)
    requires TablesInv(s) && CanGo(s, t) && s.threads[t].pc.LoadMain?
    ensures s.tables[Main(s)] != [] && Nearer(s, Goto(s, t, Search(Main(s), Main(s), 0)), t)
  {
    MainIsLargest(s, Main(s));
    hide TablesInv, CountSteps;
  }

  lemma AloneStep(s: State, t: nat)
    requires Inv(s) && CanGo(s, t)
    ensures PcOk(s, s.threads[t].pc) && s.tables[Main(s)] != [] && Nearer(s, Step(s, Go(t, true)), t)
  {
    AdvanceKeeps(s, t, true);
    Threads(s);
    var pc := s.threads[t].pc;
    forall x | 0 <= x < |s.tables| ensures 0 < |s.tables[x]| <= |s.tables[Main(s)]| { MainIsLargest(s, x); }
    hide TablesInv, CountInv, ThreadInv, SearchStep, PutStep, CountStep, Nearer, CanGo, PcOk, StepsLeft;
    InCall(s, t);
    if pc.LoadMain? { LoadNearer(s, t); }
    else if pc.Search? { SearchNearer(s, t); }
    else if Writes(pc) { WritingNearer(s, t); }
    else if pc.ResizeLoad? { ResizeNearer(s, t); }
    else if pc.Allocate? { AllocatesLast(s, t); AllocateNearer(s, t); }
    else if pc.Count? { CountedNearer(s, t); }
    else if pc.Decide? { DecideNearer(s, t); }
    else if pc.Create? { CreateNearer(s, t); }
    else { RoomNearer(s, t); }
  }

  lemma AllocatesLast(s: State, t: nat)
    requires Inv(s) && t < |s.threads| && s.tables != []
    ensures s.threads[t].pc.Allocate? ==> s.threads[t].pc.main == Main(s)
  {
    hide TablesInv, CountInv;
  }

  lemma InCall(s: State, t: nat)
    requires CanGo(s, t)
    ensures t < |s.threads| && !s.threads[t].pc.Idle? && !Failing(s.threads[t].pc)
  {}

  /** Thread t takes n steps in a row, with memory available. */
  function Solo(s: State, t: nat, n: nat): State
    decreases n
  {
    if n == 0 then s else Solo(Step(s, Go(t, true)), t, n - 1)
  }

  lemma {:induction false} AloneRun(s: State, t: nat, n: nat)
    requires Inv(s) && CanGo(s, t) && PcOk(s, s.threads[t].pc) && s.tables[Main(s)] != []
    requires n >= StepsLeft(s, s.threads[t].pc)
    ensures var s' := Solo(s, t, n); t < |s'.threads| && s'.threads[t].pc == Idle && s'.threads[t].last.Got?
    decreases n
  {
    hide Inv, Step, StepsLeft, PcOk, CanGo;
    AloneStep(s, t);
    InCall(s, t);
    var s' := Step(s, Go(t, true));
    AloneSteps(s, t);
    StepKeeps(s, Go(t, true));
    if s'.threads[t].pc == Idle { StaysIdle(s', t, n - 1); } else { AloneRun(s', t, n - 1); }
  }

  lemma AloneSteps(s: State, t: nat)
    requires Inv(s) && CanGo(s, t) && PcOk(s, s.threads[t].pc) && s.tables[Main(s)] != []
    ensures StepsLeft(s, s.threads[t].pc) >= 1
  {
    AloneStep(s, t);
    var s' := Step(s, Go(t, true));
    hide Step, Inv;
    if t < |s'.threads| && s'.threads[t].pc != Idle { StepKeeps(s, Go(t, true)); StepsCount(s', t); }
  }

  lemma StepsCount(s: State, t: nat)
    requires Inv(s) && t < |s.threads| && PcOk(s, s.threads[t].pc) && s.tables[Main(s)] != []
    ensures StepsLeft(s, s.threads[t].pc) >= 0
  {
    var pc := s.threads[t].pc;
    if pc.Search? { SearchBelow(s, t); }
    if Writes(pc) { WritingBelow(s, t); }
    hide Inv, Grown, CountSteps, DecideSteps;
  }

  lemma {:induction false} StaysIdle(s: State, t: nat, n: nat)
    requires t < |s.threads| && s.threads[t].pc == Idle
    ensures Solo(s, t, n) == s
  {
    if n > 0 {
      assert Step(s, Go(t, true)) == s;
      StaysIdle(s, t, n - 1);
    }
  }

  /** A call that has not been refused memory and runs alone comes back with a producer, within a number of steps that
      the tables' sizes bound: from any reachable state in which nobody else has the resize lock, and also while
      somebody is growing the map, if the table at hand is less than three quarters full with its count. */
  lemma AloneItGets(s0: State, schedule: seq<Action>, t: nat, n: nat)
    requires Init(s0) && CanGo(Run(s0, schedule), t)
    ensures var s := Run(s0, schedule);
      && PcOk(s, s.threads[t].pc) && s.tables[Main(s)] != []
      && (n >= StepsLeft(s, s.threads[t].pc) ==>
            var s' := Solo(s, t, n); t < |s'.threads| && s'.threads[t].pc == Idle && s'.threads[t].last.Got?)
  {
    hide Inv, Init, StepsLeft, PcOk, CanGo;
    var s := Run(s0, schedule);
    ReachableInv(s0, schedule);
    AloneStep(s, t);
    if n >= StepsLeft(s, s.threads[t].pc) { AloneRun(s, t, n); }
  }
}
