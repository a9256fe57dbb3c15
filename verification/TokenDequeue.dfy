/** Dequeuing from all producers: the walk around the producer list, with and without a consumer token.

    Producers are numbered in the order of their creation.  The list starts from the newest, each producer
    linking to the one created before it, so a token's place stays valid when producers are added.  One
    thread runs at a time; the sub-queue operations do what module ExplicitProducer proves of them. */
module TokenDequeue {
  import opened Arith
  import opened Sums
  import opened Wrappers
  import opened Bags

  /** Offsets and consumption counters are 32 bits wide. */
  const WORD: int := 0x1_0000_0000

  /** Items taken from one producer before everyone rotates (the default trait). */
  const QUOTA: int := 256

  /** The producer j links after p; the oldest is followed by the newest. */
  function Along(p: nat, j: nat, n: nat): (q: nat)
    requires p < n && j <= n
    ensures q < n
  {
    if j <= p then p - j else p - j + n
  }

  function Next(p: nat, n: nat): nat
    requires p < n
  {
    if p > 0 then p - 1 else n - 1
  }

  /** Links from p to q. */
  function Gap(p: nat, q: nat, n: nat): nat
    requires p < n && q < n
  {
    if p >= q then p - q else p - q + n
  }

  lemma GapCloses(p: nat, q: nat, n: nat)
    requires p < n && q < n && p != q
    ensures Gap(Next(p, n), q, n) < Gap(p, q, n)
  {}

  function SizeW<T>(): seq<T> -> nat { (s: seq<T>) => |s| }

  /** All elements in the queue. */
  function Elements<T>(subs: seq<seq<T>>): nat { Total(subs, SizeW()) }

  /** What a walk from producer p over j producers takes, up to max elements. */
  function Walked<T>(subs: seq<seq<T>>, p: nat, j: nat, max: nat): (out: seq<T>)
    requires p < |subs| && j <= |subs|
    ensures |out| <= max
  {
    if j == 0 then []
    else
      var before := Walked(subs, p, j - 1, max);
      var sub := subs[Along(p, j - 1, |subs|)];
      before + sub[..Min(|sub|, max - |before|)]
  }

  /** What the walk leaves of the producer it comes to after j links. */
  function Left<T>(subs: seq<seq<T>>, p: nat, j: nat, max: nat): seq<T>
    requires p < |subs| && j < |subs|
  {
    var sub := subs[Along(p, j, |subs|)];
    sub[Min(|sub|, max - |Walked(subs, p, j, max)|)..]
  }

  ghost predicate LeftOf<T>(subs: seq<seq<T>>, subs': seq<seq<T>>, p: nat, max: nat)
    requires p < |subs|
  {
    |subs'| == |subs| &&
    forall j {:trigger Along(p, j, |subs|)} :: 0 <= j < |subs| ==> subs'[Along(p, j, |subs|)] == Left(subs, p, j, max)
  }

  /** After a walk from producer c, the token stands at p, the last producer it has taken items from, or c: what its
      counter of items says was taken from p, on top of `base` if p is c; nothing was taken beyond p. */
  ghost predicate Stands<T>(was: seq<seq<T>>, now: seq<seq<T>>, c: nat, p: nat, items: int, base: int) {
    var n := |was|;
    && c < n == |now| && p < n
    && items == ((if p == c then base else 0) + |was[p]| - |now[p]|) % WORD && (p != c ==> |now[p]| < |was[p]|)
    && forall j {:trigger Along(c, j, n)} :: Gap(c, p, n) < j < n ==> now[Along(c, j, n)] == was[Along(c, j, n)]
  }

  lemma GapAlong(c: nat, j: nat, n: nat)
    requires c < n && j < n
    ensures Gap(c, Along(c, j, n), n) == j && (Along(c, j, n) == c <==> j == 0)
  {}

  /** The walk has taken k items from the producer at link v. */
  lemma StandsMoved<T>(was: seq<seq<T>>, before: seq<seq<T>>, now: seq<seq<T>>, c: nat, p: nat, v: nat, items: int,
                       base: int, k: nat)
    requires Stands(was, before, c, p, items, base) && Gap(c, p, |was|) < v < |was|
    requires var q := Along(c, v, |was|); 0 < k <= |before[q]| && now == before[q := before[q][k..]]
    ensures Stands(was, now, c, Along(c, v, |was|), k % WORD, base)
  {
    var n := |was|;
    GapAlong(c, v, n);
    forall j {:trigger Along(c, j, n)} | v < j < n ensures now[Along(c, j, n)] == was[Along(c, j, n)] {
      GapAlong(c, j, n);
    }
  }

  lemma StandsFirst<T>(was: seq<seq<T>>, now: seq<seq<T>>, c: nat, k: nat, base: int)
    requires c < |was| && k <= |was[c]| && now == was[c := was[c][k..]]
    ensures Stands(was, now, c, c, (base + k) % WORD, base)
  {
    var n := |was|;
    forall j {:trigger Along(c, j, n)} | 0 < j < n ensures now[Along(c, j, n)] == was[Along(c, j, n)] {
      GapAlong(c, j, n);
    }
  }

  // ---------------------------------------------------------------- the walk visits everyone

  lemma AlongNext(p: nat, j: nat, n: nat)
    requires p < n && j < n
    ensures 0 <= Along(p, j, n) < n && Next(Along(p, j, n), n) == Along(p, j + 1, n) && Along(p, n, n) == p
  {}

  lemma AlongCovers(p: nat, q: nat, n: nat) returns (j: nat)
    requires p < n && q < n
    ensures j < n && Along(p, j, n) == q
  {
    j := if q <= p then p - q else p - q + n;
  }

  function Ring<T>(subs: seq<seq<T>>, p: nat, j: nat): nat
    requires p < |subs| && j <= |subs|
  {
    if j == 0 then 0 else Ring(subs, p, j - 1) + |subs[Along(p, j - 1, |subs|)]|
  }

  lemma {:induction false} TotalSplit<T>(s: seq<T>, w: T -> nat, k: nat)
    requires k <= |s|
    ensures Total(s, w) == Total(s[..k], w) + Total(s[k..], w)
  {
    if k != 0 {
      TotalSplit(s[1..], w, k - 1);
      assert s[..k][1..] == s[1..][..k - 1] && s[1..][k - 1..] == s[k..];
    }
  }

  /** Down to the oldest producer, then from the newest down: first the producers up to p, then the rest. */
  lemma {:induction false} RingIs<T>(subs: seq<seq<T>>, p: nat, j: nat)
    requires p < |subs| && j <= |subs|
    ensures Ring(subs, p, j) == if j <= p + 1 then Total(subs[p + 1 - j..p + 1], SizeW())
                                else Total(subs[..p + 1], SizeW()) + Total(subs[p + 1 - j + |subs|..], SizeW())
  {
    if j > 0 {
      RingIs(subs, p, j - 1);
    }
  }

  lemma RingIsAll<T>(subs: seq<seq<T>>, p: nat)
    requires p < |subs|
    ensures Ring(subs, p, |subs|) == Elements(subs)
  {
    RingIs(subs, p, |subs|);
    TotalSplit(subs, SizeW(), p + 1);
    if p + 1 == |subs| { assert subs[0..p + 1] == subs[..p + 1] && subs[p + 1..] == []; }
  }

  lemma {:induction false} WalkedSize<T>(subs: seq<seq<T>>, p: nat, j: nat, max: nat)
    requires p < |subs| && j <= |subs|
    ensures |Walked(subs, p, j, max)| == Min(max, Ring(subs, p, j))
  {
    if j > 0 { WalkedSize(subs, p, j - 1, max); }
  }

  /** A full walk finds min(max, total) elements, wherever it starts. */
  lemma WalkFindsAll<T>(subs: seq<seq<T>>, p: nat, max: nat)
    requires p < |subs|
    ensures |Walked(subs, p, |subs|, max)| == Min(max, Elements(subs))
  {
    WalkedSize(subs, p, |subs|, max);
    RingIsAll(subs, p);
  }

  /** Once it has enough, a walk takes nothing more. */
  lemma {:induction false} WalkedEnough<T>(subs: seq<seq<T>>, p: nat, j: nat, k: nat, max: nat)
    requires p < |subs| && j <= k <= |subs| && |Walked(subs, p, j, max)| == max
    ensures Walked(subs, p, k, max) == Walked(subs, p, j, max)
  {
    if k > j { WalkedEnough(subs, p, j, k - 1, max); }
  }

  /** What is walked past and what is left make up each sub-queue. */
  lemma {:induction false} WalkedKeepsOrder<T>(subs: seq<seq<T>>, p: nat, j: nat, max: nat)
    requires p < |subs| && j < |subs|
    ensures Walked(subs, p, j + 1, max) + Left(subs, p, j, max) == Walked(subs, p, j, max) + subs[Along(p, j, |subs|)]
  {}

  lemma AlongDiffer(p: nat, j: nat, n: nat)
    requires p < n && j < n
    ensures forall k {:trigger Along(p, k, n)} :: 0 <= k < n && k != j ==> Along(p, k, n) != Along(p, j, n)
  {}

  /** The sub-queues when the walk from p has taken what it wants from the first j. */
  function Taken<T>(subs: seq<seq<T>>, p: nat, j: nat, max: nat): (now: seq<seq<T>>)
    requires p < |subs| && j <= |subs|
    ensures |now| == |subs|
  {
    if j == 0 then subs else Taken(subs, p, j - 1, max)[Along(p, j - 1, |subs|) := Left(subs, p, j - 1, max)]
  }

  lemma {:induction false} TakenAt<T>(subs: seq<seq<T>>, p: nat, j: nat, k: nat, max: nat)
    requires p < |subs| && j <= |subs| && k < |subs|
    ensures Taken(subs, p, j, max)[Along(p, k, |subs|)]
         == if k < j then Left(subs, p, k, max) else subs[Along(p, k, |subs|)]
  {
    if j > 0 {
      TakenAt(subs, p, j - 1, k, max);
      AlongDiffer(p, j - 1, |subs|);
    }
  }

  lemma {:induction false} TakenConserves<T>(subs: seq<seq<T>>, p: nat, j: nat, max: nat)
    requires p < |subs| && j <= |subs|
    ensures multiset(Walked(subs, p, j, max)) + Bag(Taken(subs, p, j, max)) == Bag(subs)
  {
    hide Bag, Walked, Taken;
    if j > 0 {
      TakenConserves(subs, p, j - 1, max);
      TakenOneMore(subs, p, j - 1, max);
    } else {
      TakenNone(subs, p, max);
    }
  }

  lemma TakenNone<T>(subs: seq<seq<T>>, p: nat, max: nat)
    requires p < |subs|
    ensures Walked(subs, p, 0, max) == [] && Taken(subs, p, 0, max) == subs
  {}

  lemma TakenOneMore<T>(subs: seq<seq<T>>, p: nat, j: nat, max: nat)
    requires p < |subs| && j < |subs|
    ensures multiset(Walked(subs, p, j + 1, max)) + Bag(Taken(subs, p, j + 1, max))
         == multiset(Walked(subs, p, j, max)) + Bag(Taken(subs, p, j, max))
  {
    hide Bag, Walked, Left;
    var at, left, rows := Along(p, j, |subs|), Left(subs, p, j, max), Taken(subs, p, j, max);
    TakenAt(subs, p, j, j, max);
    BagUpdate(rows, at, left);
    WalkedKeepsOrder(subs, p, j, max);
    Exchange(Walked(subs, p, j, max), subs[at], Walked(subs, p, j + 1, max), left, Bag(rows), Bag(rows[at := left]));
  }

  lemma Exchange<T>(w: seq<T>, sub: seq<T>, w': seq<T>, left: seq<T>, q: multiset<T>, q': multiset<T>)
    requires w' + left == w + sub && q' + multiset(sub) == q + multiset(left)
    ensures multiset(w') + q' == multiset(w) + q
  {
    assert multiset(w') + multiset(left) == multiset(w' + left) == multiset(w) + multiset(sub);
    forall x ensures (multiset(w') + q')[x] == (multiset(w) + q)[x] {
      assert (multiset(w') + multiset(left))[x] == (multiset(w) + multiset(sub))[x];
      assert (q' + multiset(sub))[x] == (q + multiset(left))[x];
    }
  }

  /** No element is lost or given twice: what a walk takes and what it leaves are what there was. */
  lemma WalkConserves<T>(was: seq<seq<T>>, now: seq<seq<T>>, p: nat, max: nat)
    requires p < |was| && LeftOf(was, now, p, max)
    ensures multiset(Walked(was, p, |was|, max)) + Bag(now) == Bag(was)
  {
    var n := |was|;
    forall q | 0 <= q < n ensures now[q] == Taken(was, p, n, max)[q] {
      var k := AlongCovers(p, q, n);
      TakenAt(was, p, n, k, max);
    }
    assert now == Taken(was, p, n, max);
    TakenConserves(was, p, n, max);
  }

  /** The first v producers of a walk from c have been emptied, and the others are as they were. */
  ghost predicate Emptied<T>(was: seq<seq<T>>, now: seq<seq<T>>, c: nat, v: nat)
    requires c < |was| && v <= |was|
  {
    && |now| == |was|
    && (forall j {:trigger Along(c, j, |was|)} :: 0 <= j < v ==> now[Along(c, j, |was|)] == [])
    && (forall j {:trigger Along(c, j, |was|)} :: v <= j < |was| ==> now[Along(c, j, |was|)] == was[Along(c, j, |was|)])
  }

  lemma AllEmpty<T>(was: seq<seq<T>>, now: seq<seq<T>>, c: nat, q: nat)
    requires c < |was| && Emptied(was, now, c, |was|) && q < |was|
    ensures now[q] == []
  {
    var j := AlongCovers(c, q, |was|);
  }

  lemma {:induction false} WalkedMono<T>(subs: seq<seq<T>>, p: nat, j: nat, k: nat, max: nat)
    requires p < |subs| && j <= k <= |subs|
    ensures |Walked(subs, p, j, max)| <= |Walked(subs, p, k, max)|
  {
    if j < k { WalkedMono(subs, p, j, k - 1, max); }
  }

  /** As long as the walk is short of elements, it leaves nothing behind. */
  lemma NothingLeft<T>(subs: seq<seq<T>>, p: nat, j: nat, k: nat, max: nat)
    requires p < |subs| && j < k <= |subs| && |Walked(subs, p, k, max)| < max
    ensures Left(subs, p, j, max) == []
  {}

  lemma EmptiedAll<T>(was: seq<seq<T>>, now: seq<seq<T>>, c: nat, max: nat)
    requires c < |was| && Emptied(was, now, c, |was|) && |Walked(was, c, |was|, max)| < max
    ensures LeftOf(was, now, c, max)
  {
    forall j {:trigger Along(c, j, |was|)} | 0 <= j < |was| ensures now[Along(c, j, |was|)] == Left(was, c, j, max) {
      NothingLeft(was, c, j, |was|, max);
    }
  }

  /** Once it has enough, a walk leaves the rest as it is. */
  lemma AllLeft<T>(subs: seq<seq<T>>, p: nat, k: nat, j: nat, max: nat)
    requires p < |subs| && k <= j < |subs| && |Walked(subs, p, k, max)| == max
    ensures Left(subs, p, j, max) == subs[Along(p, j, |subs|)]
  {
    WalkedEnough(subs, p, k, j, max);
  }

  /** The walk has got its last elements from the producer after v links. */
  lemma StoppedEarly<T>(was: seq<seq<T>>, before: seq<seq<T>>, now: seq<seq<T>>, c: nat, v: nat, max: nat)
    requires c < |was| && v < |was| && Emptied(was, before, c, v) && (v > 0 ==> |Walked(was, c, v, max)| < max)
    requires |Walked(was, c, v + 1, max)| == max
    requires now == before[Along(c, v, |was|) := Left(was, c, v, max)]
    ensures LeftOf(was, now, c, max) && Walked(was, c, |was|, max) == Walked(was, c, v + 1, max)
  {
    hide Walked, Left, Along;
    WalkedEnough(was, c, v + 1, |was|, max);
    AlongDiffer(c, v, |was|);
    forall j {:trigger Along(c, j, |was|)} | 0 <= j < |was| ensures now[Along(c, j, |was|)] == Left(was, c, j, max) {
      if j < v {
        NothingLeft(was, c, j, v, max);
      } else if j > v {
        AllLeft(was, c, v + 1, j, max);
      }
    }
  }

  /** One more producer of the walk: it comes after v links, or everyone has been visited already. */
  lemma WalkStep<T>(was: seq<seq<T>>, before: seq<seq<T>>, now: seq<seq<T>>, c: nat, v: nat, ptr: nat, max: nat, k: nat)
    requires c < |was| && v <= |was| && ptr < |was| && Emptied(was, before, c, v) && |Walked(was, c, v, max)| < max
    requires v < |was| ==> ptr == Along(c, v, |was|)
    requires k == Min(|before[ptr]|, max - |Walked(was, c, v, max)|) && now == before[ptr := before[ptr][k..]]
    ensures v == |was| ==> k == 0 && now == before
    ensures v < |was| ==> Walked(was, c, v + 1, max) == Walked(was, c, v, max) + before[ptr][..k]
    ensures v < |was| && k < max - |Walked(was, c, v, max)| ==> Emptied(was, now, c, v + 1)
    ensures k == max - |Walked(was, c, v, max)| ==>
      v < |was| && LeftOf(was, now, c, max) && Walked(was, c, |was|, max) == Walked(was, c, v + 1, max)
  {
    if v == |was| {
      AllEmpty(was, before, c, ptr);
    } else {
      if k == max - |Walked(was, c, v, max)| { StoppedEarly(was, before, now, c, v, max); }
    }
  }

  /** The walk's first producer. */
  lemma FirstStep<T>(was: seq<seq<T>>, now: seq<seq<T>>, c: nat, max: nat, k: nat)
    requires c < |was| && k == Min(|was[c]|, max) && now == was[c := was[c][k..]]
    ensures was[c][..k] == Walked(was, c, 1, max)
    ensures if k == max then LeftOf(was, now, c, max) && Walked(was, c, |was|, max) == Walked(was, c, 1, max)
            else Emptied(was, now, c, 1)
  {
    if k == max { StoppedEarly(was, was, now, c, 0, max); }
  }

  /** Back at the token's producer, the walk has been everywhere. */
  lemma WalkOver<T>(was: seq<seq<T>>, now: seq<seq<T>>, c: nat, v: nat, last: nat, max: nat)
    requires c < |was| && last < v <= |was| && Emptied(was, now, c, v) && |Walked(was, c, v, max)| < max
    requires v < |was| ==> Along(c, v, |was|) == Along(c, last, |was|)
    ensures v == |was| && LeftOf(was, now, c, max)
  {
    EmptiedAll(was, now, c, max);
  }

  /** Rotations since a token last looked, modulo the number of producers. */
  function Turns(now: nat, last: nat, n: nat): nat
    requires n > 0
  {
    (now - last) % WORD % n
  }

  lemma NothingWalked<T>(subs: seq<seq<T>>, p: nat, max: nat)
    requires p < |subs|
    ensures Walked(subs, p, 0, max) == [] && Emptied(subs, subs, p, 0)
  {}

  lemma Untouched<T>(was: seq<seq<T>>, now: seq<seq<T>>, c: nat)
    requires c < |was| && Emptied(was, now, c, 0)
    ensures now == was
  {
    forall q | 0 <= q < |was| ensures now[q] == was[q] { var j := AlongCovers(c, q, |was|); }
  }

  /** The walk from the newest producer comes to producer p. */
  lemma NewestStep<T>(was: seq<seq<T>>, before: seq<seq<T>>, now: seq<seq<T>>, p: nat, max: nat, k: nat)
    requires p < |was| && Emptied(was, before, |was| - 1, |was| - 1 - p)
    requires p < |was| - 1 ==> |Walked(was, |was| - 1, |was| - 1 - p, max)| < max
    requires k == Min(|before[p]|, max - |Walked(was, |was| - 1, |was| - 1 - p, max)|)
    requires now == before[p := before[p][k..]]
    ensures var c, v := |was| - 1, |was| - 1 - p;
      && Walked(was, c, v + 1, max) == Walked(was, c, v, max) + before[p][..k]
      && (if |Walked(was, c, v + 1, max)| == max
          then LeftOf(was, now, c, max) && Walked(was, c, |was|, max) == Walked(was, c, v + 1, max)
          else Emptied(was, now, c, v + 1))
  {
    var c, v := |was| - 1, |was| - 1 - p;
    NothingWalked(was, c, max);
    hide Walked, Emptied, LeftOf, Along;
    if v == 0 {
      Untouched(was, before, c);
      FirstStep(was, now, c, max, k);
    } else {
      WalkStep(was, before, now, c, v, p, max, k);
    }
  }

  /** Non-empty sub-queues newer than producer p. */
  function NonEmptyAbove<T>(subs: seq<seq<T>>, p: nat): nat
    requires p < |subs|
    decreases |subs| - p
  {
    if p == |subs| - 1 then 0 else NonEmptyAbove(subs, p + 1) + if subs[p + 1] != [] then 1 else 0
  }

  function AllNonEmpty<T>(subs: seq<seq<T>>): nat {
    if subs == [] then 0 else NonEmptyAbove(subs, 0) + if subs[0] != [] then 1 else 0
  }

  lemma {:induction false} AboveMono<T>(subs: seq<seq<T>>, p: nat, q: nat)
    requires p <= q < |subs|
    ensures NonEmptyAbove(subs, q) <= NonEmptyAbove(subs, p)
    decreases q - p
  {
    if p < q { AboveMono(subs, p + 1, q); }
  }

  lemma NoElements<T>()
    ensures Elements<T>([]) == 0
  {}

  lemma SomeElements<T>(subs: seq<seq<T>>, p: nat)
    requires p < |subs| && subs[p] != []
    ensures Elements(subs) > 0
  {
    TotalMember(subs, SizeW(), p);
  }

  class Token {
    var initialOffset: nat
    var lastKnownGlobalOffset: nat
    var itemsConsumedFromCurrent: nat
    var currentProducer: nat
    var desiredProducer: Option<nat>

    constructor (offset: nat)
      requires offset < WORD
      ensures desiredProducer == None && initialOffset == offset && itemsConsumedFromCurrent == 0 && Valid(0)
      ensures lastKnownGlobalOffset == WORD - 1
    {
      initialOffset, lastKnownGlobalOffset := offset, WORD - 1;
      itemsConsumedFromCurrent, currentProducer, desiredProducer := 0, 0, None;
    }

    /** The token goes on with another producer, k items of which it has just taken. */
    method MoveTo(p: nat, k: nat)
      modifies this`currentProducer, this`itemsConsumedFromCurrent
      ensures currentProducer == p && itemsConsumedFromCurrent == k % WORD
    {
      currentProducer := p;
      itemsConsumedFromCurrent := k % WORD;
    }

    /** A token that has a place has it among the n producers. */
    ghost predicate Valid(n: nat)
      reads this
    {
      && lastKnownGlobalOffset < WORD && initialOffset < WORD
      && (desiredProducer.Some? ==> desiredProducer.value < n && currentProducer < n)
    }
  }

  class Queue<T> {
    var subs: seq<seq<T>>
    var globalOffset: nat

    ghost predicate Valid() reads this { globalOffset < WORD }

    /** dequeue_bulk of one producer. */
    method DequeueBulkFrom(p: nat, max: nat) returns (out: seq<T>)
      requires p < |subs|
      modifies this`subs
      ensures var k := Min(|old(subs)[p]|, max); out == old(subs)[p][..k] && subs == old(subs)[p := old(subs)[p][k..]]
    {
      var k := Min(|subs[p]|, max);
      out := subs[p][..k];
      subs := subs[p := subs[p][k..]];
    }

    /** Follows the list for `steps` links. */
    method Follow(p: nat, steps: nat) returns (q: nat)
      requires p < |subs| && steps <= |subs|
      ensures q < |subs| && q == Along(p, steps, |subs|)
    {
      q := p;
      var i := 0;
      while i != steps
        invariant i <= steps && q < |subs| && q == Along(p, i, |subs|)
      {
        q := if q > 0 then q - 1 else |subs| - 1;
        i := i + 1;
      }
    }

    /** Where a token belongs: a new one at the producer numbered by its offset, modulo their number; from
        there on one link further for every rotation since it last looked. */
    ghost function Turned(token: Token): nat
      requires token.Valid(|subs|) && subs != []
      reads this, token
    {
      var n := |subs|;
      var place := if token.desiredProducer.Some? then token.desiredProducer.value else token.initialOffset % n;
      Along(place, Turns(globalOffset, token.lastKnownGlobalOffset, n), n)
    }

    /** Where a token's next dequeue starts. */
    ghost function Start(token: Token): (p: nat)
      requires token.Valid(|subs|) && subs != []
      ensures p < |subs|
      reads this, token
    {
      if token.desiredProducer == None || token.lastKnownGlobalOffset != globalOffset then Turned(token)
      else token.currentProducer
    }

    /** What a token's next dequeue starts counting from: nothing if everyone has rotated since it last looked. */
    ghost function Counted(token: Token): nat
      reads this, token
    {
      if token.desiredProducer == None || token.lastKnownGlobalOffset != globalOffset then 0
      else token.itemsConsumedFromCurrent
    }

    /** Moves a token to its place after a rotation. */
    method Rotate(token: Token) returns (ok: bool)
      requires Valid() && token.Valid(|subs|)
      modifies token
      ensures token.Valid(|subs|) && (ok <==> subs != [])
      ensures ok ==> token.desiredProducer.Some? && token.lastKnownGlobalOffset == globalOffset
      ensures ok ==> token.desiredProducer == Some(token.currentProducer) && token.currentProducer == old(Turned(token))
      ensures ok ==> token.itemsConsumedFromCurrent == 0
      ensures !ok ==> token.desiredProducer == old(token.desiredProducer)
    {
      if token.desiredProducer == None && subs == [] { return false; }
      var n := |subs|;
      if token.desiredProducer == None {
        var offset := n - 1 - token.initialOffset % n;
        var place := Follow(n - 1, offset);
        token.desiredProducer := Some(place);
        token.currentProducer := place;
      }
      var delta := (globalOffset - token.lastKnownGlobalOffset) % WORD;
      SmallMod(delta, n);
      if delta >= n { delta := delta % n; }
      var place := Follow(token.desiredProducer.value, delta);
      token.desiredProducer := Some(place);
      token.lastKnownGlobalOffset := globalOffset;
      token.currentProducer := place;
      token.itemsConsumedFromCurrent := 0;
      return true;
    }

    /** In the middle of a walk from c: v producers emptied, the token at the last one that had elements. */
    ghost predicate Walking(token: Token, was: seq<seq<T>>, c: nat, v: nat, last: nat, out: seq<T>, max: nat)
      reads this, token
    {
      && Valid() && token.Valid(|was|) && token.desiredProducer.Some? && |subs| == |was| && c < |was|
      && last < v <= |was| && token.currentProducer == Along(c, last, |was|)
      && Emptied(was, subs, c, v) && out == Walked(was, c, v, max) && |out| < max
    }

    /** The walk comes to producer ptr. */
    method Visit(token: Token, ptr: nat, left: nat, taken: seq<T>,
                 ghost was: seq<seq<T>>, ghost c: nat, ghost v: nat, ghost last: nat, ghost max: nat,
                 ghost base: int)
      returns (out: seq<T>, ghost v': nat, ghost last': nat)
      requires Walking(token, was, c, v, last, taken, max) && ptr < |was| && left == max - |taken|
      requires Stands(was, subs, c, token.currentProducer, token.itemsConsumedFromCurrent, base)
      requires v < |was| ==> ptr == Along(c, v, |was|)
      modifies token, this`subs
      ensures |taken| <= |out| <= max && ptr < |subs| == |was|
      ensures |out| == max ==>
        Valid() && token.Valid(|was|) && out == Walked(was, c, |was|, max) && LeftOf(was, subs, c, max)
      ensures |out| < max ==>
        Walking(token, was, c, v', last', out, max) && (v' < |was| ==> Next(ptr, |was|) == Along(c, v', |was|))
      ensures |out| == |taken| ==> token.currentProducer == old(token.currentProducer)
      ensures Stands(was, subs, c, token.currentProducer, token.itemsConsumedFromCurrent, base)
      ensures token.lastKnownGlobalOffset == old(token.lastKnownGlobalOffset)
    {
      hide Emptied, Walked, Along, LeftOf, Left, Stands, Gap;
      GapAlong(c, last, |was|);
      v', last' := v, last;
      ghost var before := subs;
      var dequeued := DequeueBulkFrom(ptr, left);
      WalkStep(was, before, subs, c, v, ptr, max, |dequeued|);
      out := taken + dequeued;
      if dequeued != [] {
        StandsMoved(was, before, subs, c, token.currentProducer, v, token.itemsConsumedFromCurrent, base, |dequeued|);
        token.MoveTo(ptr, |dequeued|);
        last' := v;
      } else {
        assert subs == before;
      }
      if v < |was| {
        AlongNext(c, v, |was|);
        v' := v + 1;
      }
    }

    /** The rest of the walk, the token's own producer being empty by now. */
    method WalkOn(token: Token, max: nat, taken: seq<T>, ghost was: seq<seq<T>>, ghost c: nat, ghost base: int)
      returns (out: seq<T>)
      requires Walking(token, was, c, 1, 0, taken, max)
      requires Stands(was, subs, c, token.currentProducer, token.itemsConsumedFromCurrent, base)
      modifies token, this`subs
      ensures Stands(was, subs, c, token.currentProducer, token.itemsConsumedFromCurrent, base)
      ensures token.lastKnownGlobalOffset == old(token.lastKnownGlobalOffset)
      ensures Valid() && token.Valid(|subs|) && |subs| == |was| && c < |was|
      ensures out == Walked(was, c, |was|, max) && LeftOf(was, subs, c, max)
    {
      ghost var n := |was|;
      out := taken;
      var tail := |subs| - 1;
      var ptr: nat := if token.currentProducer > 0 then token.currentProducer - 1 else tail;
      ghost var v: nat, last: nat := 1, 0;
      hide Emptied, Walked, Along, LeftOf, Gap, Stands;
      while ptr != token.currentProducer
        invariant Walking(token, was, c, v, last, out, max) && ptr < n
        invariant v < n ==> ptr == Along(c, v, n)
        invariant Stands(was, subs, c, token.currentProducer, token.itemsConsumedFromCurrent, base)
        invariant token.lastKnownGlobalOffset == old(token.lastKnownGlobalOffset)
        decreases max - |out|, Gap(ptr, token.currentProducer, n)
      {
        var before := |out|;
        out, v, last := Visit(token, ptr, max - |out|, out, was, c, v, last, max, base);
        if |out| == max { return; }
        if |out| == before { GapCloses(ptr, token.currentProducer, n); }
        ptr := if ptr > 0 then ptr - 1 else tail;
      }
      WalkOver(was, subs, c, v, last, max);
    }

    /** The whole walk from the token's producer on; `atFirst` tells whether that producer had enough. */
    method WalkAll(token: Token, max: nat) returns (out: seq<T>, atFirst: bool)
      requires Valid() && token.Valid(|subs|) && token.desiredProducer.Some?
      modifies token, this`subs
      ensures Valid() && token.Valid(|subs|) && |subs| == |old(subs)| && old(token.currentProducer) < |subs|
      ensures |out| == Min(max, Elements(old(subs)))
      ensures out == Walked(old(subs), old(token.currentProducer), |old(subs)|, max)
      ensures LeftOf(old(subs), subs, old(token.currentProducer), max)
      ensures atFirst <==> |old(subs)[old(token.currentProducer)]| >= max
      ensures token.lastKnownGlobalOffset == old(token.lastKnownGlobalOffset)
      ensures var c, base := old(token.currentProducer), old(token.itemsConsumedFromCurrent);
        if atFirst then
          token.currentProducer == c && token.itemsConsumedFromCurrent == base
          && Stands(old(subs), subs, c, c, (base + max) % WORD, base)
        else Stands(old(subs), subs, c, token.currentProducer, token.itemsConsumedFromCurrent, base)
    {
      ghost var was, c, base := subs, token.currentProducer, token.itemsConsumedFromCurrent;
      hide Walked, LeftOf, Emptied, Elements, Left, Stands;
      WalkFindsAll(was, c, max);
      out := DequeueBulkFrom(token.currentProducer, max);
      FirstStep(was, subs, c, max, |out|);
      StandsFirst(was, subs, c, |out|, base);
      atFirst := |out| == max;
      if !atFirst {
        token.itemsConsumedFromCurrent := (token.itemsConsumedFromCurrent + |out|) % WORD;
        out := WalkOn(token, max, out, was, c, base);
      }
    }

    /** Brings the token to where it belongs, unless there is no producer at all. */
    method Place(token: Token) returns (ok: bool)
      requires Valid() && token.Valid(|subs|)
      modifies token
      ensures token.Valid(|subs|) && (ok <==> subs != [])
      ensures ok ==> token.desiredProducer.Some? && token.currentProducer == old(Start(token))
      ensures ok ==> token.lastKnownGlobalOffset == globalOffset
      ensures ok ==> token.itemsConsumedFromCurrent == old(Counted(token))
    {
      ok := true;
      if token.desiredProducer == None || token.lastKnownGlobalOffset != globalOffset {
        ok := Rotate(token);
      }
    }

    /** Up to max elements with a token: exactly min(max, total) of them, producer by producer around the
        list from the token's place on, each producer's own in order.  When enough items have been taken
        from one producer, everyone rotates. */
    method TryDequeueBulk(token: Token, max: nat) returns (out: seq<T>)
      requires Valid() && token.Valid(|subs|)
      modifies token, this
      ensures Valid() && token.Valid(|subs|)
      ensures |out| == Min(max, Elements(old(subs)))
      ensures old(subs) != [] ==>
        && out == Walked(old(subs), old(Start(token)), |old(subs)|, max)
        && LeftOf(old(subs), subs, old(Start(token)), max)
      ensures old(subs) != [] ==>
        var c := old(Start(token));
        && Stands(old(subs), subs, c, token.currentProducer, token.itemsConsumedFromCurrent, old(Counted(token)))
        && token.lastKnownGlobalOffset == old(globalOffset)
        && globalOffset == (if |old(subs)[c]| >= max && token.itemsConsumedFromCurrent >= QUOTA
                            then (old(globalOffset) + 1) % WORD else old(globalOffset))
      ensures old(subs) == [] ==> globalOffset == old(globalOffset)
    {
      hide Walked, LeftOf, Start, Counted, Stands;
      var ok := Place(token);
      if !ok { return []; }
      var atFirst;
      out, atFirst := WalkAll(token, max);
      if atFirst {
        token.itemsConsumedFromCurrent := (token.itemsConsumedFromCurrent + max) % WORD;
        if token.itemsConsumedFromCurrent >= QUOTA { globalOffset := (globalOffset + 1) % WORD; }
      }
    }

    /** One element with a token: a walk for one. */
    method TryDequeue(token: Token) returns (r: Option<T>)
      requires Valid() && token.Valid(|subs|)
      modifies token, this
      ensures Valid() && token.Valid(|subs|)
      ensures r == None <==> Elements(old(subs)) == 0
      ensures old(subs) != [] ==>
        && Walked(old(subs), old(Start(token)), |old(subs)|, 1) == (if r == None then [] else [r.value])
        && LeftOf(old(subs), subs, old(Start(token)), 1)
      ensures old(subs) != [] ==>
        var c := old(Start(token));
        && Stands(old(subs), subs, c, token.currentProducer, token.itemsConsumedFromCurrent, old(Counted(token)))
        && token.lastKnownGlobalOffset == old(globalOffset)
        && globalOffset == (if |old(subs)[c]| >= 1 && token.itemsConsumedFromCurrent == QUOTA
                            then (old(globalOffset) + 1) % WORD else old(globalOffset))
      ensures old(subs) == [] ==> globalOffset == old(globalOffset)
    {
      hide Walked, LeftOf, Start, Counted, Stands;
      var ok := Place(token);
      if !ok { return None; }
      var out, atFirst := WalkAll(token, 1);
      if atFirst {
        token.itemsConsumedFromCurrent := (token.itemsConsumedFromCurrent + 1) % WORD;
        if token.itemsConsumedFromCurrent == QUOTA { globalOffset := (globalOffset + 1) % WORD; }
      }
      r := if |out| == 1 then Some(out[0]) else None;
    }

    /** Up to max elements without a token: the walk starts at the newest producer. */
    method TryDequeueBulkFromAll(max: nat) returns (out: seq<T>)
      modifies this`subs
      ensures |out| == Min(max, Elements(old(subs)))
      ensures old(subs) != [] ==>
        && out == Walked(old(subs), |old(subs)| - 1, |old(subs)|, max)
        && LeftOf(old(subs), subs, |old(subs)| - 1, max)
    {
      hide Walked, LeftOf, Emptied, Elements, Left, Along;
      out := [];
      if subs == [] {
        NoElements<T>();
        return;
      }
      ghost var was, n := subs, |subs|;
      ghost var newest := n - 1;
      WalkFindsAll(was, newest, max);
      NothingWalked(was, newest, max);
      var p: nat := |subs|;
      while p > 0
        invariant 0 <= p <= n == |subs| && Emptied(was, subs, newest, n - p) && out == Walked(was, newest, n - p, max)
        invariant p < n ==> |out| < max
      {
        p := p - 1;
        ghost var before := subs;
        var more := DequeueBulkFrom(p, max - |out|);
        NewestStep(was, before, subs, p, max, |more|);
        out := out + more;
        if |out| == max { return; }
      }
      EmptiedAll(was, subs, newest, max);
    }

    /** One element without a token: from the largest of the newest three non-empty sub-queues.  Only
        interference can make that one come up empty, so the loop over the others is not reached here. */
    method TryDequeueFromAll() returns (r: Option<T>, ghost best: nat)
      modifies this`subs
      ensures r == None <==> Elements(old(subs)) == 0
      ensures r == None ==> subs == old(subs)
      ensures r != None ==>
        && best < |old(subs)| && old(subs)[best] != [] && NonEmptyAbove(old(subs), best) < 3
        && r == Some(old(subs)[best][0]) && subs == old(subs)[best := old(subs)[best][1..]]
        && forall q :: 0 <= q < |old(subs)| && NonEmptyAbove(old(subs), q) < 3 ==> |old(subs)[q]| <= |old(subs)[best]|
    {
      var nonEmpty, bestSize, at := 0, 0, 0;
      var p: nat := |subs|;
      while p > 0 && nonEmpty < 3
        invariant 0 <= p <= |subs| && nonEmpty <= 3
            && nonEmpty == (if p == 0 then AllNonEmpty(subs) else NonEmptyAbove(subs, p - 1))
        invariant nonEmpty > 0 <==> bestSize > 0
        invariant bestSize > 0 ==> at < |subs| && |subs[at]| == bestSize && p <= at && NonEmptyAbove(subs, at) < 3
        invariant forall q :: p <= q < |subs| ==> |subs[q]| <= bestSize
      {
        p := p - 1;
        var size := |subs[p]|;
        if size > 0 {
          if size > bestSize { bestSize, at := size, p; }
          nonEmpty := nonEmpty + 1;
        }
      }
      ghost var was := subs;
      best := at;
      if nonEmpty > 0 {
        SomeElements(was, at);
        forall q | 0 <= q < p ensures NonEmptyAbove(was, q) >= 3 {
          AboveMono(was, q, p - 1);
        }
        var out := DequeueBulkFrom(at, 1);
        return Some(out[0]), at;
      }
      TotalZero(was, SizeW());
      r := None;
    }

    /** The retry loop of a blocking bulk dequeue with a token, for the permits it has been given, which
        elements back.  Alone, it fills its buffer in one pass: the loop is there for interference only. */
    method RedeemBulk(token: Token, permits: nat) returns (out: seq<T>, ghost passes: nat)
      requires Valid() && token.Valid(|subs|) && permits <= Elements(subs)
      modifies token, this
      ensures Valid() && token.Valid(|subs|)
      ensures |out| == permits && passes == Min(permits, 1)
      ensures permits == 0 ==> subs == old(subs)
      ensures permits > 0 ==>
        && old(subs) != [] && out == Walked(old(subs), old(Start(token)), |old(subs)|, permits)
        && LeftOf(old(subs), subs, old(Start(token)), permits)
    {
      hide Walked, LeftOf, Start, Elements;
      NoElements<T>();
      assert permits > 0 ==> subs != [];
      out, passes := [], 0;
      ghost var was, start := subs, if subs == [] then 0 else Start(token);
      while |out| != permits
        invariant Valid() && token.Valid(|subs|)
        invariant passes == 0 ==> out == [] && subs == was && (was != [] ==> Start(token) == start)
        invariant passes > 0 ==>
          && passes == 1 && |out| == permits && permits > 0 && start < |was|
          && out == Walked(was, start, |was|, permits) && LeftOf(was, subs, start, permits)
        decreases permits - |out|
      {
        var more := TryDequeueBulk(token, permits - |out|);
        out, passes := out + more, passes + 1;
      }
    }
  }
}
