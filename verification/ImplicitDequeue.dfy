/** Whole dequeues from an implicit producer: the machines of modules Tickets and ImplicitChain as one.

    A consumer runs the ticket protocol; the fetch_add of the head that ends it is, in the same step, the claim
    with which its lookups begin, and publishing by the producer is what the ticket protocol sees as the tail.
    The two machines keep the shared words they both speak of in step, so what holds of either holds here.

    `visits` is bookkeeping: what consumers have read, one entry for every visit to a block. */
module ImplicitDequeue {
  import opened Sums
  import opened Wrappers
  import ImplicitChain
  import ImplicitIndex
  import Tickets

  /** The cells of the indices from `first` on, as a consumer read them. */
  datatype Visit<T> = Visit(thread: nat, first: nat, cells: seq<Cell<T>>)

  datatype State<T> = State(tickets: Tickets.State<T>, chain: ImplicitChain.State<T>, visits: seq<Visit<T>>)

  /** Call: a consumer asks for up to `max` elements.  Go: it takes its next step.  Produce: a step of the
      producer, or of an owner of a block that has been given back. */
  datatype Action<T> =
    | Call(t: nat, max: nat)
    | Go(t: nat)
    | Produce(a: ImplicitChain.Action<T>)

  /** The consumer is still taking tickets. */
  predicate Asking<T>(s: State<T>, t: nat) { t < |s.tickets.pcs| && s.tickets.pcs[t] != Tickets.Idle }

  /** The consumer is working through its claim. */
  predicate Looking<T>(s: State<T>, t: nat) {
    t < |s.chain.core.cons| && s.chain.core.cons[t] != ImplicitIndex.Idle
  }

  /** What the action does in the machine underneath. */
  function ChainAction<T>(s: State<T>, a: Action<T>): Option<ImplicitChain.Action<T>> {
    match a
    case Call(_, _) => None
    case Go(t) =>
      if !Asking(s, t) then Some(ImplicitChain.Others(ImplicitIndex.Consume(t)))
      else if s.tickets.pcs[t].AddHead? then
        Some(ImplicitChain.Others(ImplicitIndex.Claim(t, s.tickets.pcs[t].take)))
      else None
    case Produce(p) => if p.Others? then None else Some(p)
  }

  function ChainNext<T>(s: State<T>, a: Action<T>): ImplicitChain.State<T> {
    match ChainAction(s, a)
    case None => s.chain
    case Some(p) => ImplicitChain.Step(s.chain, p)
  }

  /** The elements published since. */
  function News<T>(items: seq<T>, items': seq<T>): seq<T> { if |items| <= |items'| then items'[|items|..] else [] }

  function TicketAction<T>(s: State<T>, a: Action<T>): Option<Tickets.Action<T>> {
    match a
    case Call(t, max) => if Looking(s, t) then None else Some(Tickets.Call(t, max))
    case Go(t) => if Asking(s, t) then Some(Tickets.Go(t)) else None
    case Produce(_) => Some(Tickets.Publish(News(s.chain.items, ChainNext(s, a).items)))
  }

  function TicketsNext<T>(s: State<T>, a: Action<T>): Tickets.State<T> {
    match TicketAction(s, a)
    case None => s.tickets
    case Some(p) => Tickets.Step(s.tickets, p)
  }

  /** The consumer is in front of a block whose slots it reads and marks in its next step. */
  predicate AtBlock(c: ImplicitIndex.State, t: nat) {
    t < |c.cons| && c.cons[t].Reading? && ImplicitIndex.ConsumerOk(c, c.cons[t])
  }

  /** The cells it reads there. */
  function CellsRead<T>(s: ImplicitChain.State<T>, t: nat): seq<Cell<T>>
    requires AtBlock(s.core, t)
  {
    var pc := s.core.cons[t];
    var m, j := ImplicitIndex.InBlock(pc.i, pc.n, s.core.bs), pc.i % s.core.bs;
    if pc.block < |s.cells| && j + m <= |s.cells[pc.block]| then s.cells[pc.block][j..j + m] else []
  }

  function VisitsNext<T>(s: State<T>, a: Action<T>): seq<Visit<T>> {
    if a.Go? && !Asking(s, a.t) && AtBlock(s.chain.core, a.t) then
      s.visits + [Visit(a.t, s.chain.core.cons[a.t].i, CellsRead(s.chain, a.t))]
    else s.visits
  }

  function Step<T>(s: State<T>, a: Action<T>): State<T> {
    State(TicketsNext(s, a), ChainNext(s, a), VisitsNext(s, a))
  }

  function Run<T>(s: State<T>, schedule: seq<Action<T>>): State<T>
    decreases |schedule|
  {
    if schedule == [] then s else Run(Step(s, schedule[0]), schedule[1..])
  }

  ghost predicate Init<T>(s: State<T>, capacity: nat) {
    && Tickets.Init(s.tickets) && ImplicitChain.Init(s.chain, capacity) && s.visits == []
    && |s.tickets.pcs| == |s.chain.core.cons|
  }

  /** Calls that asked for nothing are careful, as in module ImplicitIndex. */
  predicate Careful<T>(s: State<T>, a: Action<T>) {
    match ChainAction(s, a)
    case None => true
    case Some(p) => ImplicitChain.Careful(s.chain, p)
  }

  predicate CarefulRun<T>(s: State<T>, schedule: seq<Action<T>>)
    decreases |schedule|
  {
    schedule == [] || (Careful(s, schedule[0]) && CarefulRun(Step(s, schedule[0]), schedule[1..]))
  }

  // ---------------------------------------------------------------- the two machines underneath

  function ChainSchedule<T>(s: State<T>, schedule: seq<Action<T>>): seq<ImplicitChain.Action<T>>
    decreases |schedule|
  {
    if schedule == [] then []
    else
      var rest := ChainSchedule(Step(s, schedule[0]), schedule[1..]);
      match ChainAction(s, schedule[0])
      case None => rest
      case Some(p) => [p] + rest
  }

  function TicketSchedule<T>(s: State<T>, schedule: seq<Action<T>>): seq<Tickets.Action<T>>
    decreases |schedule|
  {
    if schedule == [] then []
    else
      var rest := TicketSchedule(Step(s, schedule[0]), schedule[1..]);
      match TicketAction(s, schedule[0])
      case None => rest
      case Some(p) => [p] + rest
  }

  /** A run is a run of each of the two machines. */
  lemma {:induction false} RunsTogether<T>(s: State<T>, schedule: seq<Action<T>>)
    ensures Run(s, schedule).chain == ImplicitChain.Run(s.chain, ChainSchedule(s, schedule))
    ensures Run(s, schedule).tickets == Tickets.Run(s.tickets, TicketSchedule(s, schedule))
    ensures CarefulRun(s, schedule) <==> ImplicitChain.CarefulRun(s.chain, ChainSchedule(s, schedule))
    decreases |schedule|
  {
    hide Tickets.Step, ImplicitChain.Step, ImplicitChain.Careful, VisitsNext;
    if schedule != [] { RunsTogether(Step(s, schedule[0]), schedule[1..]); }
  }

  // ---------------------------------------------------------------- the shared words stay in step

  predicate TurnOk(pc: Tickets.Pc, con: ImplicitIndex.Consumer, tail: nat) {
    (pc == Tickets.Idle || con == ImplicitIndex.Idle) && (Tickets.Informed(pc) ==> tail > 0)
  }

  /** What the producer's call will publish is what it has been given. */
  predicate CallFits<T>(c: ImplicitChain.State<T>) {
    && |c.items| == c.core.tailIndex
    && (c.core.prod != ImplicitIndex.Ready ==> |c.call.xs| == c.core.want)
  }

  ghost predicate Agree<T>(s: State<T>) {
    && s.tickets.items == s.chain.items && s.tickets.head == s.chain.core.headIndex && CallFits(s.chain)
    && |s.tickets.pcs| == |s.chain.core.cons|
    && forall t :: 0 <= t < |s.tickets.pcs| ==> TurnOk(s.tickets.pcs[t], s.chain.core.cons[t], |s.chain.items|)
  }

  /** The producer publishes behind what it has published, and leaves the consumers alone. */
  ghost predicate Produced<T>(c: ImplicitChain.State<T>, c': ImplicitChain.State<T>) {
    && CallFits(c') && c'.items == c.items + News(c.items, c'.items)
    && c'.core.cons == c.core.cons && c'.core.headIndex == c.core.headIndex
  }

  lemma InsertFits<T>(c: ImplicitChain.State<T>, xs: seq<T>, single: bool)
    requires CallFits(c)
    ensures Produced(c, ImplicitChain.Step(c, ImplicitChain.Insert(xs, single)))
  {}

  lemma WantStays(c: ImplicitIndex.State, ok: bool, full: bool, block: nat)
    requires ImplicitIndex.Sound(c)
    ensures var c' := ImplicitIndex.ProducerStep(c, ok, full, block);
      && c'.want == c.want && c'.tailIndex == c.tailIndex + (if c.prod == ImplicitIndex.Publish then c.want else 0)
      && (c.prod == ImplicitIndex.Publish || c.prod == ImplicitIndex.Ready ==> c'.prod == ImplicitIndex.Ready)
  {
    hide ImplicitIndex.Sound, ImplicitIndex.LookUp, ImplicitIndex.At, ImplicitIndex.GrownIndex;
  }

  /** The counts that a call starts with stay until it publishes. */
  lemma CountsStay(c: ImplicitIndex.State, ok: bool, full: bool, block: nat)
    requires ImplicitIndex.Sound(c)
    ensures var c' := ImplicitIndex.ProducerStep(c, ok, full, block);
      && c'.cons == c.cons && c'.headIndex == c.headIndex
      && c'.want == c.want && c'.tailIndex == c.tailIndex + (if c.prod == ImplicitIndex.Publish then c.want else 0)
      && (c.prod == ImplicitIndex.Publish || c.prod == ImplicitIndex.Ready ==> c'.prod == ImplicitIndex.Ready)
  {
    hide ImplicitIndex.Sound, ImplicitIndex.ProducerStep;
    ImplicitIndex.ProduceCons(c, ok, full, block);
    WantStays(c, ok, full, block);
  }

  lemma WriteFits<T>(c: ImplicitChain.State<T>, ok: bool, full: bool, block: nat)
    requires CallFits(c) && ImplicitIndex.Sound(c.core) && c.core.prod == ImplicitIndex.Publish
    ensures Produced(c, ImplicitChain.ChainStep(c, ok, full, block))
  {
    CountsStay(c.core, ok, full, block);
    hide ImplicitIndex.ProducerStep, ImplicitIndex.Sound;
  }

  lemma BlocksFit<T>(c: ImplicitChain.State<T>, ok: bool, full: bool, block: nat)
    requires CallFits(c) && ImplicitIndex.Sound(c.core) && c.core.prod != ImplicitIndex.Publish
    ensures Produced(c, ImplicitChain.ChainStep(c, ok, full, block))
  {
    CountsStay(c.core, ok, full, block);
    hide ImplicitIndex.ProducerStep, ImplicitIndex.Sound;
  }

  lemma GoFits<T>(c: ImplicitChain.State<T>, ok: bool, full: bool, block: nat)
    requires CallFits(c)
    ensures Produced(c, ImplicitChain.Step(c, ImplicitChain.Go(ok, full, block)))
  {
    hide ImplicitIndex.ProducerStep, ImplicitIndex.Sound, ImplicitChain.ChainStep;
    if ImplicitIndex.Sound(c.core) {
      if c.core.prod == ImplicitIndex.Publish { WriteFits(c, ok, full, block); } else { BlocksFit(c, ok, full, block); }
    }
  }

  lemma ScribbleFits<T>(c: ImplicitChain.State<T>, b: nat, link: ImplicitChain.Link, row: seq<Cell<T>>)
    requires CallFits(c)
    ensures Produced(c, ImplicitChain.Step(c, ImplicitChain.Scribble(b, link, row)))
  {}

  lemma ConsumeMoves(c: ImplicitIndex.State, u: nat)
    ensures var c' := ImplicitIndex.Step(c, ImplicitIndex.Consume(u));
      && |c'.cons| == |c.cons| && (forall v :: 0 <= v < |c.cons| && v != u ==> c'.cons[v] == c.cons[v])
      && c'.headIndex == c.headIndex && c'.tailIndex == c.tailIndex && c'.want == c.want && c'.prod == c.prod
  {}

  lemma AskAgrees<T>(s: State<T>, t: nat)
    requires Agree(s) && Tickets.Inv(s.tickets) && Asking(s, t) && !s.tickets.pcs[t].AddHead?
    ensures Agree(Step(s, Go(t)))
  {
    Tickets.TicketStep(s.tickets, t);
    if s.tickets.pcs[t].Reload? && Tickets.Tail(s.tickets) > s.tickets.pcs[t].mine - s.tickets.pcs[t].over {
      Tickets.BackedMeansPublished(s.tickets, t);
    }
    hide Tickets.Inv, Tickets.Step, ImplicitChain.Step;
  }

  /** The move of the head is a claim that the index accepts. */
  lemma HeadMoves<T>(s: State<T>, t: nat)
    requires Agree(s) && Tickets.Inv(s.tickets) && Asking(s, t) && s.tickets.pcs[t].AddHead?
    ensures var head, take, s' := s.tickets.head, s.tickets.pcs[t].take, Step(s, Go(t));
      && s.chain.core.cons[t] == ImplicitIndex.Idle
      && s'.tickets == s.tickets.(head := head + take, pcs := s.tickets.pcs[t := Tickets.Idle],
                                  claims := s.tickets.claims + [Tickets.Claim(t, head, take)],
                                  results := s'.tickets.results)
      && s'.chain == s.chain.(core := s.chain.core.(headIndex := head + take,
                                                    cons := s.chain.core.cons[t := ImplicitIndex.Claimed(head, take)]))
      && s'.visits == s.visits
  {
    Tickets.ClaimFits(s.tickets, t);
    hide Tickets.Inv;
  }

  lemma HeadAgrees<T>(s: State<T>, t: nat)
    requires Agree(s) && Tickets.Inv(s.tickets) && Asking(s, t) && s.tickets.pcs[t].AddHead?
    ensures Agree(Step(s, Go(t)))
  {
    hide Tickets.Inv, Step;
    HeadMoves(s, t);
  }

  lemma LookAgrees<T>(s: State<T>, t: nat)
    requires Agree(s) && !Asking(s, t)
    ensures Agree(Step(s, Go(t)))
  {
    ConsumeMoves(s.chain.core, t);
    hide ImplicitIndex.Step;
  }

  lemma ProduceAgrees<T>(s: State<T>, p: ImplicitChain.Action<T>)
    requires Agree(s)
    ensures Agree(Step(s, Produce(p)))
  {
    hide CallFits, ImplicitChain.Step;
    match p
    case Insert(xs, single) => InsertFits(s.chain, xs, single);
    case Go(ok, full, block) => GoFits(s.chain, ok, full, block);
    case Scribble(b, link, row) => ScribbleFits(s.chain, b, link, row);
    case Others(_) =>
  }

  lemma StepAgrees<T>(s: State<T>, a: Action<T>)
    requires Agree(s) && Tickets.Inv(s.tickets)
    ensures Agree(Step(s, a)) && Tickets.Inv(Step(s, a).tickets)
  {
    hide Tickets.Inv, CallFits;
    match TicketAction(s, a) {
      case None =>
      case Some(p) => Tickets.StepKeeps(s.tickets, p);
    }
    match a
    case Call(t, max) =>
    case Go(t) =>
      if !Asking(s, t) { LookAgrees(s, t); }
      else if s.tickets.pcs[t].AddHead? { HeadAgrees(s, t); }
      else { AskAgrees(s, t); }
    case Produce(p) => ProduceAgrees(s, p);
  }

  lemma {:induction false} RunAgrees<T>(s: State<T>, schedule: seq<Action<T>>)
    requires Agree(s) && Tickets.Inv(s.tickets)
    ensures Agree(Run(s, schedule)) && Tickets.Inv(Run(s, schedule).tickets)
    decreases |schedule|
  {
    hide Agree, Tickets.Inv, Step;
    if schedule != [] {
      StepAgrees(s, schedule[0]);
      RunAgrees(Step(s, schedule[0]), schedule[1..]);
    }
  }

  lemma ReachableAgrees<T>(s0: State<T>, capacity: nat, schedule: seq<Action<T>>)
    requires Init(s0, capacity)
    ensures Agree(Run(s0, schedule)) && Tickets.Inv(Run(s0, schedule).tickets)
  {
    Tickets.ReachableInv(s0.tickets, []);
    hide Tickets.Inv;
    RunAgrees(s0, schedule);
  }

  /** In every run the published elements and the head are the same to both protocols, and each claim that the
      ticket protocol makes is accepted as such by the index: below the tail, from the head on, by a consumer that
      works on no other. */
  lemma ClaimsAreAccepted<T>(s0: State<T>, capacity: nat, schedule: seq<Action<T>>, t: nat)
    requires Init(s0, capacity)
    ensures var s := Run(s0, schedule);
      && s.tickets.items == s.chain.items && |s.chain.items| == s.chain.core.tailIndex
      && s.tickets.head == s.chain.core.headIndex <= s.chain.core.tailIndex
    ensures var s := Run(s0, schedule);
      Asking(s, t) && s.tickets.pcs[t].AddHead? ==>
        var head, take, s' := s.tickets.head, s.tickets.pcs[t].take, Step(s, Go(t));
        && 0 < s.chain.core.tailIndex && t < |s.chain.core.cons| && s.chain.core.cons[t] == ImplicitIndex.Idle
        && s'.tickets.claims == s.tickets.claims + [Tickets.Claim(t, head, take)]
        && s'.chain.core == s.chain.core.(headIndex := head + take,
             cons := s.chain.core.cons[t := ImplicitIndex.Claimed(head, take)])
  {
    hide Init, Tickets.Inv, Step;
    var s := Run(s0, schedule);
    ReachableAgrees(s0, capacity, schedule);
    Tickets.TicketsFit(s.tickets);
    if Asking(s, t) && s.tickets.pcs[t].AddHead? { HeadMoves(s, t); }
  }

  // ---------------------------------------------------------------- every element is read once

  function VisitsW<T>(x: nat): Visit<T> -> nat { (v: Visit<T>) => Tickets.Covers(v.first, |v.cells|, x) }

  /** How often index x has been read. */
  function Times<T>(visits: seq<Visit<T>>, x: nat): nat { Total(visits, VisitsW(x)) }

  /** How many consumers have index x still to read. */
  function Holders(cons: seq<ImplicitIndex.Consumer>, x: nat): nat { Total(cons, ImplicitIndex.PendingW(x, 1)) }

  /** Each index below the head has been read once or is still to be read by one consumer. */
  ghost predicate Once<T>(visits: seq<Visit<T>>, cons: seq<ImplicitIndex.Consumer>, head: nat) {
    forall x: nat :: Times(visits, x) + Holders(cons, x) == Tickets.Covers(0, head, x)
  }

  /** The cells hold the elements from `first` on. */
  ghost predicate Found<T>(cells: seq<Cell<T>>, first: nat, items: seq<T>) {
    && (cells != [] ==> first + |cells| <= |items|)
    && forall j :: 0 <= j < |cells| ==> cells[j] == Full(items[first + j])
  }

  /** A visit found the elements published under its indices, which its thread had claimed. */
  ghost predicate VisitOk<T>(v: Visit<T>, items: seq<T>, claims: seq<Tickets.Claim>) {
    && Found(v.cells, v.first, items)
    && Tickets.Owns(claims, v.thread, v.first, |v.cells|)
  }

  ghost predicate VisitsOk<T>(visits: seq<Visit<T>>, items: seq<T>, claims: seq<Tickets.Claim>) {
    forall k :: 0 <= k < |visits| ==> VisitOk(visits[k], items, claims)
  }

  ghost predicate ConsOwn(cons: seq<ImplicitIndex.Consumer>, claims: seq<Tickets.Claim>) {
    forall t :: 0 <= t < |cons| && cons[t] != ImplicitIndex.Idle ==> Tickets.Owns(claims, t, cons[t].i, cons[t].n)
  }

  ghost predicate Delivers<T>(s: State<T>) {
    && Once(s.visits, s.chain.core.cons, s.tickets.head)
    && VisitsOk(s.visits, s.tickets.items, s.tickets.claims) && ConsOwn(s.chain.core.cons, s.tickets.claims)
  }

  /** A visit lies behind the head, and behind what its thread has still to read. */
  predicate Behind<T>(v: Visit<T>, cons: seq<ImplicitIndex.Consumer>, head: nat) {
    var end := v.first + |v.cells|;
    && end <= head && v.thread < |cons|
    && (cons[v.thread] != ImplicitIndex.Idle ==> end <= cons[v.thread].i)
  }

  predicate ConsBehind(cons: seq<ImplicitIndex.Consumer>, head: nat) {
    forall t :: 0 <= t < |cons| && cons[t] != ImplicitIndex.Idle ==> cons[t].i + cons[t].n <= head
  }

  /** Each thread's visits are in the order of their indices. */
  predicate Ascending<T>(visits: seq<Visit<T>>) {
    forall k, m :: 0 <= k < m < |visits| && visits[k].thread == visits[m].thread ==>
      visits[k].first + |visits[k].cells| <= visits[m].first
  }

  ghost predicate InOrder<T>(visits: seq<Visit<T>>, cons: seq<ImplicitIndex.Consumer>, head: nat) {
    Ascending(visits) && ConsBehind(cons, head) && forall k :: 0 <= k < |visits| ==> Behind(visits[k], cons, head)
  }

  ghost predicate Inv<T>(s: State<T>) {
    && Agree(s) && Tickets.Inv(s.tickets) && ImplicitChain.Inv(s.chain) && Delivers(s)
    && InOrder(s.visits, s.chain.core.cons, s.tickets.head)
  }

  lemma PendingOne(pc: ImplicitIndex.Consumer, x: nat)
    ensures ImplicitIndex.Pending(pc, x, 1) == if pc == ImplicitIndex.Idle then 0 else Tickets.Covers(pc.i, pc.n, x)
  {}

  /** One step of a consumer: it reads what it stops holding. */
  lemma ConsumeCovers(c: ImplicitIndex.State, u: nat, x: nat)
    requires u < |c.cons|
    ensures var c' := ImplicitIndex.Step(c, ImplicitIndex.Consume(u));
      && |c'.cons| == |c.cons| && c'.cons == c.cons[u := c'.cons[u]]
      && ImplicitIndex.Pending(c'.cons[u], x, 1)
         + (if AtBlock(c, u) then
              var pc := c.cons[u]; Tickets.Covers(pc.i, ImplicitIndex.InBlock(pc.i, pc.n, c.bs), x)
            else 0)
         == ImplicitIndex.Pending(c.cons[u], x, 1)
  {
    var c' := ImplicitIndex.Step(c, ImplicitIndex.Consume(u));
    PendingOne(c.cons[u], x);
    PendingOne(c'.cons[u], x);
    hide ImplicitIndex.Pending, ImplicitIndex.LookUp;
  }

  lemma ConsumeOwns(c: ImplicitIndex.State, u: nat, claims: seq<Tickets.Claim>)
    requires ConsOwn(c.cons, claims)
    ensures ConsOwn(ImplicitIndex.Step(c, ImplicitIndex.Consume(u)).cons, claims)
    ensures AtBlock(c, u) ==>
      var pc := c.cons[u]; Tickets.Owns(claims, u, pc.i, ImplicitIndex.InBlock(pc.i, pc.n, c.bs))
  {
    hide ImplicitIndex.LookUp;
  }

  /** A consumer in front of its block reads the elements of its indices. */
  lemma ReadsElements<T>(s: ImplicitChain.State<T>, t: nat)
    requires ImplicitChain.Inv(s) && AtBlock(s.core, t)
    ensures var pc, cells := s.core.cons[t], CellsRead(s, t);
      |cells| == ImplicitIndex.InBlock(pc.i, pc.n, s.core.bs) && Found(cells, pc.i, s.items)
  {
    var pc, cells := s.core.cons[t], CellsRead(s, t);
    var m := ImplicitIndex.InBlock(pc.i, pc.n, s.core.bs);
    hide ImplicitChain.Inv, AtBlock, ImplicitIndex.InBlock, CellsRead;
    BlockSize(s.core, t);
    SizeRead(s, t);
    if m > 0 { ReadsOne(s, t, m - 1); }
    forall j | 0 <= j < m ensures cells[j] == Full(s.items[pc.i + j]) { ReadsOne(s, t, j); }
  }

  lemma SizeRead<T>(s: ImplicitChain.State<T>, t: nat)
    requires ImplicitChain.Inv(s) && AtBlock(s.core, t)
    ensures |CellsRead(s, t)| == ImplicitIndex.InBlock(s.core.cons[t].i, s.core.cons[t].n, s.core.bs)
  {
    hide ImplicitChain.Inv, ImplicitIndex.ConsumerOk, ImplicitIndex.InBlock;
    var pc := s.core.cons[t];
    BlockSize(s.core, t);
    if ImplicitIndex.InBlock(pc.i, pc.n, s.core.bs) > 0 {
      ImplicitChain.ReadsIn(s, t, pc.i);
      RunSlot(pc.i, pc.n, s.core.bs, 0);
    }
  }

  lemma BlockSize(c: ImplicitIndex.State, t: nat)
    requires AtBlock(c, t)
    ensures c.bs > 0
  {}

  lemma ReadsOne<T>(s: ImplicitChain.State<T>, t: nat, j: nat)
    requires ImplicitChain.Inv(s) && AtBlock(s.core, t) && s.core.bs > 0 && j < |CellsRead(s, t)|
    requires j < ImplicitIndex.InBlock(s.core.cons[t].i, s.core.cons[t].n, s.core.bs)
    ensures var i := s.core.cons[t].i; i + j < |s.items| && CellsRead(s, t)[j] == Full(s.items[i + j])
  {
    hide ImplicitChain.Inv, ImplicitIndex.ConsumerOk, ImplicitIndex.InBlock;
    var pc := s.core.cons[t];
    ImplicitChain.ReadsIn(s, t, pc.i + j);
    RunSlot(pc.i, pc.n, s.core.bs, j);
  }

  /** A run stays within its block. */
  lemma RunSlot(i: nat, n: nat, b: nat, j: nat)
    requires b > 0 && j < ImplicitIndex.InBlock(i, n, b)
    ensures (i + j) % b == i % b + j && i % b + ImplicitIndex.InBlock(i, n, b) <= b
  {
    ImplicitChain.RunInBlock(i, n, b, i + j);
    SameRow(i, i + j, b);
  }

  lemma SameRow(i: nat, x: nat, b: nat)
    requires b > 0 && i / b == x / b
    ensures x % b - i % b == x - i
  {
    assert x == b * (x / b) + x % b && i == b * (i / b) + i % b;
  }

  /** The claim at the end of the ticket protocol. */
  lemma ClaimDelivers<T>(s: State<T>, t: nat)
    requires Inv(s) && Asking(s, t) && s.tickets.pcs[t].AddHead?
    ensures Delivers(Step(s, Go(t)))
  {
    hide Tickets.Inv, ImplicitChain.Inv, CallFits, Step, Tickets.Owns, VisitOk, Tickets.Covers;
    HeadMoves(s, t);
    var s', take := Step(s, Go(t)), s.tickets.pcs[t].take;
    var claims, c := s.tickets.claims, Tickets.Claim(t, s.tickets.head, take);
    forall x: nat
      ensures Times(s'.visits, x) + Holders(s'.chain.core.cons, x) == Tickets.Covers(0, s'.tickets.head, x)
    {
      ClaimCovers(s.chain.core.cons, t, s.tickets.head, take, x);
    }
    forall k | 0 <= k < |s'.visits| ensures VisitOk(s'.visits[k], s'.tickets.items, s'.tickets.claims) {
      ClaimVisit(s.visits[k], s.tickets.items, claims, c);
    }
    Tickets.LastOwns(claims, c);
    forall u | 0 <= u < |s'.chain.core.cons| && s'.chain.core.cons[u] != ImplicitIndex.Idle
      ensures Tickets.Owns(s'.tickets.claims, u, s'.chain.core.cons[u].i, s'.chain.core.cons[u].n)
    {
      if u != t { Tickets.OwnsMore(claims, c, u, s.chain.core.cons[u].i, s.chain.core.cons[u].n); }
    }
  }

  lemma ClaimVisit<T>(v: Visit<T>, items: seq<T>, claims: seq<Tickets.Claim>, c: Tickets.Claim)
    requires VisitOk(v, items, claims)
    ensures VisitOk(v, items, claims + [c])
  {
    Tickets.OwnsMore(claims, c, v.thread, v.first, |v.cells|);
  }

  lemma ClaimCovers(cons: seq<ImplicitIndex.Consumer>, t: nat, head: nat, take: nat, x: nat)
    requires t < |cons| && cons[t] == ImplicitIndex.Idle
    ensures Holders(cons[t := ImplicitIndex.Claimed(head, take)], x) + Tickets.Covers(0, head, x)
         == Holders(cons, x) + Tickets.Covers(0, head + take, x)
  {
    TotalUpdate(cons, ImplicitIndex.PendingW(x, 1), t, ImplicitIndex.Claimed(head, take));
    PendingOne(ImplicitIndex.Claimed(head, take), x);
  }

  /** A consumer's lookups and its visit to a block. */
  lemma LookDelivers<T>(s: State<T>, t: nat)
    requires Inv(s) && !Asking(s, t)
    ensures Delivers(Step(s, Go(t)))
  {
    hide Tickets.Inv, ImplicitChain.Inv, CallFits, ImplicitIndex.Step, ConsOwn;
    var c, claims := s.chain.core, s.tickets.claims;
    ConsumeOwns(c, t, claims);
    var s' := Step(s, Go(t));
    forall x: nat
      ensures Times(s'.visits, x) + Holders(s'.chain.core.cons, x) == Tickets.Covers(0, s'.tickets.head, x)
    {
      LookCovers(s, t, x);
    }
    if AtBlock(c, t) { NewVisit(s, t); }
  }

  lemma NewVisit<T>(s: State<T>, t: nat)
    requires Inv(s) && AtBlock(s.chain.core, t)
    ensures VisitOk(Visit(t, s.chain.core.cons[t].i, CellsRead(s.chain, t)), s.tickets.items, s.tickets.claims)
  {
    ReadsElements(s.chain, t);
    ConsumeOwns(s.chain.core, t, s.tickets.claims);
    hide Tickets.Inv, ImplicitChain.Inv, CallFits, ImplicitIndex.Step, ConsOwn, CellsRead, Once, Tickets.Owns;
  }

  lemma LookCovers<T>(s: State<T>, t: nat, x: nat)
    requires ImplicitChain.Inv(s.chain) && !Asking(s, t)
    ensures var s' := Step(s, Go(t));
      Times(s'.visits, x) + Holders(s'.chain.core.cons, x) == Times(s.visits, x) + Holders(s.chain.core.cons, x)
  {
    hide ImplicitChain.Inv, ImplicitIndex.Step, CellsRead, Tickets.Covers;
    var c := s.chain.core;
    if t < |c.cons| {
      ConsumeCovers(c, t, x);
      TotalUpdate(c.cons, ImplicitIndex.PendingW(x, 1), t,
                  ImplicitIndex.Step(c, ImplicitIndex.Consume(t)).cons[t]);
      if AtBlock(c, t) {
        ReadsElements(s.chain, t);
        TotalAppend(s.visits, VisitsW(x), Visit(t, c.cons[t].i, CellsRead(s.chain, t)));
      }
    } else {
      NobodyThere(c, t);
    }
  }

  lemma NobodyThere(c: ImplicitIndex.State, u: nat)
    requires u >= |c.cons|
    ensures ImplicitIndex.Step(c, ImplicitIndex.Consume(u)) == c
  {}

  lemma VisitsStay<T>(visits: seq<Visit<T>>, items: seq<T>, more: seq<T>, claims: seq<Tickets.Claim>)
    requires VisitsOk(visits, items, claims)
    ensures VisitsOk(visits, items + more, claims)
  {
    hide VisitOk;
    forall k | 0 <= k < |visits| ensures VisitOk(visits[k], items + more, claims) {
      VisitStays(visits[k], items, more, claims);
    }
  }

  lemma VisitStays<T>(v: Visit<T>, items: seq<T>, more: seq<T>, claims: seq<Tickets.Claim>)
    requires VisitOk(v, items, claims)
    ensures VisitOk(v, items + more, claims)
  {
    hide Tickets.Owns;
  }

  lemma ProducedTickets<T>(s: State<T>, p: ImplicitChain.Action<T>)
    ensures var s' := Step(s, Produce(p));
      && s'.tickets == s.tickets.(items := s.tickets.items + News(s.chain.items, s'.chain.items))
      && s'.visits == s.visits
  {
    hide ChainNext, News;
  }

  lemma ProducedCons<T>(s: State<T>, p: ImplicitChain.Action<T>)
    requires CallFits(s.chain)
    ensures Step(s, Produce(p)).chain.core.cons == s.chain.core.cons
  {
    hide CallFits, ImplicitChain.Step, TicketsNext, VisitsNext, News;
    match p
    case Insert(xs, single) => InsertFits(s.chain, xs, single);
    case Go(ok, full, block) => GoFits(s.chain, ok, full, block);
    case Scribble(b, link, row) => ScribbleFits(s.chain, b, link, row);
    case Others(_) =>
  }

  lemma ProduceDelivers<T>(s: State<T>, p: ImplicitChain.Action<T>)
    requires Inv(s)
    ensures Delivers(Step(s, Produce(p)))
  {
    hide Tickets.Inv, ImplicitChain.Inv, CallFits, Step, Once, ConsOwn, VisitsOk;
    ProducedTickets(s, p);
    ProducedCons(s, p);
    VisitsStay(s.visits, s.chain.items, News(s.chain.items, Step(s, Produce(p)).chain.items), s.tickets.claims);
  }

  /** A step of a consumer moves it on by what it reads. */
  lemma ConsumeMovesOn(c: ImplicitIndex.State, u: nat)
    requires u < |c.cons|
    ensures var c' := ImplicitIndex.Step(c, ImplicitIndex.Consume(u));
      var pc, pc' := c.cons[u], c'.cons[u];
      && c'.cons == c.cons[u := pc'] && (pc == ImplicitIndex.Idle ==> pc' == pc)
      && var m: nat := if AtBlock(c, u) then ImplicitIndex.InBlock(pc.i, pc.n, c.bs) else 0;
      pc != ImplicitIndex.Idle ==>
        m <= pc.n && (pc' != ImplicitIndex.Idle ==> pc'.i == pc.i + m && pc'.n == pc.n - m)
  {
    hide ImplicitIndex.LookUp;
  }

  lemma OrderMoves<T>(visits: seq<Visit<T>>, cons: seq<ImplicitIndex.Consumer>, head: nat, t: nat, m: nat,
                      pc: ImplicitIndex.Consumer)
    requires InOrder(visits, cons, head) && t < |cons| && (cons[t] == ImplicitIndex.Idle ==> pc == cons[t])
    requires cons[t] != ImplicitIndex.Idle && pc != ImplicitIndex.Idle ==>
      m <= cons[t].n && pc.i == cons[t].i + m && pc.n == cons[t].n - m
    ensures InOrder(visits, cons[t := pc], head)
  {
    hide Ascending;
    forall k | 0 <= k < |visits| ensures Behind(visits[k], cons[t := pc], head) {
      assert Behind(visits[k], cons, head);
    }
  }

  lemma OrderVisits<T>(visits: seq<Visit<T>>, cons: seq<ImplicitIndex.Consumer>, head: nat, v: Visit<T>,
                       pc: ImplicitIndex.Consumer)
    requires InOrder(visits, cons, head) && v.thread < |cons| && cons[v.thread] != ImplicitIndex.Idle
    requires v.first == cons[v.thread].i && |v.cells| <= cons[v.thread].n
    requires pc != ImplicitIndex.Idle ==> pc.i == v.first + |v.cells| && pc.n == cons[v.thread].n - |v.cells|
    ensures InOrder(visits + [v], cons[v.thread := pc], head)
  {
    OrderMoves(visits, cons, head, v.thread, |v.cells|, pc);
    forall k | 0 <= k < |visits| ensures Behind(visits[k], cons, head) {}
  }

  lemma OrderClaims<T>(visits: seq<Visit<T>>, cons: seq<ImplicitIndex.Consumer>, head: nat, t: nat, take: nat)
    requires InOrder(visits, cons, head) && t < |cons| && cons[t] == ImplicitIndex.Idle
    ensures InOrder(visits, cons[t := ImplicitIndex.Claimed(head, take)], head + take)
  {
    hide Ascending;
    forall k | 0 <= k < |visits|
      ensures Behind(visits[k], cons[t := ImplicitIndex.Claimed(head, take)], head + take)
    {
      assert Behind(visits[k], cons, head);
    }
  }

  lemma LookOrder<T>(s: State<T>, t: nat)
    requires Inv(s) && !Asking(s, t)
    ensures var s' := Step(s, Go(t)); InOrder(s'.visits, s'.chain.core.cons, s'.tickets.head)
  {
    hide Agree, Tickets.Inv, ImplicitChain.Inv, Delivers, InOrder, ImplicitIndex.Step, CellsRead;
    hide ImplicitIndex.InBlock, ImplicitIndex.ConsumerOk;
    var c, head := s.chain.core, s.tickets.head;
    if t < |c.cons| {
      ConsumeMovesOn(c, t);
      var pc := ImplicitIndex.Step(c, ImplicitIndex.Consume(t)).cons[t];
      if AtBlock(c, t) {
        ReadsElements(s.chain, t);
        OrderVisits(s.visits, c.cons, head, Visit(t, c.cons[t].i, CellsRead(s.chain, t)), pc);
      } else {
        OrderMoves(s.visits, c.cons, head, t, 0, pc);
      }
    } else {
      NobodyThere(c, t);
    }
  }

  lemma ClaimOrder<T>(s: State<T>, t: nat)
    requires Inv(s) && Asking(s, t) && s.tickets.pcs[t].AddHead?
    ensures var s' := Step(s, Go(t)); InOrder(s'.visits, s'.chain.core.cons, s'.tickets.head)
  {
    hide Tickets.Inv, ImplicitChain.Inv, Delivers, Step, InOrder;
    HeadMoves(s, t);
    OrderClaims(s.visits, s.chain.core.cons, s.tickets.head, t, s.tickets.pcs[t].take);
  }

  lemma OtherOrder<T>(s: State<T>, a: Action<T>)
    requires Inv(s)
    requires a.Call? || a.Produce? || (a.Go? && Asking(s, a.t) && !s.tickets.pcs[a.t].AddHead?)
    ensures var s' := Step(s, a); InOrder(s'.visits, s'.chain.core.cons, s'.tickets.head)
  {
    if a.Go? { Tickets.TicketStep(s.tickets, a.t); }
    if a.Produce? { ProducedCons(s, a.a); ProducedTickets(s, a.a); }
    hide Agree, Tickets.Inv, ImplicitChain.Inv, Delivers, InOrder, ImplicitChain.Step, Tickets.Advance;
  }

  lemma AskDelivers<T>(s: State<T>, a: Action<T>)
    requires Inv(s) && (a.Call? || (a.Go? && Asking(s, a.t) && !s.tickets.pcs[a.t].AddHead?))
    ensures Delivers(Step(s, a))
  {
    if a.Go? { Tickets.TicketStep(s.tickets, a.t); hide Tickets.Step; }
    hide Tickets.Inv, ImplicitChain.Inv, CallFits, Once, ConsOwn, VisitsOk;
  }

  lemma StepKeeps<T>(s: State<T>, a: Action<T>)
    requires Inv(s) && Careful(s, a)
    ensures Inv(Step(s, a))
  {
    hide Agree, Tickets.Inv, ImplicitChain.Inv, Delivers, InOrder;
    hide ImplicitChain.Step, Tickets.Step, ImplicitChain.Careful, VisitsNext;
    StepAgrees(s, a);
    match ChainAction(s, a) {
      case None =>
      case Some(p) => ImplicitChain.StepKeeps(s.chain, p);
    }
    match a
    case Call(_, _) => AskDelivers(s, a); OtherOrder(s, a);
    case Go(t) =>
      if !Asking(s, t) { LookDelivers(s, t); LookOrder(s, t); }
      else if s.tickets.pcs[t].AddHead? { ClaimDelivers(s, t); ClaimOrder(s, t); }
      else { AskDelivers(s, a); OtherOrder(s, a); }
    case Produce(p) => ProduceDelivers(s, p); OtherOrder(s, a);
  }

  lemma {:induction false} RunKeeps<T>(s: State<T>, schedule: seq<Action<T>>)
    requires Inv(s) && CarefulRun(s, schedule)
    ensures Inv(Run(s, schedule))
    decreases |schedule|
  {
    hide Inv, Step, Careful;
    if schedule != [] {
      StepKeeps(s, schedule[0]);
      RunKeeps(Step(s, schedule[0]), schedule[1..]);
    }
  }

  lemma StartInv<T>(s: State<T>, capacity: nat)
    requires Init(s, capacity)
    ensures Inv(s)
  {
    ImplicitChain.StartInv(s.chain, capacity);
    ReachableAgrees(s, capacity, []);
    forall x: nat ensures Times(s.visits, x) + Holders(s.chain.core.cons, x) == Tickets.Covers(0, s.tickets.head, x) {
      TotalZero(s.chain.core.cons, ImplicitIndex.PendingW(x, 1));
    }
    hide ImplicitChain.Inv, Tickets.Inv, Agree;
  }

  /** In every run of producer and consumers, with the index growing, blocks being recycled, claims overlapping
      and calls failing for want of memory: each index handed out has been read once, or one consumer has still to
      read it, and no other index has been read; and a read found the element published under its index, which the
      reader's own claim contains.  Each thread reads in the order in which the elements were enqueued. */
  lemma DeliveredOnce<T>(s0: State<T>, capacity: nat, schedule: seq<Action<T>>, x: nat)
    requires Init(s0, capacity) && CarefulRun(s0, schedule)
    ensures var s := Run(s0, schedule);
      && Times(s.visits, x) + Holders(s.chain.core.cons, x) == (if x < s.tickets.head then 1 else 0)
      && s.tickets.head <= |s.tickets.items| && s.tickets.items == s.chain.items
      && (forall k :: 0 <= k < |s.visits| ==> VisitOk(s.visits[k], s.tickets.items, s.tickets.claims))
      && Ascending(s.visits)
  {
    hide Inv, Init, VisitOk, CarefulRun, Ascending;
    StartInv(s0, capacity);
    RunKeeps(s0, schedule);
    Conclude(Run(s0, schedule), x);
  }

  lemma Conclude<T>(s: State<T>, x: nat)
    requires Inv(s)
    ensures Times(s.visits, x) + Holders(s.chain.core.cons, x) == (if x < s.tickets.head then 1 else 0)
    ensures s.tickets.head <= |s.tickets.items| && s.tickets.items == s.chain.items
    ensures VisitsOk(s.visits, s.tickets.items, s.tickets.claims) && Ascending(s.visits)
  {
    Tickets.TicketsFit(s.tickets);
    hide Tickets.Inv, ImplicitChain.Inv, VisitsOk, Times, Holders, Ascending;
  }

  /** When no call is in flight, every element below the head has been read exactly once, and none above it. */
  lemma SettledDelivery<T>(s0: State<T>, capacity: nat, schedule: seq<Action<T>>, x: nat)
    requires Init(s0, capacity) && CarefulRun(s0, schedule)
    requires forall t :: 0 <= t < |Run(s0, schedule).chain.core.cons| ==> !Looking(Run(s0, schedule), t)
    ensures var s := Run(s0, schedule); Times(s.visits, x) == if x < s.tickets.head then 1 else 0
  {
    var s := Run(s0, schedule);
    DeliveredOnce(s0, capacity, schedule, x);
    forall t | 0 <= t < |s.chain.core.cons| ensures s.chain.core.cons[t] == ImplicitIndex.Idle {
      assert !Looking(s, t);
    }
    TotalZero(s.chain.core.cons, ImplicitIndex.PendingW(x, 1));
    hide Init, CarefulRun, Run;
  }

  // ---------------------------------------------------------------- calls that ask for something

  /** The thread asks for something, and if it claims, claims something. */
  predicate Keen(pc: Tickets.Pc) {
    match pc
    case Idle => true
    case LoadTail(max) => max > 0
    case LoadOver(max, _) => max > 0
    case LoadOpt(max, _, _) => max > 0
    case AddOpt(desired, _) => desired > 0
    case Reload(desired, _, _) => desired > 0
    case AddOver(_, take, backed) => backed ==> take > 0
    case AddHead(take) => take > 0
  }

  lemma StaysKeen<T>(s: Tickets.State<T>, a: Tickets.Action<T>, u: nat)
    requires (u < |s.pcs| ==> Keen(s.pcs[u])) && (a.Call? ==> a.max > 0)
    ensures var s' := Tickets.Step(s, a); |s'.pcs| == |s.pcs| && (u < |s.pcs| ==> Keen(s'.pcs[u]))
  {
    hide Tickets.Advance, Keen;
    match a
    case Publish(_) =>
    case Call(t, max) => assert Keen(Tickets.LoadTail(max)) by { AskingIsKeen(max); }
    case Go(t) =>
      if t < |s.pcs| {
        OwnTicket(s, t);
        if t == u { AdvanceKeen(s, t); }
      }
  }

  lemma AskingIsKeen(max: nat)
    requires max > 0
    ensures Keen(Tickets.LoadTail(max))
  {}

  lemma OwnTicket<T>(s: Tickets.State<T>, t: nat)
    requires t < |s.pcs|
    ensures Tickets.Advance(s, t).pcs == s.pcs[t := Tickets.Advance(s, t).pcs[t]]
  {}

  lemma AdvanceKeen<T>(s: Tickets.State<T>, t: nat)
    requires t < |s.pcs| && Keen(s.pcs[t])
    ensures t < |Tickets.Advance(s, t).pcs| && Keen(Tickets.Advance(s, t).pcs[t])
  {}

  ghost predicate AllKeen<T>(s: State<T>) {
    && (forall t :: 0 <= t < |s.tickets.pcs| ==> Keen(s.tickets.pcs[t]))
    && (forall u :: 0 <= u < |s.chain.core.cons| ==> !ImplicitIndex.AsksNothing(s.chain.core.cons[u]))
  }

  /** If every call asks for something, all are careful: the condition of the theorems above, and of those of
      modules ImplicitChain and ImplicitIndex, comes down to calling with max > 0. */
  lemma PositiveCallsAreCareful<T>(s0: State<T>, capacity: nat, schedule: seq<Action<T>>)
    requires Init(s0, capacity)
    requires forall a :: a in schedule && a.Call? ==> a.max > 0
    ensures CarefulRun(s0, schedule)
  {
    KeenRun(s0, schedule);
  }

  lemma {:induction false} KeenRun<T>(s: State<T>, schedule: seq<Action<T>>)
    requires AllKeen(s)
    requires forall a :: a in schedule && a.Call? ==> a.max > 0
    ensures CarefulRun(s, schedule)
    decreases |schedule|
  {
    hide Step, AllKeen, Careful;
    if schedule != [] {
      KeenStep(s, schedule[0]);
      KeenRun(Step(s, schedule[0]), schedule[1..]);
    }
  }

  lemma KeenStep<T>(s: State<T>, a: Action<T>)
    requires AllKeen(s) && (a.Call? ==> a.max > 0)
    ensures AllKeen(Step(s, a)) && Careful(s, a)
  {
    TicketsKeen(s, a);
    ClaimsKeen(s, a);
    hide ChainNext, TicketsNext, Keen, ImplicitIndex.AsksNothing;
  }

  lemma TicketsKeen<T>(s: State<T>, a: Action<T>)
    requires AllKeen(s) && (a.Call? ==> a.max > 0)
    ensures var s' := TicketsNext(s, a); forall t :: 0 <= t < |s'.pcs| ==> Keen(s'.pcs[t])
  {
    hide ImplicitIndex.AsksNothing, ImplicitChain.Step, Tickets.Step, Keen;
    var s' := TicketsNext(s, a);
    match TicketAction(s, a)
    case None =>
    case Some(p) => forall t | 0 <= t < |s'.pcs| ensures Keen(s'.pcs[t]) { StaysKeen(s.tickets, p, t); }
  }

  lemma ClaimsKeen<T>(s: State<T>, a: Action<T>)
    requires AllKeen(s)
    ensures var c' := ChainNext(s, a).core; forall u :: 0 <= u < |c'.cons| ==> !ImplicitIndex.AsksNothing(c'.cons[u])
  {
    hide ImplicitIndex.AsksNothing, ImplicitChain.Step;
    var c' := ChainNext(s, a).core;
    match ChainAction(s, a)
    case None =>
    case Some(p) =>
      forall u | 0 <= u < |c'.cons| ensures !ImplicitIndex.AsksNothing(c'.cons[u]) {
        ImplicitChain.StillAsksHere(s.chain, p, u);
      }
  }
}
