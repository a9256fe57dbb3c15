/** Whole dequeues from an explicit producer: the machines of modules Tickets and StableLookup as one.

    As in module ImplicitDequeue, the fetch_add of the head that ends the ticket protocol is, in the same step,
    the claim with which a consumer's lookup begins, and the store of the tail is what the ticket protocol sees as
    publishing.  `results` is bookkeeping: what finished calls have returned. */
module ExplicitDequeue {
  import opened Sums
  import opened Wrappers
  import StableLookup
  import Tickets

  /** The elements of the indices from `first` on, as a call returned them. */
  datatype Result<T> = Result(thread: nat, first: nat, xs: seq<T>)

  datatype State<T> = State(tickets: Tickets.State<T>, lookup: StableLookup.State<T>, results: seq<Result<T>>)

  /** Call: a consumer asks for up to `max` elements.  Go: it takes its next step, or returns. */
  datatype Action<T> =
    | Call(t: nat, max: nat)
    | Go(t: nat)
    | Enqueue(xs: seq<T>)
    | Produce(reuse: bool)

  /** The consumer is still taking tickets. */
  predicate Asking<T>(s: State<T>, t: nat) { t < |s.tickets.pcs| && s.tickets.pcs[t] != Tickets.Idle }

  /** The consumer is working through its claim. */
  predicate Looking<T>(s: State<T>, t: nat) { t < |s.lookup.cons| && !s.lookup.cons[t].Idle? }

  predicate Returning<T>(s: State<T>, a: Action<T>) {
    a.Go? && !Asking(s, a.t) && a.t < |s.lookup.cons| && s.lookup.cons[a.t].Done?
  }

  /** What the action does in the machine underneath. */
  function LookupAction<T>(s: State<T>, a: Action<T>): Option<StableLookup.Action<T>> {
    match a
    case Call(_, _) => None
    case Go(t) =>
      if Returning(s, a) then Some(StableLookup.Return(t))
      else if !Asking(s, t) then Some(StableLookup.Consume(t))
      else if s.tickets.pcs[t].AddHead? then Some(StableLookup.Claim(t, s.tickets.pcs[t].take))
      else None
    case Enqueue(xs) => Some(StableLookup.Enqueue(xs))
    case Produce(reuse) => Some(StableLookup.Produce(reuse))
  }

  function LookupNext<T>(s: State<T>, a: Action<T>): StableLookup.State<T> {
    match LookupAction(s, a)
    case None => s.lookup
    case Some(p) => StableLookup.Step(s.lookup, p)
  }

  /** The elements between the tails. */
  function News<T>(c: StableLookup.State<T>, c': StableLookup.State<T>): seq<T> {
    if c.tail <= c'.tail <= |c'.items| then c'.items[c.tail..c'.tail] else []
  }

  function TicketAction<T>(s: State<T>, a: Action<T>): Option<Tickets.Action<T>> {
    match a
    case Call(t, max) => if Looking(s, t) then None else Some(Tickets.Call(t, max))
    case Go(t) => if Asking(s, t) then Some(Tickets.Go(t)) else None
    case Enqueue(_) => Some(Tickets.Publish(News(s.lookup, LookupNext(s, a))))
    case Produce(_) => Some(Tickets.Publish(News(s.lookup, LookupNext(s, a))))
  }

  function TicketsNext<T>(s: State<T>, a: Action<T>): Tickets.State<T> {
    match TicketAction(s, a)
    case None => s.tickets
    case Some(p) => Tickets.Step(s.tickets, p)
  }

  function ResultsNext<T>(s: State<T>, a: Action<T>): seq<Result<T>> {
    if Returning(s, a) then s.results + [Result(a.t, s.lookup.cons[a.t].first, s.lookup.cons[a.t].got)]
    else s.results
  }

  function Step<T>(s: State<T>, a: Action<T>): State<T> {
    State(TicketsNext(s, a), LookupNext(s, a), ResultsNext(s, a))
  }

  function Run<T>(s: State<T>, schedule: seq<Action<T>>): State<T>
    decreases |schedule|
  {
    if schedule == [] then s else Run(Step(s, schedule[0]), schedule[1..])
  }

  ghost predicate Init<T>(s: State<T>, size: nat) {
    && Tickets.Init(s.tickets) && StableLookup.Init(s.lookup, size) && s.results == []
    && |s.tickets.pcs| == |s.lookup.cons|
  }

  // ---------------------------------------------------------------- the two machines underneath

  function LookupSchedule<T>(s: State<T>, schedule: seq<Action<T>>): seq<StableLookup.Action<T>>
    decreases |schedule|
  {
    if schedule == [] then []
    else
      var rest := LookupSchedule(Step(s, schedule[0]), schedule[1..]);
      match LookupAction(s, schedule[0])
      case None => rest
      case Some(p) => [p] + rest
  }

  function TicketSchedule<T>(s: State<T>, schedule: seq<Action<T>>): seq<Tickets.Action<T>>
    decreases |schedule|
  {
    if schedule == [] then []
    else
      var rest := TicketSchedule(Step(s, schedule[0]), schedule[1..]);
      match TicketAction(s, schedule[0])
      case None => rest
      case Some(p) => [p] + rest
  }

  /** A run is a run of each of the two machines. */
  lemma {:induction false} RunsTogether<T>(s: State<T>, schedule: seq<Action<T>>)
    ensures Run(s, schedule).lookup == StableLookup.Run(s.lookup, LookupSchedule(s, schedule))
    ensures Run(s, schedule).tickets == Tickets.Run(s.tickets, TicketSchedule(s, schedule))
    decreases |schedule|
  {
    hide Tickets.Step, StableLookup.Step, ResultsNext;
    if schedule != [] { RunsTogether(Step(s, schedule[0]), schedule[1..]); }
  }

  // ---------------------------------------------------------------- the shared words stay in step

  predicate TurnOk<T>(pc: Tickets.Pc, con: StableLookup.Consumer<T>, tail: nat) {
    (pc == Tickets.Idle || con.Idle?) && (Tickets.Informed(pc) ==> tail > 0)
  }

  ghost predicate Agree<T>(s: State<T>) {
    && s.lookup.tail <= |s.lookup.items| && s.tickets.items == s.lookup.items[..s.lookup.tail]
    && s.tickets.head == s.lookup.head && |s.tickets.pcs| == |s.lookup.cons|
    && forall t :: 0 <= t < |s.tickets.pcs| ==> TurnOk(s.tickets.pcs[t], s.lookup.cons[t], s.lookup.tail)
  }

  /** The producer publishes behind what it has published, and leaves the consumers alone. */
  ghost predicate Produced<T>(c: StableLookup.State<T>, c': StableLookup.State<T>) {
    && c.tail <= |c.items| && c.tail <= c'.tail <= |c'.items|
    && c'.items[..c'.tail] == c.items[..c.tail] + News(c, c')
    && c'.cons == c.cons && c'.head == c.head
  }

  lemma ProduceFits<T>(c: StableLookup.State<T>, p: StableLookup.Action<T>)
    requires c.tail <= |c.items| && (p.Enqueue? || p.Produce?)
    ensures Produced(c, StableLookup.Step(c, p))
  {
    ProduceLight(c, p);
    hide StableLookup.Step;
  }

  lemma ProduceLight<T>(c: StableLookup.State<T>, p: StableLookup.Action<T>)
    requires p.Enqueue? || p.Produce?
    ensures var c' := StableLookup.Step(c, p);
      && c'.cons == c.cons && c'.head == c.head && (c'.tail == c.tail || c'.tail == |c'.items|)
      && |c.items| <= |c'.items| && c.items == c'.items[..|c.items|]
  {
    hide StableLookup.Copied, StableLookup.ProducerOk;
  }

  lemma ConsumeMoves<T>(c: StableLookup.State<T>, p: StableLookup.Action<T>)
    requires p.Consume? || p.Return?
    ensures var c' := StableLookup.Step(c, p);
      && |c'.cons| == |c.cons| && (forall v :: 0 <= v < |c.cons| && v != p.u ==> c'.cons[v] == c.cons[v])
      && c'.head == c.head && c'.tail == c.tail && c'.items == c.items
  {}

  lemma AskAgrees<T>(s: State<T>, t: nat)
    requires Agree(s) && Tickets.Inv(s.tickets) && Asking(s, t) && !s.tickets.pcs[t].AddHead?
    ensures Agree(Step(s, Go(t)))
  {
    Tickets.TicketStep(s.tickets, t);
    if s.tickets.pcs[t].Reload? && Tickets.Tail(s.tickets) > s.tickets.pcs[t].mine - s.tickets.pcs[t].over {
      Tickets.BackedMeansPublished(s.tickets, t);
    }
    hide Tickets.Inv, Tickets.Step, StableLookup.Step;
  }

  /** The move of the head is a claim that the lookup accepts. */
  lemma HeadMoves<T>(s: State<T>, t: nat)
    requires Agree(s) && Tickets.Inv(s.tickets) && Asking(s, t) && s.tickets.pcs[t].AddHead?
    ensures var head, take, s' := s.tickets.head, s.tickets.pcs[t].take, Step(s, Go(t));
      && s.lookup.cons[t].Idle?
      && s'.tickets == s.tickets.(head := head + take, pcs := s.tickets.pcs[t := Tickets.Idle],
                                  claims := s.tickets.claims + [Tickets.Claim(t, head, take)],
                                  results := s'.tickets.results)
      && s'.lookup == s.lookup.(head := head + take,
                                cons := s.lookup.cons[t := StableLookup.Claimed(head, head + take)])
      && s'.results == s.results
  {
    Tickets.ClaimFits(s.tickets, t);
    hide Tickets.Inv;
  }

  lemma HeadAgrees<T>(s: State<T>, t: nat)
    requires Agree(s) && Tickets.Inv(s.tickets) && Asking(s, t) && s.tickets.pcs[t].AddHead?
    ensures Agree(Step(s, Go(t)))
  {
    hide Tickets.Inv, Step;
    HeadMoves(s, t);
  }

  lemma LookAgrees<T>(s: State<T>, t: nat)
    requires Agree(s) && !Asking(s, t)
    ensures Agree(Step(s, Go(t)))
  {
    ConsumeMoves(s.lookup, LookupAction(s, Go(t)).value);
    hide StableLookup.Step;
  }

  lemma ProduceAgrees<T>(s: State<T>, a: Action<T>)
    requires Agree(s) && (a.Enqueue? || a.Produce?)
    ensures Agree(Step(s, a))
  {
    ProduceFits(s.lookup, LookupAction(s, a).value);
    hide StableLookup.Step, News;
  }

  lemma StepAgrees<T>(s: State<T>, a: Action<T>)
    requires Agree(s) && Tickets.Inv(s.tickets)
    ensures Agree(Step(s, a)) && Tickets.Inv(Step(s, a).tickets)
  {
    hide Tickets.Inv;
    match TicketAction(s, a) {
      case None =>
      case Some(p) => Tickets.StepKeeps(s.tickets, p);
    }
    match a
    case Call(t, max) =>
    case Go(t) =>
      if !Asking(s, t) { LookAgrees(s, t); }
      else if s.tickets.pcs[t].AddHead? { HeadAgrees(s, t); }
      else { AskAgrees(s, t); }
    case Enqueue(_) => ProduceAgrees(s, a);
    case Produce(_) => ProduceAgrees(s, a);
  }

  // ---------------------------------------------------------------- every element is returned once

  function ResultsW<T>(x: nat): Result<T> -> nat { (r: Result<T>) => Tickets.Covers(r.first, |r.xs|, x) }

  /** How often the element of index x has been returned. */
  function Times<T>(results: seq<Result<T>>, x: nat): nat { Total(results, ResultsW(x)) }

  function Holds<T>(pc: StableLookup.Consumer<T>, x: nat): nat {
    if !pc.Idle? && pc.first <= x < pc.end then 1 else 0
  }

  function HoldsW<T>(x: nat): StableLookup.Consumer<T> -> nat { (pc: StableLookup.Consumer<T>) => Holds(pc, x) }

  /** How many calls in flight have claimed index x. */
  function Holders<T>(cons: seq<StableLookup.Consumer<T>>, x: nat): nat { Total(cons, HoldsW(x)) }

  /** Each index below the head has been returned once or is claimed by one call in flight. */
  ghost predicate Once<T>(results: seq<Result<T>>, cons: seq<StableLookup.Consumer<T>>, head: nat) {
    forall x: nat :: Times(results, x) + Holders(cons, x) == Tickets.Covers(0, head, x)
  }

  /** A call returned the elements of a claim of its thread. */
  ghost predicate ResultOk<T>(r: Result<T>, items: seq<T>, claims: seq<Tickets.Claim>) {
    && r.first + |r.xs| <= |items| && r.xs == items[r.first..r.first + |r.xs|]
    && Tickets.Claim(r.thread, r.first, |r.xs|) in claims
  }

  ghost predicate ResultsOk<T>(results: seq<Result<T>>, items: seq<T>, claims: seq<Tickets.Claim>) {
    forall k :: 0 <= k < |results| ==> ResultOk(results[k], items, claims)
  }

  ghost predicate ConsOwn<T>(cons: seq<StableLookup.Consumer<T>>, claims: seq<Tickets.Claim>) {
    forall t :: 0 <= t < |cons| && !cons[t].Idle? ==>
      cons[t].first <= cons[t].end && Tickets.Claim(t, cons[t].first, cons[t].end - cons[t].first) in claims
  }

  ghost predicate Delivers<T>(s: State<T>) {
    && Once(s.results, s.lookup.cons, s.tickets.head)
    && ResultsOk(s.results, s.tickets.items, s.tickets.claims) && ConsOwn(s.lookup.cons, s.tickets.claims)
  }

  ghost predicate LookupInv<T>(c: StableLookup.State<T>) {
    StableLookup.Inv(c) && StableLookup.FrontsInv(c) && StableLookup.HollowsInv(c)
  }

  /** A result lies behind the head, and behind what its thread has claimed since. */
  predicate Behind<T>(r: Result<T>, cons: seq<StableLookup.Consumer<T>>, head: nat) {
    var end := r.first + |r.xs|;
    && end <= head && r.thread < |cons|
    && (!cons[r.thread].Idle? ==> end <= cons[r.thread].first)
  }

  predicate ConsBehind<T>(cons: seq<StableLookup.Consumer<T>>, head: nat) {
    forall t :: 0 <= t < |cons| && !cons[t].Idle? ==> cons[t].end <= head
  }

  /** Each thread's results are in the order of their indices. */
  predicate Ascending<T>(results: seq<Result<T>>) {
    forall k, m :: 0 <= k < m < |results| && results[k].thread == results[m].thread ==>
      results[k].first + |results[k].xs| <= results[m].first
  }

  ghost predicate InOrder<T>(results: seq<Result<T>>, cons: seq<StableLookup.Consumer<T>>, head: nat) {
    Ascending(results) && ConsBehind(cons, head) && forall k :: 0 <= k < |results| ==> Behind(results[k], cons, head)
  }

  ghost predicate Inv<T>(s: State<T>) {
    && Agree(s) && Tickets.Inv(s.tickets) && LookupInv(s.lookup) && Delivers(s)
    && InOrder(s.results, s.lookup.cons, s.tickets.head)
  }

  /** The call at the end of its lookup has the elements of its claim. */
  lemma DoneHas<T>(c: StableLookup.State<T>, u: nat)
    requires LookupInv(c) && u < |c.cons| && c.cons[u].Done?
    ensures var pc := c.cons[u]; pc.first <= pc.end <= c.tail <= |c.items| && pc.got == c.items[pc.first..pc.end]
  {
    hide StableLookup.IndexInv, StableLookup.BlocksInv, StableLookup.FlagsInv, StableLookup.RingInv,
      StableLookup.CellsInv;
  }

  /** A consumer's step leaves its claim alone; returning ends it. */
  lemma ClaimStays<T>(c: StableLookup.State<T>, u: nat)
    requires u < |c.cons|
    ensures var c' := StableLookup.Step(c, StableLookup.Consume(u)); var pc, pc' := c.cons[u], c'.cons[u];
      && c'.cons == c.cons[u := pc'] && pc'.Idle? == pc.Idle?
      && (!pc.Idle? ==> pc'.first == pc.first && pc'.end == pc.end)
  {}

  lemma ClaimCovers<T>(cons: seq<StableLookup.Consumer<T>>, t: nat, head: nat, take: nat, x: nat)
    requires t < |cons| && cons[t].Idle?
    ensures Holders(cons[t := StableLookup.Claimed(head, head + take)], x) + Tickets.Covers(0, head, x)
         == Holders(cons, x) + Tickets.Covers(0, head + take, x)
  {
    TotalUpdate(cons, HoldsW(x), t, StableLookup.Claimed(head, head + take));
  }

  /** The claim at the end of the ticket protocol. */
  lemma ClaimDelivers<T>(s: State<T>, t: nat)
    requires Inv(s) && Asking(s, t) && s.tickets.pcs[t].AddHead?
    ensures Delivers(Step(s, Go(t)))
  {
    hide Tickets.Inv, LookupInv, Step, Tickets.Covers;
    HeadMoves(s, t);
    var s', take := Step(s, Go(t)), s.tickets.pcs[t].take;
    forall x: nat
      ensures Times(s'.results, x) + Holders(s'.lookup.cons, x) == Tickets.Covers(0, s'.tickets.head, x)
    {
      ClaimCovers(s.lookup.cons, t, s.tickets.head, take, x);
    }
  }

  /** A consumer's lookups, and the end of its call. */
  lemma LookDelivers<T>(s: State<T>, t: nat)
    requires Inv(s) && !Asking(s, t) && !Returning(s, Go(t))
    ensures Delivers(Step(s, Go(t)))
  {
    hide Tickets.Inv, LookupInv, StableLookup.Step, Tickets.Covers;
    var c, s' := s.lookup, Step(s, Go(t));
    ConsumeMoves(c, StableLookup.Consume(t));
    if t < |c.cons| {
      ClaimStays(c, t);
      forall x: nat
        ensures Times(s'.results, x) + Holders(s'.lookup.cons, x) == Tickets.Covers(0, s'.tickets.head, x)
      {
        TotalUpdate(c.cons, HoldsW(x), t, s'.lookup.cons[t]);
      }
    } else {
      assert s'.lookup.cons == c.cons;
    }
  }

  lemma ReturnDelivers<T>(s: State<T>, t: nat)
    requires Inv(s) && Returning(s, Go(t))
    ensures Delivers(Step(s, Go(t)))
  {
    hide Tickets.Inv, LookupInv, Tickets.Covers;
    var c, s', pc := s.lookup, Step(s, Go(t)), s.lookup.cons[t];
    DoneHas(c, t);
    ConsumeMoves(c, StableLookup.Return(t));
    forall x: nat
      ensures Times(s'.results, x) + Holders(s'.lookup.cons, x) == Tickets.Covers(0, s'.tickets.head, x)
    {
      ReturnCovers(s, t, x);
    }
    NewResult(s, t);
  }

  lemma ReturnCovers<T>(s: State<T>, t: nat, x: nat)
    requires LookupInv(s.lookup) && Returning(s, Go(t))
    ensures var s' := Step(s, Go(t));
      Times(s'.results, x) + Holders(s'.lookup.cons, x) == Times(s.results, x) + Holders(s.lookup.cons, x)
  {
    hide LookupInv;
    var c, pc := s.lookup, s.lookup.cons[t];
    DoneHas(c, t);
    TotalUpdate(c.cons, HoldsW(x), t, StableLookup.Idle);
    TotalAppend(s.results, ResultsW(x), Result(t, pc.first, pc.got));
  }

  lemma NewResult<T>(s: State<T>, t: nat)
    requires Inv(s) && Returning(s, Go(t))
    ensures var pc := s.lookup.cons[t];
      ResultOk(Result(t, pc.first, pc.got), s.tickets.items, s.tickets.claims)
  {
    hide Tickets.Inv, LookupInv;
    DoneHas(s.lookup, t);
  }

  lemma ResultsStay<T>(results: seq<Result<T>>, items: seq<T>, more: seq<T>, claims: seq<Tickets.Claim>)
    requires ResultsOk(results, items, claims)
    ensures ResultsOk(results, items + more, claims)
  {
    hide ResultOk;
    forall k | 0 <= k < |results| ensures ResultOk(results[k], items + more, claims) {
      ResultStays(results[k], items, more, claims);
    }
  }

  lemma ResultStays<T>(r: Result<T>, items: seq<T>, more: seq<T>, claims: seq<Tickets.Claim>)
    requires ResultOk(r, items, claims)
    ensures ResultOk(r, items + more, claims)
  {
    assert (items + more)[r.first..r.first + |r.xs|] == items[r.first..r.first + |r.xs|];
  }

  lemma ProducedTickets<T>(s: State<T>, a: Action<T>)
    requires a.Enqueue? || a.Produce?
    ensures var s' := Step(s, a);
      && s'.tickets == s.tickets.(items := s.tickets.items + News(s.lookup, s'.lookup))
      && s'.results == s.results
  {
    hide LookupNext, News;
  }

  lemma ProduceDelivers<T>(s: State<T>, a: Action<T>)
    requires Inv(s) && (a.Enqueue? || a.Produce?)
    ensures Delivers(Step(s, a))
  {
    ProducedTickets(s, a);
    ProduceFits(s.lookup, LookupAction(s, a).value);
    ResultsStay(s.results, s.tickets.items, News(s.lookup, Step(s, a).lookup), s.tickets.claims);
    hide Tickets.Inv, LookupInv, StableLookup.Step, TicketsNext, ResultsNext, Once, ConsOwn, ResultsOk, News;
  }

  lemma OrderMoves<T>(results: seq<Result<T>>, cons: seq<StableLookup.Consumer<T>>, head: nat, t: nat,
                      pc: StableLookup.Consumer<T>)
    requires InOrder(results, cons, head) && t < |cons| && pc.Idle? == cons[t].Idle?
    requires !pc.Idle? ==> pc.first == cons[t].first && pc.end == cons[t].end
    ensures InOrder(results, cons[t := pc], head)
  {
    hide Ascending;
  }

  lemma OrderReturns<T>(results: seq<Result<T>>, cons: seq<StableLookup.Consumer<T>>, head: nat, r: Result<T>)
    requires InOrder(results, cons, head) && r.thread < |cons| && !cons[r.thread].Idle?
    requires r.first == cons[r.thread].first && r.first + |r.xs| == cons[r.thread].end
    ensures InOrder(results + [r], cons[r.thread := StableLookup.Idle], head)
  {
    forall k | 0 <= k < |results| ensures Behind(results[k], cons[r.thread := StableLookup.Idle], head) {
      assert Behind(results[k], cons, head);
    }
  }

  lemma OrderClaims<T>(results: seq<Result<T>>, cons: seq<StableLookup.Consumer<T>>, head: nat, t: nat, take: nat)
    requires InOrder(results, cons, head) && t < |cons| && cons[t].Idle?
    ensures InOrder(results, cons[t := StableLookup.Claimed(head, head + take)], head + take)
  {
    hide Ascending;
    forall k | 0 <= k < |results|
      ensures Behind(results[k], cons[t := StableLookup.Claimed(head, head + take)], head + take)
    {
      assert Behind(results[k], cons, head);
    }
  }

  lemma LookOrder<T>(s: State<T>, t: nat)
    requires Inv(s) && !Asking(s, t) && !Returning(s, Go(t))
    ensures var s' := Step(s, Go(t)); InOrder(s'.results, s'.lookup.cons, s'.tickets.head)
  {
    hide Agree, Tickets.Inv, LookupInv, Delivers, InOrder, StableLookup.Step;
    var c := s.lookup;
    if t < |c.cons| {
      ClaimStays(c, t);
      OrderMoves(s.results, c.cons, s.tickets.head, t, Step(s, Go(t)).lookup.cons[t]);
    } else {
      ConsumeMoves(c, StableLookup.Consume(t));
      assert Step(s, Go(t)).lookup.cons == c.cons;
    }
  }

  lemma ReturnOrder<T>(s: State<T>, t: nat)
    requires Inv(s) && Returning(s, Go(t))
    ensures var s' := Step(s, Go(t)); InOrder(s'.results, s'.lookup.cons, s'.tickets.head)
  {
    hide Agree, Tickets.Inv, LookupInv, Delivers, InOrder;
    var pc := s.lookup.cons[t];
    DoneHas(s.lookup, t);
    OrderReturns(s.results, s.lookup.cons, s.tickets.head, Result(t, pc.first, pc.got));
  }

  lemma ClaimOrder<T>(s: State<T>, t: nat)
    requires Inv(s) && Asking(s, t) && s.tickets.pcs[t].AddHead?
    ensures var s' := Step(s, Go(t)); InOrder(s'.results, s'.lookup.cons, s'.tickets.head)
  {
    hide Tickets.Inv, LookupInv, Delivers, Step, InOrder;
    HeadMoves(s, t);
    OrderClaims(s.results, s.lookup.cons, s.tickets.head, t, s.tickets.pcs[t].take);
  }

  lemma OtherOrder<T>(s: State<T>, a: Action<T>)
    requires Inv(s) && (a.Go? ==> Asking(s, a.t) && !s.tickets.pcs[a.t].AddHead?)
    ensures var s' := Step(s, a); InOrder(s'.results, s'.lookup.cons, s'.tickets.head)
  {
    if a.Go? { Tickets.TicketStep(s.tickets, a.t); }
    if a.Enqueue? || a.Produce? { ProduceFits(s.lookup, LookupAction(s, a).value); ProducedTickets(s, a); }
    hide Agree, Tickets.Inv, LookupInv, Delivers, InOrder, StableLookup.Step, Tickets.Advance;
  }

  lemma AskDelivers<T>(s: State<T>, a: Action<T>)
    requires Inv(s) && (a.Call? || (a.Go? && Asking(s, a.t) && !s.tickets.pcs[a.t].AddHead?))
    ensures Delivers(Step(s, a))
  {
    if a.Go? { Tickets.TicketStep(s.tickets, a.t); hide Tickets.Step; }
    hide Tickets.Inv, LookupInv, Once, ConsOwn, ResultsOk;
  }

  lemma StepKeeps<T>(s: State<T>, a: Action<T>)
    requires Inv(s)
    ensures Inv(Step(s, a))
  {
    hide Agree, Tickets.Inv, Delivers, InOrder, StableLookup.Step, Tickets.Step, ResultsNext;
    hide StableLookup.Inv, StableLookup.FrontsInv, StableLookup.HollowsInv;
    StepAgrees(s, a);
    match LookupAction(s, a) {
      case None =>
      case Some(p) => StableLookup.StepKeeps(s.lookup, p);
    }
    if a.Go? && !Asking(s, a.t) {
      if Returning(s, a) { ReturnOrder(s, a.t); } else { LookOrder(s, a.t); }
    } else if a.Go? && s.tickets.pcs[a.t].AddHead? {
      ClaimOrder(s, a.t);
    } else {
      OtherOrder(s, a);
    }
    match a
    case Call(_, _) => AskDelivers(s, a);
    case Go(t) =>
      if Returning(s, a) { ReturnDelivers(s, t); }
      else if !Asking(s, t) { LookDelivers(s, t); }
      else if s.tickets.pcs[t].AddHead? { ClaimDelivers(s, t); }
      else { AskDelivers(s, a); }
    case Enqueue(_) => ProduceDelivers(s, a);
    case Produce(_) => ProduceDelivers(s, a);
  }

  lemma {:induction false} RunKeeps<T>(s: State<T>, schedule: seq<Action<T>>)
    requires Inv(s)
    ensures Inv(Run(s, schedule))
    decreases |schedule|
  {
    hide Inv, Step;
    if schedule != [] {
      StepKeeps(s, schedule[0]);
      RunKeeps(Step(s, schedule[0]), schedule[1..]);
    }
  }

  lemma StartInv<T>(s: State<T>, size: nat)
    requires Init(s, size)
    ensures Inv(s)
  {
    StableLookup.ReachableInv(s.lookup, size, []);
    Tickets.ReachableInv(s.tickets, []);
    forall x: nat ensures Times(s.results, x) + Holders(s.lookup.cons, x) == Tickets.Covers(0, s.tickets.head, x) {
      TotalZero(s.lookup.cons, HoldsW(x));
    }
    hide Tickets.Inv, StableLookup.Inv, StableLookup.FrontsInv, StableLookup.HollowsInv;
  }

  lemma ReachableInv<T>(s0: State<T>, size: nat, schedule: seq<Action<T>>)
    requires Init(s0, size)
    ensures Inv(Run(s0, schedule))
  {
    hide Inv, Init;
    StartInv(s0, size);
    RunKeeps(s0, schedule);
  }

  // ---------------------------------------------------------------- what holds in every run

  /** In every run what is published and the head are the same to both protocols, and each claim that the ticket
      protocol makes is accepted as such by the lookup: below the tail, from the head on, by a consumer that works
      on no other. */
  lemma ClaimsAreAccepted<T>(s0: State<T>, size: nat, schedule: seq<Action<T>>, t: nat)
    requires Init(s0, size)
    ensures var s := Run(s0, schedule);
      && s.lookup.tail <= |s.lookup.items| && s.tickets.items == s.lookup.items[..s.lookup.tail]
      && s.tickets.head == s.lookup.head <= s.lookup.tail
    ensures var s := Run(s0, schedule);
      Asking(s, t) && s.tickets.pcs[t].AddHead? ==>
        var head, take, s' := s.tickets.head, s.tickets.pcs[t].take, Step(s, Go(t));
        && 0 < s.lookup.tail && t < |s.lookup.cons| && s.lookup.cons[t].Idle?
        && s'.tickets.claims == s.tickets.claims + [Tickets.Claim(t, head, take)]
        && s'.lookup == s.lookup.(head := head + take,
                                  cons := s.lookup.cons[t := StableLookup.Claimed(head, head + take)])
  {
    hide Init, Tickets.Inv, LookupInv, Delivers, Step;
    var s := Run(s0, schedule);
    ReachableInv(s0, size, schedule);
    Tickets.TicketsFit(s.tickets);
    if Asking(s, t) && s.tickets.pcs[t].AddHead? { HeadMoves(s, t); }
  }

  /** In every run of producer and consumers, with blocks being reused and the index doubling under the consumers'
      feet: the element of each index handed out has been returned once, or one call in flight has claimed it, and
      no other has been returned; and each call returned the elements published under the indices of its own claim,
      in order; and each thread's calls return in the order in which the elements were enqueued. */
  lemma DeliveredOnce<T>(s0: State<T>, size: nat, schedule: seq<Action<T>>, x: nat)
    requires Init(s0, size)
    ensures var s := Run(s0, schedule);
      && Times(s.results, x) + Holders(s.lookup.cons, x) == (if x < s.tickets.head then 1 else 0)
      && s.tickets.head <= |s.tickets.items|
      && (forall k :: 0 <= k < |s.results| ==> ResultOk(s.results[k], s.tickets.items, s.tickets.claims))
      && Ascending(s.results)
  {
    hide Inv, Init, ResultOk, Ascending;
    ReachableInv(s0, size, schedule);
    Conclude(Run(s0, schedule), x);
  }

  lemma Conclude<T>(s: State<T>, x: nat)
    requires Inv(s)
    ensures Times(s.results, x) + Holders(s.lookup.cons, x) == (if x < s.tickets.head then 1 else 0)
    ensures s.tickets.head <= |s.tickets.items|
    ensures ResultsOk(s.results, s.tickets.items, s.tickets.claims) && Ascending(s.results)
  {
    Tickets.TicketsFit(s.tickets);
    hide Tickets.Inv, LookupInv, ResultsOk, Times, Holders, Ascending;
  }

  /** When no call is in flight, the elements below the head have been returned exactly once each, and none
      above it. */
  lemma SettledDelivery<T>(s0: State<T>, size: nat, schedule: seq<Action<T>>, x: nat)
    requires Init(s0, size)
    requires forall t :: 0 <= t < |Run(s0, schedule).lookup.cons| ==> !Looking(Run(s0, schedule), t)
    ensures var s := Run(s0, schedule); Times(s.results, x) == if x < s.tickets.head then 1 else 0
  {
    var s := Run(s0, schedule);
    DeliveredOnce(s0, size, schedule, x);
    forall t | 0 <= t < |s.lookup.cons| ensures s.lookup.cons[t].Idle? { assert !Looking(s, t); }
    TotalZero(s.lookup.cons, HoldsW(x));
    hide Init, Run;
  }
}
