/** The drain loop (src/Simulation.cpp) that ties queue, book, ledger and event log together,
    and the order queue (src/OrderQueue.h) that it shares with the stdin thread. */
module Drain {
  import opened Types
  import opened OrderBookModel
  import opened Ledger

  datatype Reason = InvalidQty | InvalidPrice | InsufficientLiquidity

  datatype Event =
    | FillEvent(traderId: string, orderId: string, fill: Fill)
    | RejectEvent(traderId: string, orderId: string, reason: Reason)

  datatype State = State(book: Book, positions: map<string, Position>, events: seq<Event>)

  function FillAt(side: Side, l: Level): Fill
    requires l.qty > 0.0
  {
    FillRecord(side, l.price, l.qty)
  }

  function FillEvents(o: IncomingOrder, fills: seq<Level>): seq<Event>
    requires WellFormed(o.side.Opposite(), fills)
  {
    if fills == [] then []
    else [FillEvent(o.traderId, o.orderId, FillAt(o.side, fills[0]))] + FillEvents(o, fills[1..])
  }

  function RecordFills(positions: map<string, Position>, id: string, side: Side, fills: seq<Level>): map<string, Position>
    requires WellFormed(side.Opposite(), fills)
    decreases |fills|
  {
    if fills == [] then positions
    else RecordFills(Record(positions, TraderFill(id, FillAt(side, fills[0]))), id, side, fills[1..])
  }

  predicate Accepted(o: IncomingOrder) { o.qty > 0.0 && (o.kind == LIMIT ==> o.price > 0.0) }

  /** The resting levels a market order would take. */
  function Taken(book: Book, o: IncomingOrder): (fills: seq<Level>)
    requires book.Valid()
    ensures WellFormed(o.side.Opposite(), fills)
  {
    if o.qty <= 0.0 then [] else
    EatTakesExactly(o.side.Opposite(), book.On(o.side.Opposite()), o.qty);
    Eat(book.On(o.side.Opposite()), o.qty).fills
  }

  /** The events one order causes. */
  function Outcome(book: Book, o: IncomingOrder): seq<Event>
    requires book.Valid()
  {
    if o.qty <= 0.0 then [RejectEvent(o.traderId, o.orderId, InvalidQty)]
    else if o.kind == LIMIT && o.price <= 0.0 then [RejectEvent(o.traderId, o.orderId, InvalidPrice)]
    else if o.kind == LIMIT then []
    else if Taken(book, o) == [] then [RejectEvent(o.traderId, o.orderId, InsufficientLiquidity)]
    else FillEvents(o, Taken(book, o))
  }

  /** The book after one order. */
  function BookAfter(book: Book, o: IncomingOrder): (r: Book)
    requires book.Valid()
    ensures r.Valid()
  {
    if !Accepted(o) then book
    else if o.kind == LIMIT then
      RestMeaning(o.side, book.On(o.side), o.price, o.qty);
      book.With(o.side, Rest(o.side, book.On(o.side), o.price, o.qty))
    else
      EatTakesExactly(o.side.Opposite(), book.On(o.side.Opposite()), o.qty);
      book.With(o.side.Opposite(), Eat(book.On(o.side.Opposite()), o.qty).rest)
  }

  function PositionsAfter(positions: map<string, Position>, book: Book, o: IncomingOrder): map<string, Position>
    requires book.Valid()
  {
    if o.kind == MARKET then RecordFills(positions, o.traderId, o.side, Taken(book, o)) else positions
  }

  /** One iteration of the drain loop. */
  function Process(st: State, o: IncomingOrder): (r: State)
    requires st.book.Valid()
    ensures r.book.Valid()
  {
    State(BookAfter(st.book, o), PositionsAfter(st.positions, st.book, o), st.events + Outcome(st.book, o))
  }

  function DrainAll(st: State, orders: seq<IncomingOrder>): (r: State)
    requires st.book.Valid()
    ensures r.book.Valid()
  {
    if orders == [] then st else Process(DrainAll(st, orders[..|orders| - 1]), orders[|orders| - 1])
  }

  lemma DrainLast(st: State, orders: seq<IncomingOrder>, n: nat)
    requires st.book.Valid() && n < |orders|
    ensures DrainAll(st, orders[..n + 1]) == Process(DrainAll(st, orders[..n]), orders[n])
  {
    assert orders[..n + 1][..n] == orders[..n];
  }

  // ---------------------------------------------------------------- one outcome per order

  predicate RejectedWith(o: IncomingOrder, events: seq<Event>, reason: Reason) {
    events == [RejectEvent(o.traderId, o.orderId, reason)]
  }

  function FilledQty(events: seq<Event>): real {
    if events == [] then 0.0
    else (if events[0].FillEvent? then events[0].fill.qty else 0.0) + FilledQty(events[1..])
  }

  /** Each fill is at a better price than the next. */
  predicate BestFirst(resting: Side, events: seq<Event>) {
    forall i, j :: 0 <= i < j < |events| && events[i].FillEvent? && events[j].FillEvent? ==>
      Ahead(resting, events[i].fill.price, events[j].fill.price)
  }

  /** Only fills, all of this order on its own side, best price first, adding up to what could be
      had. */
  predicate FilledAgainst(o: IncomingOrder, events: seq<Event>, available: real) {
    && events != [] && BestFirst(o.side.Opposite(), events)
    && (forall e :: e in events ==>
          e.FillEvent? && e.traderId == o.traderId && e.orderId == o.orderId && e.fill.side == o.side)
    && FilledQty(events) == Min(o.qty, available)
  }

  /** The contract between an order and the events it causes: one reject with the right reason,
      or silence for a resting limit order, or one or more fills. The conditions on the left are
      exclusive and cover every order. */
  predicate OneOutcome(book: Book, o: IncomingOrder, events: seq<Event>) {
    var opposite := book.On(o.side.Opposite());
    && (o.qty <= 0.0 <==> RejectedWith(o, events, InvalidQty))
    && (o.qty > 0.0 && o.kind == LIMIT && o.price <= 0.0 <==> RejectedWith(o, events, InvalidPrice))
    && (Accepted(o) && o.kind == MARKET && opposite == [] <==> RejectedWith(o, events, InsufficientLiquidity))
    && (Accepted(o) && o.kind == LIMIT <==> events == [])
    && (Accepted(o) && o.kind == MARKET && opposite != [] <==> FilledAgainst(o, events, Total(opposite)))
  }

  lemma {:induction false} FillEventsMeaning(o: IncomingOrder, fills: seq<Level>)
    requires WellFormed(o.side.Opposite(), fills)
    ensures |FillEvents(o, fills)| == |fills| && FilledQty(FillEvents(o, fills)) == Total(fills)
    ensures forall e :: e in FillEvents(o, fills) ==>
      e.FillEvent? && e.traderId == o.traderId && e.orderId == o.orderId && e.fill.side == o.side
  {
    if fills != [] {
      FillEventsMeaning(o, fills[1..]);
      assert FillEvents(o, fills)[1..] == FillEvents(o, fills[1..]);
    }
  }

  lemma {:induction false} FillEventsAre(o: IncomingOrder, fills: seq<Level>, i: nat)
    requires WellFormed(o.side.Opposite(), fills) && i < |fills|
    ensures |FillEvents(o, fills)| == |fills|
    ensures var e := FillEvents(o, fills)[i];
            e.FillEvent? && e.fill.price == fills[i].price && e.fill.qty == fills[i].qty
    decreases |fills|
  {
    FillEventsMeaning(o, fills);
    if i > 0 {
      FillEventsAre(o, fills[1..], i - 1);
      assert FillEvents(o, fills)[i] == FillEvents(o, fills[1..])[i - 1];
    }
  }

  lemma FillEventsBestFirst(o: IncomingOrder, fills: seq<Level>)
    requires WellFormed(o.side.Opposite(), fills)
    ensures BestFirst(o.side.Opposite(), FillEvents(o, fills))
  {
    var events := FillEvents(o, fills);
    FillEventsMeaning(o, fills);
    forall i, j | 0 <= i < j < |events|
      ensures events[i].FillEvent? && events[j].FillEvent?
      ensures Ahead(o.side.Opposite(), events[i].fill.price, events[j].fill.price)
    {
      FillEventsAre(o, fills, i);
      FillEventsAre(o, fills, j);
      WellFormedMeans(o.side.Opposite(), fills, i, j);
    }
  }

  lemma OutcomeIsOne(book: Book, o: IncomingOrder)
    requires book.Valid()
    ensures OneOutcome(book, o, Outcome(book, o))
  {
    var opposite, ev := book.On(o.side.Opposite()), Outcome(book, o);
    if Accepted(o) && o.kind == MARKET {
      EatTakesExactly(o.side.Opposite(), opposite, o.qty);
      FillEventsMeaning(o, Taken(book, o));
      FillEventsBestFirst(o, Taken(book, o));
      if opposite != [] { assert ev[0] in ev; } else { assert ev[0] in ev && !ev[0].FillEvent?; }
    } else if ev != [] {
      assert ev[0] in ev && !ev[0].FillEvent?;
    }
  }

  // ---------------------------------------------------------------- conservation

  /** Quantity that accepted limit orders brought to one price. */
  function LimitQty(orders: seq<IncomingOrder>, side: Side, price: real): real {
    if orders == [] then 0.0
    else
      var o := orders[|orders| - 1];
      LimitQty(orders[..|orders| - 1], side, price)
      + if Accepted(o) && o.kind == LIMIT && o.side == side && o.price == price then o.qty else 0.0
  }

  /** Quantity that fills took from one price of a resting side. */
  function FilledAt(events: seq<Event>, resting: Side, price: real): real {
    if events == [] then 0.0
    else FilledAt(events[..|events| - 1], resting, price) + TakenBy(events[|events| - 1], resting, price)
  }

  function TakenBy(e: Event, resting: Side, price: real): real {
    if e.FillEvent? && e.fill.side == resting.Opposite() && e.fill.price == price then e.fill.qty else 0.0
  }

  lemma {:induction false} FilledAtAppend(events: seq<Event>, more: seq<Event>, resting: Side, price: real)
    ensures FilledAt(events + more, resting, price) == FilledAt(events, resting, price) + FilledAt(more, resting, price)
  {
    if more == [] {
      assert events + more == events;
    } else {
      var n := |more| - 1;
      FilledAtAppend(events, more[..n], resting, price);
      assert (events + more)[..|events| + n] == events + more[..n];
    }
  }

  lemma {:induction false} FillEventsAt(o: IncomingOrder, fills: seq<Level>, resting: Side, price: real)
    requires WellFormed(o.side.Opposite(), fills)
    ensures FilledAt(FillEvents(o, fills), resting, price)
         == if resting == o.side.Opposite() then QtyAt(fills, price) else 0.0
  {
    if fills != [] {
      var e := FillEvent(o.traderId, o.orderId, FillAt(o.side, fills[0]));
      FillEventsAt(o, fills[1..], resting, price);
      FilledAtAppend([e], FillEvents(o, fills[1..]), resting, price);
      assert [e][..0] == [];
    }
  }

  lemma OneReject(e: Event, resting: Side, price: real)
    requires e.RejectEvent?
    ensures FilledAt([e], resting, price) == 0.0
  {
  }

  lemma ProcessConserves(book: Book, o: IncomingOrder, side: Side, price: real)
    requires book.Valid()
    ensures QtyAt(book.On(side), price)
            + (if Accepted(o) && o.kind == LIMIT && o.side == side && o.price == price then o.qty else 0.0)
         == QtyAt(BookAfter(book, o).On(side), price) + FilledAt(Outcome(book, o), side, price)
  {
    if Outcome(book, o) != [] && Outcome(book, o)[0].RejectEvent? {
      OneReject(Outcome(book, o)[0], side, price);
    }
    if !Accepted(o) {
    } else if o.kind == LIMIT {
      RestMeaning(o.side, book.On(o.side), o.price, o.qty);
    } else {
      EatConserves(o.side.Opposite(), book.On(o.side.Opposite()), o.qty, price);
      FillEventsAt(o, Taken(book, o), side, price);
    }
  }

  /** Over any drained sequence of orders, at every price on each side: what rested at the start
      plus what accepted limit orders brought is what rests at the end plus what was filled. */
  lemma {:induction false} DrainConserves(st: State, orders: seq<IncomingOrder>, side: Side, price: real)
    requires st.book.Valid()
    ensures QtyAt(st.book.On(side), price) + LimitQty(orders, side, price)
         == QtyAt(DrainAll(st, orders).book.On(side), price)
          + FilledAt(DrainAll(st, orders).events, side, price) - FilledAt(st.events, side, price)
  {
    if orders != [] {
      var n := |orders| - 1;
      var mid := DrainAll(st, orders[..n]);
      DrainConserves(st, orders[..n], side, price);
      ProcessConserves(mid.book, orders[n], side, price);
      FilledAtAppend(mid.events, Outcome(mid.book, orders[n]), side, price);
    }
  }

  // ---------------------------------------------------------------- the fill log

  function FillLog(events: seq<Event>): seq<TraderFill> {
    if events == [] then []
    else
      var e := events[|events| - 1];
      FillLog(events[..|events| - 1]) + if e.FillEvent? then [TraderFill(e.traderId, e.fill)] else []
  }

  lemma LogOne(events: seq<Event>, e: Event)
    ensures FillLog(events + [e]) == FillLog(events) + if e.FillEvent? then [TraderFill(e.traderId, e.fill)] else []
  {
  }

  lemma ReplayOne(log: seq<TraderFill>, t: TraderFill)
    ensures ReplayAll(log + [t]) == Record(ReplayAll(log), t)
  {
    assert (log + [t])[..|log|] == log;
  }

  /** The tracker holds exactly what the emitted fills replay to. */
  predicate Tracks(positions: map<string, Position>, events: seq<Event>) {
    positions == ReplayAll(FillLog(events))
  }

  lemma TrackReject(positions: map<string, Position>, events: seq<Event>, e: Event)
    requires Tracks(positions, events) && e.RejectEvent?
    ensures Tracks(positions, events + [e])
  {
    LogOne(events, e);
    assert FillLog(events + [e]) == FillLog(events);
  }

  lemma TrackFill(positions: map<string, Position>, events: seq<Event>, o: IncomingOrder, f: Fill)
    requires Tracks(positions, events)
    ensures Tracks(Record(positions, TraderFill(o.traderId, f)), events + [FillEvent(o.traderId, o.orderId, f)])
  {
    LogOne(events, FillEvent(o.traderId, o.orderId, f));
    ReplayOne(FillLog(events), TraderFill(o.traderId, f));
  }

  lemma Regroup(events: seq<Event>, e: Event, more: seq<Event>)
    ensures events + ([e] + more) == events + [e] + more
  {
  }

  lemma {:induction false} RecordFillsTracks(
      positions: map<string, Position>, events: seq<Event>, o: IncomingOrder, fills: seq<Level>)
    requires WellFormed(o.side.Opposite(), fills) && Tracks(positions, events)
    ensures Tracks(RecordFills(positions, o.traderId, o.side, fills), events + FillEvents(o, fills))
    decreases |fills|
  {
    if fills == [] {
      assert events + FillEvents(o, fills) == events;
    } else {
      var f := FillAt(o.side, fills[0]);
      var e := FillEvent(o.traderId, o.orderId, f);
      TrackFill(positions, events, o, f);
      RecordFillsTracks(Record(positions, TraderFill(o.traderId, f)), events + [e], o, fills[1..]);
      Regroup(events, e, FillEvents(o, fills[1..]));
    }
  }

  /** One order keeps the tracker equal to the replay of the emitted fills. */
  lemma ProcessTracks(st: State, o: IncomingOrder)
    requires st.book.Valid() && Tracks(st.positions, st.events)
    ensures Tracks(PositionsAfter(st.positions, st.book, o), st.events + Outcome(st.book, o))
  {
    if o.kind == MARKET && Taken(st.book, o) != [] {
      RecordFillsTracks(st.positions, st.events, o, Taken(st.book, o));
    } else {
      QuietTracks(st, o);
    }
  }

  /** An order that takes nothing leaves the positions and the fill log alone. */
  lemma QuietTracks(st: State, o: IncomingOrder)
    requires st.book.Valid() && Tracks(st.positions, st.events)
    requires o.kind == LIMIT || Taken(st.book, o) == []
    ensures Tracks(PositionsAfter(st.positions, st.book, o), st.events + Outcome(st.book, o))
  {
    var out := Outcome(st.book, o);
    assert PositionsAfter(st.positions, st.book, o) == st.positions;
    if out == [] {
      assert st.events + out == st.events;
    } else {
      assert out == [out[0]];
      TrackReject(st.positions, st.events, out[0]);
    }
  }

  /** So does a whole drain. */
  lemma {:induction false} DrainTracks(st: State, orders: seq<IncomingOrder>)
    requires st.book.Valid() && Tracks(st.positions, st.events)
    ensures Tracks(DrainAll(st, orders).positions, DrainAll(st, orders).events)
  {
    if orders != [] {
      DrainTracks(st, orders[..|orders| - 1]);
      ProcessTracks(DrainAll(st, orders[..|orders| - 1]), orders[|orders| - 1]);
    }
  }

  // ---------------------------------------------------------------- splitting an order

  ghost predicate SameAll(a: map<string, Position>, b: map<string, Position>) {
    a.Keys == b.Keys && forall id :: id in a ==> Same(a[id], b[id])
  }

  lemma RecordSame(a: map<string, Position>, b: map<string, Position>, t: TraderFill)
    requires SameAll(a, b)
    ensures SameAll(Record(a, t), Record(b, t))
  {
    ApplySame(PositionOf(a, t.traderId), PositionOf(b, t.traderId), t.fill);
  }

  lemma SameTransitive(a: map<string, Position>, b: map<string, Position>, c: map<string, Position>)
    requires SameAll(a, b) && SameAll(b, c)
    ensures SameAll(a, c)
  {
  }

  lemma RecordTwice(a: map<string, Position>, id: string, side: Side, x: real, q1: real, q2: real)
    requires q1 > 0.0 && q2 > 0.0
    ensures SameAll(Record(a, TraderFill(id, FillRecord(side, x, q1 + q2))),
                    Record(Record(a, TraderFill(id, FillRecord(side, x, q1))), TraderFill(id, FillRecord(side, x, q2))))
  {
    var f, g: Fill := FillRecord(side, x, q1), FillRecord(side, x, q2);
    FillSplit(PositionOf(a, id), side, x, q1, q2);
    RecordOne(a, TraderFill(id, f), id);
    RecordOne(Record(a, TraderFill(id, f)), TraderFill(id, g), id);
  }

  lemma {:induction false} RecordFillsSame(
      a: map<string, Position>, b: map<string, Position>, id: string, side: Side, fills: seq<Level>)
    requires WellFormed(side.Opposite(), fills) && SameAll(a, b)
    ensures SameAll(RecordFills(a, id, side, fills), RecordFills(b, id, side, fills))
    decreases |fills|
  {
    if fills != [] {
      var t := TraderFill(id, FillAt(side, fills[0]));
      RecordSame(a, b, t);
      RecordFillsSame(Record(a, t), Record(b, t), id, side, fills[1..]);
    }
  }

  /** Recording cut fills leaves the positions that recording the whole fills leaves. */
  lemma {:induction false} RecordCut(a: map<string, Position>, b: map<string, Position>, id: string, side: Side,
                                     whole: seq<Level>, first: seq<Level>, second: seq<Level>)
    requires SameAll(a, b) && CutOf(whole, first, second)
    requires WellFormed(side.Opposite(), whole) && WellFormed(side.Opposite(), first) && WellFormed(side.Opposite(), second)
    ensures SameAll(RecordFills(a, id, side, whole), RecordFills(RecordFills(b, id, side, first), id, side, second))
    decreases |first|
  {
    if first == [] {
      RecordFillsSame(a, b, id, side, whole);
    } else {
      var t, u := TraderFill(id, FillAt(side, whole[0])), TraderFill(id, FillAt(side, first[0]));
      RecordSame(a, b, t);
      if whole[0].qty == first[0].qty {
        assert whole[0] == first[0];
        RecordCut(Record(a, t), Record(b, u), id, side, whole[1..], first[1..], second);
      } else {
        var v := TraderFill(id, FillAt(side, second[0]));
        RecordTwice(b, id, side, first[0].price, first[0].qty, second[0].qty);
        SameTransitive(Record(a, t), Record(b, t), Record(Record(b, u), v));
        RecordFillsSame(Record(a, t), Record(Record(b, u), v), id, side, whole[1..]);
        assert first[1..] == [];
      }
    }
  }

  /** Splitting a market order is invisible: the same book, and every trader with the same net
      quantity, average cost and realised P&L, wherever the cut falls. */
  lemma MarketSplit(st: State, whole: IncomingOrder, first: IncomingOrder, second: IncomingOrder)
    requires st.book.Valid()
    requires whole.kind == first.kind == second.kind == MARKET
    requires whole.side == first.side == second.side && whole.traderId == first.traderId == second.traderId
    requires first.qty > 0.0 && second.qty > 0.0 && whole.qty == first.qty + second.qty
    ensures Process(Process(st, first), second).book == Process(st, whole).book
    ensures SameAll(Process(st, whole).positions, Process(Process(st, first), second).positions)
  {
    var side := whole.side.Opposite();
    var levels := st.book.On(side);
    EatSplit(side, levels, first.qty, second.qty);
    assert BookAfter(st.book, first).On(side) == Eat(levels, first.qty).rest;
    RecordCut(st.positions, st.positions, whole.traderId, whole.side,
              Taken(st.book, whole), Taken(st.book, first), Taken(BookAfter(st.book, first), second));
  }

  // ---------------------------------------------------------------- every interleaving

  type ValidBook = b: Book | b.Valid() witness Book([], [])

  /** Push is the stdin thread; Pop is one drain iteration; Tick stands for the start of the next
      tick, whose agent phase leaves some well-formed book. */
  datatype Step = Push(order: IncomingOrder) | Pop | Tick(book: ValidBook)

  /** One processed order with the book it met and the events it caused. */
  datatype Processed = Processed(order: IncomingOrder, before: Book, events: seq<Event>)

  datatype System = System(queue: seq<IncomingOrder>, pushed: seq<IncomingOrder>, done: seq<Processed>, st: State)

  function Start(): System { System([], [], [], State(Book([], []), map[], [])) }

  function Next(s: System, step: Step): (r: System)
    requires s.st.book.Valid()
    ensures r.st.book.Valid()
  {
    match step
    case Push(o) => s.(queue := s.queue + [o], pushed := s.pushed + [o])
    case Pop =>
      if s.queue == [] then s
      else
        var o := s.queue[0];
        System(s.queue[1..], s.pushed, s.done + [Processed(o, s.st.book, Outcome(s.st.book, o))], Process(s.st, o))
    case Tick(b) => s.(st := s.st.(book := b))
  }

  function RunFrom(s: System, steps: seq<Step>): (r: System)
    requires s.st.book.Valid()
    ensures r.st.book.Valid()
  {
    if steps == [] then s else Next(RunFrom(s, steps[..|steps| - 1]), steps[|steps| - 1])
  }

  function Run(steps: seq<Step>): System { RunFrom(Start(), steps) }

  function Orders(done: seq<Processed>): seq<IncomingOrder> {
    if done == [] then [] else Orders(done[..|done| - 1]) + [done[|done| - 1].order]
  }

  function Emitted(done: seq<Processed>): seq<Event> {
    if done == [] then [] else Emitted(done[..|done| - 1]) + done[|done| - 1].events
  }

  predicate Fifo(s: System) { Orders(s.done) + s.queue == s.pushed }

  predicate EachOnce(done: seq<Processed>) {
    forall i :: 0 <= i < |done| ==> done[i].before.Valid() && OneOutcome(done[i].before, done[i].order, done[i].events)
  }

  /** What every reachable system satisfies. */
  predicate Invariant(s: System) {
    && Fifo(s)
    && Emitted(s.done) == s.st.events
    && Tracks(s.st.positions, s.st.events)
    && EachOnce(s.done)
  }

  lemma DoneOne(done: seq<Processed>, d: Processed)
    ensures Orders(done + [d]) == Orders(done) + [d.order]
    ensures Emitted(done + [d]) == Emitted(done) + d.events
  {
  }

  lemma PopFifo(s: System)
    requires s.st.book.Valid() && Fifo(s) && s.queue != []
    ensures Fifo(Next(s, Pop))
  {
  }

  lemma EachOnceMore(done: seq<Processed>, book: Book, o: IncomingOrder)
    requires EachOnce(done) && book.Valid()
    ensures EachOnce(done + [Processed(o, book, Outcome(book, o))])
  {
    OutcomeIsOne(book, o);
  }

  lemma PopKeeps(s: System)
    requires s.st.book.Valid() && Invariant(s) && s.queue != []
    ensures Invariant(Next(s, Pop))
  {
    var o := s.queue[0];
    PopFifo(s);
    DoneOne(s.done, Processed(o, s.st.book, Outcome(s.st.book, o)));
    EachOnceMore(s.done, s.st.book, o);
    ProcessTracks(s.st, o);
  }

  /** In every interleaving of pushes, drain iterations and ticks: orders come out in push order,
      each has exactly one outcome, the log is the outcomes in that order, and the tracker is the
      replay of the emitted fills. */
  lemma {:induction false} RunKeeps(steps: seq<Step>)
    ensures Invariant(Run(steps))
  {
    if steps != [] {
      var s, step := Run(steps[..|steps| - 1]), steps[|steps| - 1];
      RunKeeps(steps[..|steps| - 1]);
      match step
      case Push(o) => assert Orders(s.done) + (s.queue + [o]) == Orders(s.done) + s.queue + [o];
      case Pop => if s.queue != [] { PopKeeps(s); }
      case Tick(b) =>
    }
  }

  /** However pushes interleave with one drain, its effect is that of draining the orders it
      popped, in order: so everything proved of DrainAll holds of it. */
  lemma {:induction false} InterleavedDrain(s: System, steps: seq<Step>) returns (orders: seq<IncomingOrder>)
    requires s.st.book.Valid()
    requires forall i :: 0 <= i < |steps| ==> !steps[i].Tick?
    ensures var r := RunFrom(s, steps);
            Orders(r.done) == Orders(s.done) + orders && r.st == DrainAll(s.st, orders)
  {
    orders := [];
    if steps != [] {
      var n := |steps| - 1;
      orders := InterleavedDrain(s, steps[..n]);
      var m := RunFrom(s, steps[..n]);
      if steps[n].Pop? && m.queue != [] {
        var o := m.queue[0];
        DoneOne(m.done, Processed(o, m.st.book, Outcome(m.st.book, o)));
        assert (orders + [o])[..|orders|] == orders;
        orders := orders + [o];
      }
    }
  }

  // ---------------------------------------------------------------- the classes

  /** The queue, with everything ever pushed to it and popped from it. */
  class OrderQueue {
    var queue: seq<IncomingOrder>
    ghost var pushed: seq<IncomingOrder>
    ghost var popped: seq<IncomingOrder>

    /** First in, first out: nothing is lost, made up or overtaken. */
    ghost predicate Valid() reads this { popped + queue == pushed }

    constructor ()
      ensures Valid() && queue == [] && pushed == []
    {
      queue, pushed, popped := [], [], [];
    }

    method Enqueue(order: IncomingOrder)
      requires Valid()
      modifies this
      ensures Valid() && pushed == old(pushed) + [order] && popped == old(popped)
      ensures queue == old(queue) + [order]
    {
      queue := queue + [order];
      pushed := pushed + [order];
    }

    method Dequeue() returns (r: Option<IncomingOrder>)
      requires Valid()
      modifies this
      ensures Valid() && pushed == old(pushed)
      ensures r.None? ==> old(queue) == [] && queue == [] && popped == old(popped)
      ensures r.Some? ==> old(queue) == [r.value] + queue && popped == old(popped) + [r.value]
    {
      if queue == [] { return None; }
      r := Some(queue[0]);
      popped := popped + [queue[0]];
      queue := queue[1..];
    }

    /** What the stdin thread pushes between two pops. */
    method EnqueueAll(batch: seq<IncomingOrder>)
      requires Valid()
      modifies this
      ensures Valid() && pushed == old(pushed) + batch && popped == old(popped)
      ensures queue == old(queue) + batch
    {
      for i := 0 to |batch|
        invariant Valid() && pushed == old(pushed) + batch[..i] && popped == old(popped)
        invariant queue == old(queue) + batch[..i]
      {
        assert batch[..i + 1] == batch[..i] + [batch[i]];
        Enqueue(batch[i]);
      }
      assert batch[..|batch|] == batch;
    }
  }

  class Simulation {
    const book: OrderBook
    const tracker: PositionTracker
    const orders: OrderQueue
    var events: seq<Event>

    ghost predicate Valid() reads this, book, tracker, orders {
      book.Valid() && tracker.Valid() && orders.Valid()
    }

    ghost function View(): State reads this, book, tracker { State(book.View(), tracker.positions, events) }

    constructor (orders: OrderQueue)
      requires orders.Valid()
      ensures Valid() && fresh(book) && fresh(tracker) && this.orders == orders
      ensures View() == State(Book([], []), map[], [])
    {
      this.orders := orders;
      book := new OrderBook();
      tracker := new PositionTracker();
      events := [];
    }

    /** Records and emits the trades of one market order. */
    method Report(o: IncomingOrder, trades: seq<Trade>, ghost id: nat, ghost fills: seq<Level>)
      requires tracker.Valid() && WellFormed(o.side.Opposite(), fills) && trades == Trades(id, fills)
      modifies this, tracker
      ensures tracker.Valid()
      ensures tracker.positions == RecordFills(old(tracker.positions), o.traderId, o.side, fills)
      ensures events == old(events) + FillEvents(o, fills)
    {
      ghost var left := fills;
      for i := 0 to |trades|
        invariant tracker.Valid() && left == fills[i..] && WellFormed(o.side.Opposite(), left)
        invariant RecordFills(tracker.positions, o.traderId, o.side, left)
               == RecordFills(old(tracker.positions), o.traderId, o.side, fills)
        invariant events + FillEvents(o, left) == old(events) + FillEvents(o, fills)
      {
        var t := trades[i];
        assert left[0] == fills[i];
        tracker.RecordFill(o.traderId, o.side, t.price, t.quantity);
        events := events + [FillEvent(o.traderId, o.orderId, FillRecord(o.side, t.price, t.quantity))];
        left := left[1..];
      }
      assert left == [];
    }

    method ProcessOrder(o: IncomingOrder)
      requires Valid()
      modifies this, book, tracker
      ensures Valid() && View() == Process(old(View()), o)
    {
      if o.qty <= 0.0 {
        events := events + [RejectEvent(o.traderId, o.orderId, InvalidQty)];
        return;
      }
      if o.kind == LIMIT && o.price <= 0.0 {
        events := events + [RejectEvent(o.traderId, o.orderId, InvalidPrice)];
        return;
      }
      var trades: seq<Trade> := [];
      ghost var id, fills := 0, [];
      if o.kind == MARKET {
        id, fills := book.nextId, Taken(book.View(), o);
        trades := book.AddMarketOrder(o.side, o.qty);
      } else {
        var _ := book.AddLimitOrder(o.side, o.price, o.qty);
      }
      Report(o, trades, id, fills);
      if trades == [] && o.kind == MARKET {
        events := events + [RejectEvent(o.traderId, o.orderId, InsufficientLiquidity)];
      }
    }

    /** The drain loop. arrivals[i] is what the stdin thread pushes between the pops i - 1 and i;
        the loop ends at the first pop that finds the queue empty. */
    method DrainOrderQueue(arrivals: seq<seq<IncomingOrder>>) returns (used: nat, ghost popped: seq<IncomingOrder>)
      requires Valid()
      modifies this, book, tracker, orders
      ensures Valid() && orders.queue == [] && used <= |arrivals|
      ensures popped == old(orders.queue) + Flatten(arrivals[..used]) && orders.popped == old(orders.popped) + popped
      ensures View() == DrainAll(old(View()), popped)
    {
      ghost var first, start, n, was := orders.queue, View(), 0, orders.popped;
      used, popped := 0, orders.queue;
      GatheredNone(first, arrivals);
      var more := true;
      while more
        invariant Valid() && Midway(start, popped, n, orders.queue, View()) && Gathered(first, arrivals, used, popped)
        invariant !more ==> n == |popped|
        invariant Since(was, popped, orders.pushed)
        decreases more, |first| + |Flatten(arrivals)| - n
      {
        more, used, popped := DrainOne(arrivals, used, start, first, popped, n, was);
        n := if more then n + 1 else n;
      }
      assert popped[..n] == popped;
      AllPopped(orders.popped, orders.queue, orders.pushed, was, popped);
    }

    /** One turn of the loop: more arrivals, a pop, and the order it yields. */
    method DrainOne(arrivals: seq<seq<IncomingOrder>>, used: nat, ghost start: State, ghost first: seq<IncomingOrder>,
                    ghost all: seq<IncomingOrder>, ghost n: nat, ghost was: seq<IncomingOrder>)
      returns (more: bool, now: nat, ghost known: seq<IncomingOrder>)
      requires Valid() && Midway(start, all, n, orders.queue, View()) && Gathered(first, arrivals, used, all)
      requires Since(was, all, orders.pushed)
      modifies this, book, tracker, orders
      ensures Valid() && Gathered(first, arrivals, now, known)
      ensures Midway(start, known, if more then n + 1 else n, orders.queue, View())
      ensures !more ==> n == |known|
      ensures Since(was, known, orders.pushed)
    {
      ghost var batch := Batch(arrivals, used);
      ghost var queue, st := orders.queue + batch, View();
      MidwayArrive(start, all, n, orders.queue, st, batch);
      GatheredMore(first, arrivals, used, all);
      Join(was, all, batch);
      known := all + batch;
      var item;
      item, now := NextOrder(arrivals, used);
      more := item.Some?;
      if more {
        MidwayPop(start, known, n, queue, st);
        ProcessOrder(item.value);
      }
    }

    /** Whatever has arrived joins the queue; then one pop. */
    method NextOrder(arrivals: seq<seq<IncomingOrder>>, used: nat) returns (item: Option<IncomingOrder>, now: nat)
      requires used <= |arrivals| && orders.Valid()
      modifies orders
      ensures orders.Valid() && orders.pushed == old(orders.pushed) + Batch(arrivals, used)
      ensures now == if used < |arrivals| then used + 1 else used
      ensures item.None? ==> old(orders.queue) + Batch(arrivals, used) == [] && orders.queue == []
      ensures item.Some? ==> old(orders.queue) + Batch(arrivals, used) == [item.value] + orders.queue
    {
      now := used;
      if used < |arrivals| {
        orders.EnqueueAll(arrivals[used]);
        now := used + 1;
      }
      item := orders.Dequeue();
    }
  }

  /** All that was ever pushed: what had been popped before, then these. */
  predicate Since(was: seq<IncomingOrder>, all: seq<IncomingOrder>, pushed: seq<IncomingOrder>) {
    pushed == was + all
  }

  lemma AllPopped(popped: seq<IncomingOrder>, queue: seq<IncomingOrder>, pushed: seq<IncomingOrder>,
                  was: seq<IncomingOrder>, all: seq<IncomingOrder>)
    requires popped + queue == pushed && queue == [] && Since(was, all, pushed)
    ensures popped == was + all
  {
  }

  function Batch(arrivals: seq<seq<IncomingOrder>>, used: nat): seq<IncomingOrder> {
    if used < |arrivals| then arrivals[used] else []
  }

  /** The orders queued at first and those that have arrived since. */
  predicate Gathered(first: seq<IncomingOrder>, arrivals: seq<seq<IncomingOrder>>, used: nat, all: seq<IncomingOrder>) {
    && used <= |arrivals| && all == first + Flatten(arrivals[..used])
    && |all| <= |first| + |Flatten(arrivals)|
  }

  lemma GatheredNone(first: seq<IncomingOrder>, arrivals: seq<seq<IncomingOrder>>)
    ensures Gathered(first, arrivals, 0, first)
  {
  }

  lemma GatheredMore(first: seq<IncomingOrder>, arrivals: seq<seq<IncomingOrder>>, used: nat, all: seq<IncomingOrder>)
    requires Gathered(first, arrivals, used, all)
    ensures used < |arrivals| ==> Gathered(first, arrivals, used + 1, all + arrivals[used])
    ensures used == |arrivals| ==> Gathered(first, arrivals, used, all + [])
  {
    if used < |arrivals| {
      FlattenPrefix(arrivals, used + 1);
      FlattenOne(arrivals, used);
      Join(first, Flatten(arrivals[..used]), arrivals[used]);
    } else {
      assert all + [] == all;
    }
  }

  function Flatten(batches: seq<seq<IncomingOrder>>): seq<IncomingOrder> {
    if batches == [] then [] else Flatten(batches[..|batches| - 1]) + batches[|batches| - 1]
  }

  /** Of all the orders, n have been drained and the rest is in the queue. */
  predicate Midway(start: State, all: seq<IncomingOrder>, n: nat, queue: seq<IncomingOrder>, st: State) {
    start.book.Valid() && n <= |all| && queue == all[n..] && st == DrainAll(start, all[..n])
  }

  lemma {:induction false} FlattenPrefix(batches: seq<seq<IncomingOrder>>, i: nat)
    requires i <= |batches|
    ensures |Flatten(batches[..i])| <= |Flatten(batches)|
  {
    if i < |batches| {
      var init := batches[..|batches| - 1];
      FlattenPrefix(init, i);
      assert init[..i] == batches[..i];
    } else {
      assert batches[..i] == batches;
    }
  }

  lemma FlattenOne(batches: seq<seq<IncomingOrder>>, i: nat)
    requires i < |batches|
    ensures Flatten(batches[..i + 1]) == Flatten(batches[..i]) + batches[i]
  {
    assert batches[..i + 1][..i] == batches[..i];
  }

  lemma Join(a: seq<IncomingOrder>, b: seq<IncomingOrder>, c: seq<IncomingOrder>)
    ensures a + b + c == a + (b + c)
  {
  }

  lemma MidwayArrive(start: State, all: seq<IncomingOrder>, n: nat, queue: seq<IncomingOrder>, st: State, batch: seq<IncomingOrder>)
    requires Midway(start, all, n, queue, st)
    ensures Midway(start, all + batch, n, queue + batch, st)
  {
    ArriveBehind(all, n, batch);
  }

  lemma ArriveBehind(all: seq<IncomingOrder>, n: nat, batch: seq<IncomingOrder>)
    requires n <= |all|
    ensures (all + batch)[..n] == all[..n] && (all + batch)[n..] == all[n..] + batch
  {
  }

  lemma MidwayPop(start: State, all: seq<IncomingOrder>, n: nat, queue: seq<IncomingOrder>, st: State)
    requires Midway(start, all, n, queue, st) && queue != []
    ensures st.book.Valid() && n < |all|
    ensures Midway(start, all, n + 1, queue[1..], Process(st, queue[0]))
  {
    DrainLast(start, all, n);
  }
}
