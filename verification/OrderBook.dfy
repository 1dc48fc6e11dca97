/** The order book (src/OrderBook.cpp). Each side is a price-sorted map; here it is the
    sequence of its levels in iteration order, best price first. */
module OrderBookModel {
  import opened Types

  datatype Level = Level(price: real, qty: real)

  /** `std::greater` orders the bids and `std::less` the asks: p is served before q. */
  predicate Ahead(side: Side, p: real, q: real) {
    if side == BUY then p > q else p < q
  }

  /** p is served before every level of a sorted side. */
  predicate AheadOf(side: Side, p: real, levels: seq<Level>) {
    levels == [] || Ahead(side, p, levels[0].price)
  }

  /** The class invariant of one side: strictly ranked prices, strictly positive quantities. */
  predicate WellFormed(side: Side, levels: seq<Level>) {
    levels == [] ||
    (levels[0].qty > 0.0 && AheadOf(side, levels[0].price, levels[1..]) && WellFormed(side, levels[1..]))
  }

  /** The invariant spelled out: every level is positive and ahead of every later one. */
  lemma {:induction false} WellFormedMeans(side: Side, levels: seq<Level>, i: nat, j: nat)
    requires WellFormed(side, levels) && i < j < |levels|
    ensures levels[i].qty > 0.0 && levels[j].qty > 0.0 && Ahead(side, levels[i].price, levels[j].price)
    decreases |levels|
  {
    if i > 0 {
      WellFormedMeans(side, levels[1..], i - 1, j - 1);
    } else if j == 1 {
      assert WellFormed(side, levels[1..]);
    } else {
      WellFormedMeans(side, levels[1..], 0, j - 1);
    }
  }

  /** Quantity at one price. */
  function QtyAt(levels: seq<Level>, price: real): real {
    if levels == [] then 0.0
    else (if levels[0].price == price then levels[0].qty else 0.0) + QtyAt(levels[1..], price)
  }

  function Total(levels: seq<Level>): real {
    if levels == [] then 0.0 else levels[0].qty + Total(levels[1..])
  }

  function Notional(levels: seq<Level>): real {
    if levels == [] then 0.0 else levels[0].price * levels[0].qty + Notional(levels[1..])
  }

  // ---------------------------------------------------------------- limit orders

  /** `book[price] += qty` on the sorted map of one side. */
  function Rest(side: Side, levels: seq<Level>, price: real, qty: real): seq<Level> {
    if levels == [] || Ahead(side, price, levels[0].price) then [Level(price, qty)] + levels
    else if levels[0].price == price then [Level(price, levels[0].qty + qty)] + levels[1..]
    else [levels[0]] + Rest(side, levels[1..], price, qty)
  }

  /** A resting order changes the quantity at its own price only, and keeps the side sorted. */
  lemma {:induction false} RestMeaning(side: Side, levels: seq<Level>, price: real, qty: real)
    requires WellFormed(side, levels) && qty > 0.0
    ensures WellFormed(side, Rest(side, levels, price, qty))
    ensures forall p :: QtyAt(Rest(side, levels, price, qty), p)
                     == QtyAt(levels, p) + (if p == price then qty else 0.0)
  {
    var r := Rest(side, levels, price, qty);
    if levels == [] || Ahead(side, price, levels[0].price) {
      assert r[1..] == levels;
    } else if levels[0].price == price {
      assert r[1..] == levels[1..];
    } else {
      RestMeaning(side, levels[1..], price, qty);
      assert r[1..] == Rest(side, levels[1..], price, qty);
    }
  }

  // ---------------------------------------------------------------- determinacy

  lemma {:induction false} QtyAtAhead(side: Side, levels: seq<Level>, p: real)
    requires WellFormed(side, levels) && AheadOf(side, p, levels)
    ensures QtyAt(levels, p) == 0.0
  {
    if levels != [] { QtyAtAhead(side, levels[1..], p); }
  }

  lemma HeadQty(side: Side, levels: seq<Level>)
    requires WellFormed(side, levels) && levels != []
    ensures QtyAt(levels, levels[0].price) == levels[0].qty
    ensures forall p :: Ahead(side, p, levels[0].price) ==> QtyAt(levels, p) == 0.0
  {
    QtyAtAhead(side, levels[1..], levels[0].price);
    forall p | Ahead(side, p, levels[0].price) ensures QtyAt(levels, p) == 0.0 { QtyAtAhead(side, levels, p); }
  }

  /** A well-formed side is determined by the quantity it holds at each price: what is
      proved per price below is proved about the whole container. */
  lemma {:induction false} LevelsDetermined(side: Side, a: seq<Level>, b: seq<Level>)
    requires WellFormed(side, a) && WellFormed(side, b)
    requires forall p :: QtyAt(a, p) == QtyAt(b, p)
    ensures a == b
    decreases |a| + |b|, |a|
  {
    if a == [] && b == [] {
    } else if a == [] {
      HeadQty(side, b);
      assert false;
    } else if b == [] {
      LevelsDetermined(side, b, a);
    } else {
      HeadQty(side, a);
      HeadQty(side, b);
      assert QtyAt(a, b[0].price) == b[0].qty && QtyAt(b, a[0].price) == a[0].qty;
      assert a[0].price == b[0].price;
      forall p ensures QtyAt(a[1..], p) == QtyAt(b[1..], p) {
        assert QtyAt(a, p) == QtyAt(b, p);
      }
      LevelsDetermined(side, a[1..], b[1..]);
      assert a == [a[0]] + a[1..] && b == [b[0]] + b[1..];
    }
  }

  // ---------------------------------------------------------------- market orders

  datatype Match = Match(rest: seq<Level>, fills: seq<Level>)

  /** What the fill loop leaves on one side and what it takes, level by level. */
  function Eat(levels: seq<Level>, qty: real): Match {
    if levels == [] || qty <= 0.0 then Match(levels, [])
    else
      var f := Min(qty, levels[0].qty);
      if levels[0].qty - f == 0.0 then
        var m := Eat(levels[1..], qty - f);
        Match(m.rest, [Level(levels[0].price, f)] + m.fills)
      else
        Match([Level(levels[0].price, levels[0].qty - f)] + levels[1..], [Level(levels[0].price, f)])
  }

  lemma {:induction false} TotalNonNegative(side: Side, levels: seq<Level>)
    requires WellFormed(side, levels)
    ensures Total(levels) >= 0.0
    ensures levels != [] ==> Total(levels) > 0.0
  {
    if levels != [] { TotalNonNegative(side, levels[1..]); }
  }

  /** An order at least as large as the best level takes it whole. */
  lemma EatWhole(side: Side, levels: seq<Level>, qty: real)
    requires WellFormed(side, levels) && levels != [] && levels[0].qty <= qty
    ensures var m := Eat(levels[1..], qty - levels[0].qty);
            Eat(levels, qty) == Match(m.rest, [levels[0]] + m.fills) && Eat(levels, qty).fills[1..] == m.fills
  {
  }

  /** A smaller one takes part of it and stops. */
  lemma EatPart(levels: seq<Level>, qty: real)
    requires levels != [] && 0.0 < qty < levels[0].qty
    ensures var m := Eat(levels, qty);
            && m.fills == [Level(levels[0].price, qty)] && m.fills[1..] == []
            && m.rest == [Level(levels[0].price, levels[0].qty - qty)] + levels[1..] && m.rest[1..] == levels[1..]
  {
  }

  /** A market order takes exactly min(qty, what rests); its fills run strictly from best to
      worst, and both they and the remaining levels are strictly positive. */
  lemma {:induction false} EatTakesExactly(side: Side, levels: seq<Level>, qty: real)
    requires WellFormed(side, levels) && qty >= 0.0
    ensures var m := Eat(levels, qty);
            && WellFormed(side, m.rest) && WellFormed(side, m.fills)
            && Total(m.fills) == Min(qty, Total(levels))
            && (m.fills == [] <==> qty == 0.0 || levels == [])
            && (levels != [] && m.fills != [] ==> m.fills[0].price == levels[0].price)
            && (levels != [] && m.rest != [] ==>
                  m.rest[0].price == levels[0].price || Ahead(side, levels[0].price, m.rest[0].price))
  {
    TotalNonNegative(side, levels);
    if levels != [] && qty > 0.0 {
      TotalNonNegative(side, levels[1..]);
      if levels[0].qty <= qty {
        EatWhole(side, levels, qty);
        EatTakesExactly(side, levels[1..], qty - levels[0].qty);
      } else {
        EatPart(levels, qty);
      }
    }
  }

  /** Per-price conservation of one market order: nothing is created, moved or lost. */
  lemma {:induction false} EatConserves(side: Side, levels: seq<Level>, qty: real, p: real)
    requires WellFormed(side, levels)
    ensures QtyAt(levels, p) == QtyAt(Eat(levels, qty).rest, p) + QtyAt(Eat(levels, qty).fills, p)
  {
    if levels != [] && qty > 0.0 {
      if levels[0].qty <= qty {
        EatWhole(side, levels, qty);
        EatConserves(side, levels[1..], qty - levels[0].qty, p);
      } else {
        EatPart(levels, qty);
      }
    }
  }

  // ---------------------------------------------------------------- optimality

  /** Some way of taking quantity from the resting levels: how much from each. */
  predicate Allocation(levels: seq<Level>, take: seq<real>) {
    && |take| == |levels|
    && (take == [] || (0.0 <= take[0] <= levels[0].qty && Allocation(levels[1..], take[1..])))
  }

  function Sum(take: seq<real>): real {
    if take == [] then 0.0 else take[0] + Sum(take[1..])
  }

  /** What the allocation pays (or receives). */
  function Value(levels: seq<Level>, take: seq<real>): real
    requires |take| == |levels|
  {
    if levels == [] then 0.0 else levels[0].price * take[0] + Value(levels[1..], take[1..])
  }

  lemma {:induction false} SumNonNegative(levels: seq<Level>, take: seq<real>)
    requires Allocation(levels, take)
    ensures Sum(take) >= 0.0
  {
    if take != [] { SumNonNegative(levels[1..], take[1..]); }
  }

  /** The price as a cost to the aggressor: paid when it consumes asks, forgone when it
      consumes bids. Lower is better on either side. */
  function Cost(resting: Side, price: real): real { if resting == SELL then price else -price }

  predicate Pays(total: real, p: real, qty: real, later: real) { total == p * qty + later }

  /** Costing v is no better than costing n and buying the surplus at `best`. */
  predicate NoBetter(side: Side, v: real, n: real, best: real, surplus: real) {
    Cost(side, v) >= Cost(side, n) + Cost(side, best * surplus)
  }

  /** The generalisation that carries the induction: an allocation of a larger total costs at
      least the surplus more, priced at or ahead of every level. */
  lemma {:induction false} GreedyBeats(side: Side, levels: seq<Level>, take: seq<real>, qty: real, surplus: real, best: real)
    requires WellFormed(side, levels) && Allocation(levels, take)
    requires qty >= 0.0 && surplus >= 0.0 && Sum(take) == qty + surplus
    requires levels == [] || best == levels[0].price || Ahead(side, best, levels[0].price)
    ensures NoBetter(side, Value(levels, take), Notional(Eat(levels, qty).fills), best, surplus)
  {
    if levels == [] {
      assert surplus == 0.0 && best * surplus == 0.0;
    } else {
      var f := if levels[0].qty <= qty then levels[0].qty else qty;
      SumNonNegative(levels[1..], take[1..]);
      GreedyBeats(side, levels[1..], take[1..], qty - f, surplus + f - take[0], levels[0].price);
      GreedyStep(side, levels, take, qty, surplus, best, f);
    }
  }

  lemma GreedyStep(side: Side, levels: seq<Level>, take: seq<real>, qty: real, surplus: real, best: real, f: real)
    requires WellFormed(side, levels) && |take| == |levels| > 0
    requires qty >= 0.0 && surplus >= 0.0 && f == if levels[0].qty <= qty then levels[0].qty else qty
    requires best == levels[0].price || Ahead(side, best, levels[0].price)
    requires NoBetter(side, Value(levels[1..], take[1..]), Notional(Eat(levels[1..], qty - f).fills),
                      levels[0].price, surplus + f - take[0])
    ensures NoBetter(side, Value(levels, take), Notional(Eat(levels, qty).fills), best, surplus)
  {
    EatHead(side, levels, qty, f);
    assert Pays(Value(levels, take), levels[0].price, take[0], Value(levels[1..], take[1..]));
    Exchange(side, best, levels[0].price, take[0], f,
             Value(levels[1..], take[1..]), Notional(Eat(levels[1..], qty - f).fills), surplus,
             Value(levels, take), Notional(Eat(levels, qty).fills));
  }

  lemma EatHead(side: Side, levels: seq<Level>, qty: real, f: real)
    requires WellFormed(side, levels) && levels != [] && qty >= 0.0
    requires f == if levels[0].qty <= qty then levels[0].qty else qty
    ensures Pays(Notional(Eat(levels, qty).fills), levels[0].price, f, Notional(Eat(levels[1..], qty - f).fills))
  {
    if levels[0].qty <= qty {
      EatWhole(side, levels, qty);
    } else if qty > 0.0 {
      EatPart(levels, qty);
    }
  }

  /** Paying p for a now and v later, against p for f now and n later. */
  lemma Exchange(side: Side, best: real, p: real, a: real, f: real, v: real, n: real, surplus: real,
                 whole: real, eaten: real)
    requires best == p || Ahead(side, best, p)
    requires surplus >= 0.0 && Pays(whole, p, a, v) && Pays(eaten, p, f, n)
    requires NoBetter(side, v, n, p, surplus + f - a)
    ensures NoBetter(side, whole, eaten, best, surplus)
  {
  }

  /** Greedy optimality: a buy pays no more, and a sell receives no less, than any other way of
      taking the same total from the resting levels. */
  lemma EatOptimal(side: Side, levels: seq<Level>, qty: real, take: seq<real>)
    requires WellFormed(side, levels) && qty >= 0.0
    requires Allocation(levels, take) && Sum(take) == Total(Eat(levels, qty).fills)
    ensures side == SELL ==> Notional(Eat(levels, qty).fills) <= Value(levels, take)
    ensures side == BUY ==> Notional(Eat(levels, qty).fills) >= Value(levels, take)
  {
    EatTakesExactly(side, levels, qty);
    SumNonNegative(levels, take);
    EatCapped(side, levels, qty);
    GreedyBeats(side, levels, take, Sum(take), 0.0, if levels == [] then 0.0 else levels[0].price);
  }

  /** Asking for more than rests is asking for all that rests. */
  lemma {:induction false} EatCapped(side: Side, levels: seq<Level>, qty: real)
    requires WellFormed(side, levels) && qty >= 0.0
    ensures Eat(levels, qty) == Eat(levels, Min(qty, Total(levels)))
  {
    if levels != [] {
      TotalNonNegative(side, levels[1..]);
      if qty > levels[0].qty {
        EatCapped(side, levels[1..], qty - levels[0].qty);
        EatWhole(side, levels, qty);
        EatWhole(side, levels, Min(qty, Total(levels)));
        assert Min(qty, Total(levels)) - levels[0].qty == Min(qty - levels[0].qty, Total(levels[1..]));
      }
    }
  }

  // ---------------------------------------------------------------- splitting

  /** first followed by second is whole with at most one fill, where they meet, cut in two. */
  predicate CutOf(whole: seq<Level>, first: seq<Level>, second: seq<Level>) {
    if first == [] then whole == second
    else
      && whole != [] && whole[0].price == first[0].price
      && if whole[0].qty == first[0].qty then CutOf(whole[1..], first[1..], second)
         else
           && |first| == 1 && second != [] && second[0].price == first[0].price
           && whole[0].qty == first[0].qty + second[0].qty && whole[1..] == second[1..]
  }

  /** Eating q1 and then q2 leaves what eating q1 + q2 leaves, with the same fills up to one
      fill cut in two. */
  predicate SplitInvisible(levels: seq<Level>, q1: real, q2: real) {
    var whole, first := Eat(levels, q1 + q2), Eat(levels, q1);
    var second := Eat(first.rest, q2);
    whole.rest == second.rest && CutOf(whole.fills, first.fills, second.fills)
  }

  lemma {:induction false} EatSplit(side: Side, levels: seq<Level>, q1: real, q2: real)
    requires WellFormed(side, levels) && q1 >= 0.0 && q2 >= 0.0
    ensures SplitInvisible(levels, q1, q2)
  {
    if levels == [] || q1 == 0.0 || q2 == 0.0 {
      CutNothing(levels, q1, q2);
    } else if levels[0].qty <= q1 {
      EatSplit(side, levels[1..], q1 - levels[0].qty, q2);
      CutLater(side, levels, q1, q2);
    } else {
      CutHead(side, levels, q1, q2);
    }
  }

  lemma {:induction false} CutOfNothing(fills: seq<Level>)
    ensures CutOf(fills, fills, [])
  {
    if fills != [] { CutOfNothing(fills[1..]); }
  }

  lemma CutNothing(levels: seq<Level>, q1: real, q2: real)
    requires levels == [] || q1 == 0.0 || q2 == 0.0
    ensures SplitInvisible(levels, q1, q2)
  {
    CutOfNothing(Eat(levels, q1).fills);
    assert q1 + q2 == q1 || q1 + q2 == q2 || levels == [];
  }

  /** The cut falls behind the first level. */
  lemma CutLater(side: Side, levels: seq<Level>, q1: real, q2: real)
    requires WellFormed(side, levels) && levels != [] && levels[0].qty <= q1 && q2 > 0.0
    requires SplitInvisible(levels[1..], q1 - levels[0].qty, q2)
    ensures SplitInvisible(levels, q1, q2)
  {
    EatWhole(side, levels, q1);
    EatWhole(side, levels, q1 + q2);
    assert q1 + q2 - levels[0].qty == q1 - levels[0].qty + q2;
  }

  /** The cut falls inside the first level. */
  lemma CutHead(side: Side, levels: seq<Level>, q1: real, q2: real)
    requires WellFormed(side, levels) && levels != [] && 0.0 < q1 < levels[0].qty && q2 > 0.0
    ensures SplitInvisible(levels, q1, q2)
  {
  }

  // ---------------------------------------------------------------- removal

  /** `removeQty` on one side: subtract at the price if present, erase when nothing is left. */
  function Cancel(levels: seq<Level>, price: real, qty: real): seq<Level> {
    if levels == [] then []
    else if levels[0].price == price then
      if levels[0].qty - qty <= 0.0 then levels[1..]
      else [Level(price, levels[0].qty - qty)] + levels[1..]
    else [levels[0]] + Cancel(levels[1..], price, qty)
  }

  /** Cancelling lowers the quantity at that price, to nothing at the least, and no other. */
  lemma {:induction false} CancelMeaning(side: Side, levels: seq<Level>, price: real, qty: real)
    requires WellFormed(side, levels)
    ensures WellFormed(side, Cancel(levels, price, qty))
    ensures forall p :: AheadOf(side, p, levels) ==> AheadOf(side, p, Cancel(levels, price, qty))
    ensures forall p :: QtyAt(Cancel(levels, price, qty), p)
                     == if p != price || QtyAt(levels, p) == 0.0 then QtyAt(levels, p)
                        else if QtyAt(levels, p) <= qty then 0.0 else QtyAt(levels, p) - qty
  {
    if levels != [] {
      var h, tail, r := levels[0], levels[1..], Cancel(levels, price, qty);
      QtyAtAhead(side, tail, h.price);
      if h.price != price {
        CancelMeaning(side, tail, price, qty);
        assert r[1..] == Cancel(tail, price, qty);
      } else if h.qty - qty > 0.0 {
        assert r[1..] == tail;
      }
    }
  }

  // ---------------------------------------------------------------- the class

  const ID_RANGE: nat := 0x1_0000_0000_0000_0000

  function Trades(id: nat, fills: seq<Level>): (r: seq<Trade>)
    ensures |r| == |fills|
  {
    seq(|fills|, i requires 0 <= i < |fills| => Trade(id, 0, fills[i].price, fills[i].qty))
  }

  lemma TradesAppend(id: nat, fills: seq<Level>, l: Level)
    ensures Trades(id, fills + [l]) == Trades(id, fills) + [Trade(id, 0, l.price, l.qty)]
  {
  }

  lemma Regroup(fills: seq<Level>, l: Level, later: seq<Level>)
    ensures fills + ([l] + later) == fills + [l] + later
  {
  }

  datatype Book = Book(bids: seq<Level>, asks: seq<Level>) {
    predicate Valid() { WellFormed(BUY, bids) && WellFormed(SELL, asks) }

    function On(side: Side): seq<Level> { if side == BUY then bids else asks }

    function With(side: Side, levels: seq<Level>): Book {
      if side == BUY then this.(bids := levels) else this.(asks := levels)
    }

    function BestBid(): real { if bids == [] then 0.0 else bids[0].price }
    function BestAsk(): real { if asks == [] then 0.0 else asks[0].price }
    function Spread(): real { BestAsk() - BestBid() }
  }

  /** The best bid is the highest bid, the best ask the lowest ask, 0 where there is none. */
  lemma BestIsBest(b: Book)
    requires b.Valid()
    ensures forall l :: l in b.bids ==> l.price <= b.BestBid()
    ensures forall l :: l in b.asks ==> b.BestAsk() <= l.price
    ensures if b.bids == [] then b.BestBid() == 0.0 else exists l :: l in b.bids && l.price == b.BestBid()
    ensures if b.asks == [] then b.BestAsk() == 0.0 else exists l :: l in b.asks && l.price == b.BestAsk()
    ensures b.Spread() == b.BestAsk() - b.BestBid()
  {
    BestOfSide(BUY, b.bids);
    BestOfSide(SELL, b.asks);
  }

  lemma BestOfSide(side: Side, levels: seq<Level>)
    requires WellFormed(side, levels)
    ensures forall l :: l in levels ==> l == levels[0] || Ahead(side, levels[0].price, l.price)
    ensures levels != [] ==> levels[0] in levels
  {
    forall l | l in levels && l != levels[0] ensures Ahead(side, levels[0].price, l.price) {
      var j :| 0 <= j < |levels| && levels[j] == l;
      WellFormedMeans(side, levels, 0, j);
    }
  }

  class OrderBook {
    var bids: seq<Level>
    var asks: seq<Level>
    var nextId: nat

    ghost predicate Valid() reads this { View().Valid() && nextId < ID_RANGE }

    function View(): Book reads this { Book(bids, asks) }

    constructor ()
      ensures Valid() && View() == Book([], []) && nextId == 1
    {
      bids, asks, nextId := [], [], 1;
    }

    method AddLimitOrder(side: Side, price: real, qty: real) returns (id: nat)
      requires Valid() && qty > 0.0
      modifies this
      ensures Valid() && id == old(nextId) && nextId == (old(nextId) + 1) % 0x1_0000_0000_0000_0000
      ensures View() == old(View()).With(side, Rest(side, old(View()).On(side), price, qty))
    {
      id := nextId;
      nextId := (nextId + 1) % ID_RANGE;
      RestMeaning(side, View().On(side), price, qty);
      if side == BUY {
        bids := Rest(BUY, bids, price, qty);
      } else {
        asks := Rest(SELL, asks, price, qty);
      }
    }

    /** The fill loop over one side. */
    static method Fill(side: Side, levels: seq<Level>, qty: real, id: nat)
      returns (rest: seq<Level>, trades: seq<Trade>)
      requires WellFormed(side, levels)
      ensures rest == Eat(levels, qty).rest
      ensures trades == Trades(id, Eat(levels, qty).fills)
    {
      rest, trades := levels, [];
      var remaining := qty;
      ghost var fills: seq<Level> := [];
      ghost var all := Eat(levels, qty);
      while rest != [] && remaining > 0.0
        invariant WellFormed(side, rest)
        invariant trades == Trades(id, fills)
        invariant all.rest == Eat(rest, remaining).rest
        invariant all.fills == fills + Eat(rest, remaining).fills
        decreases |rest|
      {
        var best := rest[0];
        var fillQty := Min(remaining, best.qty);
        TradesAppend(id, fills, Level(best.price, fillQty));
        Regroup(fills, Level(best.price, fillQty), Eat(rest[1..], remaining - fillQty).fills);
        trades := trades + [Trade(id, 0, best.price, fillQty)];
        fills := fills + [Level(best.price, fillQty)];
        remaining := remaining - fillQty;
        if best.qty - fillQty == 0.0 {
          rest := rest[1..];
        } else {
          rest := [Level(best.price, best.qty - fillQty)] + rest[1..];
          break;
        }
      }
    }

    method AddMarketOrder(side: Side, qty: real) returns (trades: seq<Trade>)
      requires Valid()
      modifies this
      ensures Valid() && nextId == (old(nextId) + 1) % 0x1_0000_0000_0000_0000
      ensures var m := Eat(old(View()).On(side.Opposite()), qty);
              && View() == old(View()).With(side.Opposite(), m.rest)
              && trades == Trades(old(nextId), m.fills)
    {
      var id := nextId;
      nextId := (nextId + 1) % ID_RANGE;
      ghost var opposite := View().On(side.Opposite());
      if qty >= 0.0 { EatTakesExactly(side.Opposite(), opposite, qty); }
      if side == BUY {
        asks, trades := Fill(SELL, asks, qty, id);
      } else {
        bids, trades := Fill(BUY, bids, qty, id);
      }
    }

    method RemoveQty(side: Side, price: real, qty: real)
      requires Valid()
      modifies this
      ensures Valid() && nextId == old(nextId)
      ensures View() == old(View()).With(side, Cancel(old(View()).On(side), price, qty))
    {
      CancelMeaning(side, View().On(side), price, qty);
      if side == BUY {
        bids := Cancel(bids, price, qty);
      } else {
        asks := Cancel(asks, price, qty);
      }
    }

    method Clear()
      requires Valid()
      modifies this
      ensures Valid() && View() == Book([], []) && nextId == old(nextId)
    {
      bids, asks := [], [];
    }

    /** `bidLevels` and `askLevels`: the best levels of a side, and nothing better is missed. */
    method Depth(side: Side, maxLevels: nat) returns (levels: seq<Level>)
      requires Valid()
      ensures levels <= View().On(side)
      ensures |levels| == if |View().On(side)| < maxLevels then |View().On(side)| else maxLevels
      ensures forall l, m :: l in levels && m in View().On(side) && m !in levels ==> Ahead(side, l.price, m.price)
    {
      var all := View().On(side);
      levels := [];
      for i := 0 to |all|
        invariant levels == all[..if i < maxLevels then i else maxLevels]
      {
        if |levels| >= maxLevels { break; }
        levels := levels + [all[i]];
      }
      forall l, m | l in levels && m in all && m !in levels ensures Ahead(side, l.price, m.price) {
        var i :| 0 <= i < |levels| && levels[i] == l;
        var j :| 0 <= j < |all| && all[j] == m;
        WellFormedMeans(side, all, i, j);
      }
    }
  }
}
