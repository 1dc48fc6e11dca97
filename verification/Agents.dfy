/** The built-in agents (src/agents) and the price walk (src/PriceEngine.cpp). Random draws are
    arguments: every statement holds for all of them. */
module Agents {
  import opened Types
  import opened OrderBookModel

  // ---------------------------------------------------------------- the price walk

  const FLOOR: real := 10.0

  function Walk(price: real, r: real): real {
    if price * (1.0 + r) > FLOOR then price * (1.0 + r) else FLOOR
  }

  /** A step never lands below the floor, whatever the price was, and from the floor up it moves
      the price by at most one percent. */
  lemma WalkBounded(price: real, r: real)
    requires -0.01 <= r <= 0.01
    ensures Walk(price, r) >= FLOOR
    ensures price >= FLOOR ==> -0.01 * price <= Walk(price, r) - price <= 0.01 * price
  {
  }

  /** Above the floor of 10 a step adds the drawn fraction of the price; at or below, it lands on it. */
  lemma WalkIs(price: real, r: real)
    ensures Walk(price, r) == if price + price * r > 10.0 then price + price * r else 10.0
  {
    assert price * (1.0 + r) == price + price * r;
  }

  class PriceEngine {
    var price: real

    constructor (startPrice: real)
      ensures price == startPrice
    {
      price := startPrice;
    }

    method NextPrice(r: real) returns (p: real)
      requires -0.01 <= r <= 0.01
      modifies this
      ensures p == price == Walk(old(price), r) && price >= FLOOR
      ensures price == if old(price) + old(price) * r > 10.0 then old(price) + old(price) * r else 10.0
    {
      WalkIs(price, r);
      var candidate := price * (1.0 + r);
      price := if candidate > FLOOR then candidate else FLOOR;
      p := price;
    }
  }

  // ---------------------------------------------------------------- what an agent does

  /** One agent's turn: quote both sides, take from one side, or nothing. */
  datatype Turn = Quote | Take(side: Side, qty: real) | Idle

  datatype Quoting = Quoting(mid: real, offset: real, qty: real) {
    predicate Sound() { mid >= FLOOR && offset > 0.0 && qty > 0.0 }
    function Bid(): real { mid * (1.0 - offset) }
    function Ask(): real { mid * (1.0 + offset) }
  }

  /** The maker's guard: both sides present and the spread too wide. */
  predicate Guarded(b: Book, q: Quoting) {
    b.BestBid() > 0.0 && b.BestAsk() > 0.0 && b.Spread() > 2.0 * q.offset * q.mid * (1.0 + 0.000001)
  }

  function MakerQuotes(b: Book, q: Quoting): Book {
    if Guarded(b, q) then b
    else Book(Rest(BUY, b.bids, q.Bid(), q.qty), Rest(SELL, b.asks, q.Ask(), q.qty))
  }

  function Takes(b: Book, side: Side, qty: real): Book {
    b.With(side.Opposite(), Eat(b.On(side.Opposite()), qty).rest)
  }

  /** The book, and what has been taken from each side since the phase began. */
  datatype Floor = Floor(book: Book, takenBids: real, takenAsks: real)

  function BookAfter(b: Book, turn: Turn, q: Quoting): Book {
    match turn
    case Quote => MakerQuotes(b, q)
    case Take(side, qty) => Takes(b, side, qty)
    case Idle => b
  }

  function Act(f: Floor, turn: Turn, q: Quoting): Floor {
    Floor(BookAfter(f.book, turn, q),
          f.takenBids + (if turn.Take? && turn.side == SELL then Total(Eat(f.book.bids, turn.qty).fills) else 0.0),
          f.takenAsks + (if turn.Take? && turn.side == BUY then Total(Eat(f.book.asks, turn.qty).fills) else 0.0))
  }

  function ActAll(turns: seq<Turn>, q: Quoting): Floor {
    if turns == [] then Floor(Book([], []), 0.0, 0.0)
    else Act(ActAll(turns[..|turns| - 1], q), turns[|turns| - 1], q)
  }

  function Quotes(turns: seq<Turn>): nat {
    if turns == [] then 0 else Quotes(turns[..|turns| - 1]) + if turns[|turns| - 1].Quote? then 1 else 0
  }

  // ---------------------------------------------------------------- what the phase leaves

  /** At most one level, at the given price; with what was taken it makes up the supply. */
  predicate Holds(side: Side, levels: seq<Level>, price: real, taken: real, supply: real) {
    && (levels == [] || (|levels| == 1 && levels[0].price == price && levels[0].qty > 0.0))
    && taken >= 0.0
    && Total(levels) + taken == supply
  }

  /** Bids one offset below mid and asks one above. */
  predicate PhaseBook(f: Floor, q: Quoting, supply: real) {
    && Holds(BUY, f.book.bids, q.mid - q.offset * q.mid, f.takenBids, supply)
    && Holds(SELL, f.book.asks, q.mid + q.offset * q.mid, f.takenAsks, supply)
  }

  lemma QuotePrices(q: Quoting)
    ensures q.Bid() == q.mid - q.offset * q.mid && q.Ask() == q.mid + q.offset * q.mid
  {
  }

  lemma QuoteHolds(side: Side, levels: seq<Level>, price: real, taken: real, supply: real, qty: real)
    requires Holds(side, levels, price, taken, supply) && qty > 0.0
    ensures Holds(side, Rest(side, levels, price, qty), price, taken, supply + qty)
  {
  }

  lemma TakeHolds(side: Side, levels: seq<Level>, price: real, taken: real, supply: real, qty: real)
    requires Holds(side, levels, price, taken, supply)
    ensures Holds(side, Eat(levels, qty).rest, price, taken + Total(Eat(levels, qty).fills), supply)
  {
  }

  /** In exact arithmetic the spread a maker meets is never wider than the one it quotes. */
  lemma GuardNeverFires(f: Floor, q: Quoting, supply: real)
    requires PhaseBook(f, q, supply) && q.Sound()
    ensures !Guarded(f.book, q)
  {
  }

  lemma ActKeeps(f: Floor, turn: Turn, q: Quoting, supply: real)
    requires PhaseBook(f, q, supply) && q.Sound()
    ensures PhaseBook(Act(f, turn, q), q, supply + if turn.Quote? then q.qty else 0.0)
  {
    var bid, ask := q.mid - q.offset * q.mid, q.mid + q.offset * q.mid;
    match turn
    case Quote =>
      GuardNeverFires(f, q, supply);
      QuotePrices(q);
      QuoteHolds(BUY, f.book.bids, bid, f.takenBids, supply, q.qty);
      QuoteHolds(SELL, f.book.asks, ask, f.takenAsks, supply, q.qty);
    case Take(side, qty) =>
      TakeHolds(SELL, f.book.asks, ask, f.takenAsks, supply, qty);
      TakeHolds(BUY, f.book.bids, bid, f.takenBids, supply, qty);
    case Idle =>
  }

  /** What a maker does, in terms of the levels alone: nothing if both best prices are positive and
      further apart than its own quotes, else one order an offset below mid and one above. */
  lemma MakerQuotesIs(b: Book, q: Quoting)
    ensures MakerQuotes(b, q)
         == if WideBook(b, q.offset, q.mid) then b
            else Book(Rest(BUY, b.bids, q.mid - q.offset * q.mid, q.qty), Rest(SELL, b.asks, q.mid + q.offset * q.mid, q.qty))
  {
    QuotePrices(q);
  }

  predicate WideBook(b: Book, offset: real, mid: real) {
    && b.bids != [] && b.asks != [] && b.bids[0].price > 0.0 && b.asks[0].price > 0.0
    && b.asks[0].price - b.bids[0].price > 2.0 * offset * mid * 1.000001
  }

  function Supply(makers: nat, qty: real): real { makers as real * qty }

  /** Whatever order the agents act in and whatever they draw, the phase leaves at most one level
      a side, at the quoted prices, and resting plus taken is makers times maker quantity. */
  lemma {:induction false} PhaseExact(turns: seq<Turn>, q: Quoting)
    requires q.Sound()
    ensures PhaseBook(ActAll(turns, q), q, Supply(Quotes(turns), q.qty))
  {
    if turns != [] {
      var n := |turns| - 1;
      PhaseExact(turns[..n], q);
      ActKeeps(ActAll(turns[..n], q), turns[n], q, Supply(Quotes(turns[..n]), q.qty));
      OneMore(Quotes(turns[..n]), q.qty);
    }
  }

  lemma OneMore(n: nat, qty: real)
    ensures Supply(n + 1, qty) == Supply(n, qty) + qty
  {
  }

  /** The book such a phase leaves is well formed and not crossed, any bid against any ask; with both
      sides present they are two offsets apart. */
  lemma PhaseUncrossed(f: Floor, q: Quoting, supply: real)
    requires PhaseBook(f, q, supply) && q.Sound()
    ensures f.book.Valid() && Uncrossed(f.book)
    ensures f.book.bids != [] && f.book.asks != [] ==> f.book.asks[0].price - f.book.bids[0].price == 2.0 * q.offset * q.mid
  {
    assert q.offset * q.mid > 0.0;
  }

  predicate Uncrossed(b: Book) {
    forall i, j :: 0 <= i < |b.bids| && 0 <= j < |b.asks| ==> b.bids[i].price < b.asks[j].price
  }

  // ---------------------------------------------------------------- shuffles

  function Iota(n: nat): seq<nat> { if n == 0 then [] else Iota(n - 1) + [n - 1] }

  /** `order` is iota shuffled. */
  ghost predicate Shuffle(order: seq<nat>, n: nat) { multiset(order) == multiset(Iota(n)) }

  function Count(order: seq<nat>, yes: set<nat>): nat {
    if order == [] then 0
    else Count(order[..|order| - 1], yes) + if order[|order| - 1] in yes then 1 else 0
  }

  lemma {:induction false} CountWithout(order: seq<nat>, k: nat, yes: set<nat>)
    requires k < |order|
    ensures Count(order, yes) == Count(order[..k] + order[k + 1..], yes) + if order[k] in yes then 1 else 0
  {
    var rest, n := order[..k] + order[k + 1..], |order| - 1;
    if k == n {
      assert rest == order[..n];
    } else {
      CountWithout(order[..n], k, yes);
      assert rest[..n - 1] == order[..n][..k] + order[..n][k + 1..];
    }
  }

  lemma Without(s: seq<nat>, k: nat)
    requires k < |s|
    ensures multiset(s[..k] + s[k + 1..]) == multiset(s) - multiset{s[k]}
  {
    assert s == s[..k] + ([s[k]] + s[k + 1..]);
    assert multiset(s) == multiset(s[..k]) + (multiset{s[k]} + multiset(s[k + 1..]));
  }

  lemma RemoveHead(a: seq<nat>, b: seq<nat>) returns (k: nat)
    requires multiset(a) == multiset(b) && a != []
    ensures k < |b| && b[k] == a[0]
    ensures multiset(a[1..]) == multiset(b[..k] + b[k + 1..])
  {
    assert a[0] in multiset(b);
    k :| 0 <= k < |b| && b[k] == a[0];
    Without(a, 0);
    assert a[..0] + a[1..] == a[1..];
    Without(b, k);
  }

  lemma SameLength(a: seq<nat>, b: seq<nat>)
    requires multiset(a) == multiset(b)
    ensures |a| == |b|
  {
    assert |multiset(a)| == |a|;
  }

  /** Counting does not depend on the order. */
  lemma {:induction false} CountShuffled(a: seq<nat>, b: seq<nat>, yes: set<nat>)
    requires multiset(a) == multiset(b)
    ensures Count(a, yes) == Count(b, yes)
  {
    SameLength(a, b);
    if a != [] {
      var k := RemoveHead(a, b);
      CountWithout(a, 0, yes);
      assert a[..0] + a[1..] == a[1..];
      CountWithout(b, k, yes);
      CountShuffled(a[1..], b[..k] + b[k + 1..], yes);
    }
  }

  lemma {:induction false} CountIota(n: nat, yes: set<nat>)
    requires forall x :: x in yes ==> x < n
    ensures Count(Iota(n), yes) == |yes|
  {
    if n == 0 {
      assert yes == {};
    } else {
      var less := yes - {n - 1};
      CountIota(n - 1, less);
      IotaBelow(n - 1);
      assert Iota(n)[..|Iota(n)| - 1] == Iota(n - 1);
      CountIgnores(Iota(n - 1), yes, n - 1);
    }
  }

  lemma {:induction false} IotaBelow(n: nat)
    ensures |Iota(n)| == n
    ensures forall i :: 0 <= i < n ==> Iota(n)[i] == i
  {
    if n > 0 { IotaBelow(n - 1); }
  }

  lemma {:induction false} CountIgnores(order: seq<nat>, yes: set<nat>, x: nat)
    requires x !in order
    ensures Count(order, yes) == Count(order, yes - {x})
  {
    if order != [] { CountIgnores(order[..|order| - 1], yes, x); }
  }

  /** A shuffle visits every index below n exactly once. */
  lemma ShuffleVisitsOnce(order: seq<nat>, n: nat)
    requires Shuffle(order, n)
    ensures |order| == n
    ensures forall i :: 0 <= i < n ==> order[i] < n
    ensures forall i, j :: 0 <= i < j < n ==> order[i] != order[j]
  {
    IotaBelow(n);
    SameLength(order, Iota(n));
    forall i | 0 <= i < n ensures order[i] < n {
      assert order[i] in multiset(Iota(n));
    }
    forall i, j | 0 <= i < j < n ensures order[i] != order[j] {
      if order[i] == order[j] {
        TwiceIn(order, i, j);
        CountShuffled(order, Iota(n), {order[i]});
        CountIota(n, {order[i]});
      }
    }
  }

  lemma TwiceIn(s: seq<nat>, i: nat, j: nat)
    requires i < j < |s| && s[i] == s[j]
    ensures Count(s, {s[i]}) >= 2
  {
    CountWithout(s, j, {s[i]});
    var rest := s[..j] + s[j + 1..];
    assert rest[i] == s[i];
    CountWithout(rest, i, {s[i]});
    assert Count(rest, {s[i]}) >= 1;
  }
}
