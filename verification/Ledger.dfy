/** Average-cost position accounting (src/PositionTracker.cpp). */
module Ledger {
  import opened Types

  datatype FillRecord = FillRecord(side: Side, price: real, qty: real)

  /** Every fill the engine records has a positive quantity. */
  type Fill = f: FillRecord | f.qty > 0.0 witness FillRecord(BUY, 0.0, 1.0)

  datatype Position = Position(
    traderId: string, netQty: real, realisedPnl: real, avgCost: real, totalFills: nat)
  {
    function UnrealisedPnl(currentPrice: real): real { (currentPrice - avgCost) * netQty }
  }

  function NewPosition(traderId: string): Position { Position(traderId, 0.0, 0.0, 0.0, 0) }

  /** The average cost of n held at avg and q more bought at price. */
  function Blend(avg: real, n: real, price: real, q: real): real
    requires n >= 0.0 && q > 0.0
  {
    (avg * n + price * q) / (n + q)
  }

  /** `recordFill` on one position. */
  function Apply(pos: Position, f: Fill): Position {
    var p := pos.(totalFills := pos.totalFills + 1);
    var n := pos.netQty;
    if f.side == BUY then
      if n >= 0.0 then p.(avgCost := Blend(p.avgCost, n, f.price, f.qty), netQty := n + f.qty)
      else
        var short := -n;
        if f.qty >= short then
          var remaining := f.qty - short;
          var closed := p.(realisedPnl := p.realisedPnl + (p.avgCost - f.price) * short, netQty := 0.0);
          if remaining > 0.0 then closed.(avgCost := f.price, netQty := remaining) else closed
        else p.(realisedPnl := p.realisedPnl + (p.avgCost - f.price) * f.qty, netQty := n + f.qty)
    else
      if n <= 0.0 then p.(avgCost := Blend(p.avgCost, -n, f.price, f.qty), netQty := n - f.qty)
      else if f.qty >= n then
        var remaining := f.qty - n;
        var closed := p.(realisedPnl := p.realisedPnl + (f.price - p.avgCost) * n, netQty := 0.0);
        if remaining > 0.0 then closed.(avgCost := f.price, netQty := -remaining) else closed
      else p.(realisedPnl := p.realisedPnl + (f.price - p.avgCost) * f.qty, netQty := n - f.qty)
  }

  /** The position after a whole history of fills. */
  function Replay(id: string, fills: seq<Fill>): Position {
    if fills == [] then NewPosition(id) else Apply(Replay(id, fills[..|fills| - 1]), fills[|fills| - 1])
  }

  // ---------------------------------------------------------------- mirror symmetry

  function Mirror(f: Fill): Fill { f.(side := f.side.Opposite()) }

  function MirrorAll(fills: seq<Fill>): (r: seq<Fill>)
    ensures |r| == |fills|
  {
    seq(|fills|, i requires 0 <= i < |fills| => Mirror(fills[i]))
  }

  function Negated(pos: Position): Position {
    pos.(netQty := -pos.netQty, realisedPnl := -pos.realisedPnl)
  }

  lemma ApplyMirror(pos: Position, f: Fill)
    ensures Apply(Negated(pos), Mirror(f)) == Negated(Apply(pos, f))
  {
  }

  /** Swapping BUY and SELL through a whole history negates quantity and realised P&L, and
      leaves the average cost alone. */
  lemma {:induction false} ReplayMirror(id: string, fills: seq<Fill>)
    ensures Replay(id, MirrorAll(fills)) == Negated(Replay(id, fills))
  {
    if fills != [] {
      var init := fills[..|fills| - 1];
      ReplayMirror(id, init);
      assert MirrorAll(fills)[..|fills| - 1] == MirrorAll(init);
      ApplyMirror(Replay(id, init), fills[|fills| - 1]);
    }
  }

  /** ... and so does the unrealised P&L at every price. */
  lemma NegatedUnrealised(pos: Position, price: real)
    ensures Negated(pos).UnrealisedPnl(price) == -pos.UnrealisedPnl(price)
  {
  }

  // ---------------------------------------------------------------- the P&L identity

  /** Sell notional minus buy notional. */
  function Cash(fills: seq<Fill>): real {
    if fills == [] then 0.0 else Cash(fills[..|fills| - 1]) + CashOf(fills[|fills| - 1])
  }

  function CashOf(f: Fill): real { if f.side == BUY then -(f.price * f.qty) else f.price * f.qty }

  /** Quantity bought minus quantity sold. */
  function Net(fills: seq<Fill>): real {
    if fills == [] then 0.0 else Net(fills[..|fills| - 1]) + Signed(fills[|fills| - 1])
  }

  function Signed(f: Fill): real { if f.side == BUY then f.qty else -f.qty }

  /** What has been realised, less the cost of what is held, is the money that changed hands. */
  predicate Balanced(pos: Position, cash: real) {
    pos.realisedPnl - pos.avgCost * pos.netQty == cash
  }

  lemma BuyBalanced(pos: Position, f: Fill, cash: real)
    requires Balanced(pos, cash) && f.side == BUY
    ensures Balanced(Apply(pos, f), cash + CashOf(f))
  {
  }

  lemma ApplyBalanced(pos: Position, f: Fill, cash: real)
    requires Balanced(pos, cash)
    ensures Balanced(Apply(pos, f), cash + CashOf(f))
  {
    if f.side == BUY {
      BuyBalanced(pos, f, cash);
    } else {
      SellBalanced(pos, f, cash);
    }
  }

  lemma SellBalanced(pos: Position, f: Fill, cash: real)
    requires Balanced(pos, cash) && f.side == SELL
    ensures Balanced(Apply(pos, f), cash + CashOf(f))
  {
  }

  lemma {:induction false} ReplayBalanced(id: string, fills: seq<Fill>)
    ensures Balanced(Replay(id, fills), Cash(fills))
  {
    if fills != [] {
      ReplayBalanced(id, fills[..|fills| - 1]);
      ApplyBalanced(Replay(id, fills[..|fills| - 1]), fills[|fills| - 1], Cash(fills[..|fills| - 1]));
    }
  }

  lemma ApplyNet(pos: Position, f: Fill)
    ensures Apply(pos, f).netQty == pos.netQty + Signed(f)
    ensures Apply(pos, f).totalFills == pos.totalFills + 1 && Apply(pos, f).traderId == pos.traderId
  {
  }

  /** The net quantity is bought minus sold, whatever branches the history took, and every fill
      is counted. */
  lemma {:induction false} ReplayNet(id: string, fills: seq<Fill>)
    ensures Replay(id, fills).netQty == Net(fills)
    ensures Replay(id, fills).totalFills == |fills| && Replay(id, fills).traderId == id
  {
    if fills != [] {
      ReplayNet(id, fills[..|fills| - 1]);
      ApplyNet(Replay(id, fills[..|fills| - 1]), fills[|fills| - 1]);
    }
  }

  /** At every mark price, realised plus unrealised P&L is the cash that changed hands plus the
      holding at the mark; and with nothing held, what is realised is that cash. */
  ghost predicate PnlAddsUp(pos: Position, cash: real, net: real) {
    && (forall mark :: pos.realisedPnl + pos.UnrealisedPnl(mark) == cash + net * mark)
    && (net == 0.0 ==> pos.realisedPnl == cash)
  }

  lemma BalancedAddsUp(pos: Position, cash: real)
    requires Balanced(pos, cash)
    ensures PnlAddsUp(pos, cash, pos.netQty)
  {
  }

  /** The identity holds after every history of fills. */
  lemma PnlIdentity(id: string, fills: seq<Fill>)
    ensures PnlAddsUp(Replay(id, fills), Cash(fills), Net(fills))
  {
    ReplayBalanced(id, fills);
    ReplayNet(id, fills);
    BalancedAddsUp(Replay(id, fills), Cash(fills));
  }

  // ---------------------------------------------------------------- split fills

  /** Equal but for the number of fills. */
  predicate Same(a: Position, b: Position) { a == b.(totalFills := a.totalFills) }

  lemma ApplySame(a: Position, b: Position, f: Fill)
    requires Same(a, b)
    ensures Same(Apply(a, f), Apply(b, f))
  {
  }

  lemma BlendTwice(avg: real, n: real, x: real, a: real, b: real)
    requires n >= 0.0 && a > 0.0 && b > 0.0
    ensures Blend(Blend(avg, n, x, a), n + a, x, b) == Blend(avg, n, x, a + b)
  {
  }

  lemma BlendLevel(avg: real, n: real, x: real, b: real)
    requires n >= 0.0 && b > 0.0 && (n == 0.0 || avg == x)
    ensures Blend(avg, n, x, b) == x
  {
  }

  lemma BuySplit(pos: Position, x: real, a: real, b: real)
    requires a > 0.0 && b > 0.0
    ensures Same(Apply(Apply(pos, FillRecord(BUY, x, a)), FillRecord(BUY, x, b)), Apply(pos, FillRecord(BUY, x, a + b)))
  {
    var n, c := pos.netQty, pos.avgCost;
    if n >= 0.0 {
      BlendTwice(c, n, x, a, b);
    } else if a >= -n {
      if a + n > 0.0 { BlendLevel(x, a + n, x, b); } else { BlendLevel(c, 0.0, x, b); }
    } else if a + b >= -n {
      assert (c - x) * a + (c - x) * -(n + a) == (c - x) * -n;
    } else {
      assert (c - x) * a + (c - x) * b == (c - x) * (a + b);
    }
  }

  /** One fill cut in two at its price leaves the same position, wherever the cut falls:
      opening, adding, closing or flipping. */
  lemma FillSplit(pos: Position, side: Side, x: real, a: real, b: real)
    requires a > 0.0 && b > 0.0
    ensures Same(Apply(Apply(pos, FillRecord(side, x, a)), FillRecord(side, x, b)), Apply(pos, FillRecord(side, x, a + b)))
  {
    BuySplit(if side == BUY then pos else Negated(pos), x, a, b);
    if side == SELL {
      var f, g, h: Fill := FillRecord(SELL, x, a), FillRecord(SELL, x, b), FillRecord(SELL, x, a + b);
      ApplyMirror(pos, f);
      ApplyMirror(Apply(pos, f), g);
      ApplyMirror(pos, h);
    }
  }

  // ---------------------------------------------------------------- what the average is made of

  datatype LotRecord = LotRecord(price: real, weight: real)

  /** A fill still (in part) held; closing scales every lot alike. */
  type Lot = l: LotRecord | l.weight > 0.0 witness LotRecord(0.0, 1.0)

  function Abs(x: real): real { if x < 0.0 then -x else x }

  function ScaleLot(l: Lot, k: real): Lot
    requires k > 0.0
  {
    LotRecord(l.price, l.weight * k)
  }

  function Scale(lots: seq<Lot>, k: real): seq<Lot>
    requires k > 0.0
  {
    if lots == [] then [] else Scale(lots[..|lots| - 1], k) + [ScaleLot(lots[|lots| - 1], k)]
  }

  /** Lots held after a fill that meets a holding of net. */
  function NextLots(lots: seq<Lot>, net: real, f: Fill): seq<Lot> {
    if net == 0.0 then [LotRecord(f.price, f.qty)]
    else if (net > 0.0) == (f.side == BUY) then lots + [LotRecord(f.price, f.qty)]
    else if f.qty < Abs(net) then Scale(lots, (Abs(net) - f.qty) / Abs(net))
    else if f.qty == Abs(net) then []
    else [LotRecord(f.price, f.qty - Abs(net))]
  }

  function Lots(fills: seq<Fill>): seq<Lot> {
    if fills == [] then []
    else NextLots(Lots(fills[..|fills| - 1]), Net(fills[..|fills| - 1]), fills[|fills| - 1])
  }

  function Weight(lots: seq<Lot>): real {
    if lots == [] then 0.0 else Weight(lots[..|lots| - 1]) + lots[|lots| - 1].weight
  }

  function Worth(lots: seq<Lot>): real {
    if lots == [] then 0.0 else Worth(lots[..|lots| - 1]) + lots[|lots| - 1].price * lots[|lots| - 1].weight
  }

  lemma AddLot(lots: seq<Lot>, l: Lot)
    ensures Weight(lots + [l]) == Weight(lots) + l.weight
  {
  }

  lemma AddLotWorth(lots: seq<Lot>, l: Lot)
    ensures Worth(lots + [l]) == Worth(lots) + l.price * l.weight
  {
  }

  lemma AddLotPrice(lots: seq<Lot>, l: Lot)
    ensures LotPrices(lots + [l]) == LotPrices(lots) + [l.price]
  {
  }

  lemma {:induction false} ScalePrices(lots: seq<Lot>, k: real)
    requires k > 0.0
    ensures LotPrices(Scale(lots, k)) == LotPrices(lots)
  {
    if lots != [] {
      var init, l := lots[..|lots| - 1], lots[|lots| - 1];
      ScalePrices(init, k);
      AddLotPrice(Scale(init, k), ScaleLot(l, k));
    }
  }

  lemma Distribute(sum: real, p: real, w: real, k: real)
    ensures (sum + p * w) * k == sum * k + p * (w * k)
  {
  }

  lemma DistributeSum(sum: real, w: real, k: real)
    ensures (sum + w) * k == sum * k + w * k
  {
  }

  lemma {:induction false} ScaleWeight(lots: seq<Lot>, k: real)
    requires k > 0.0
    ensures Weight(Scale(lots, k)) == Weight(lots) * k
  {
    if lots != [] {
      var init, l := lots[..|lots| - 1], lots[|lots| - 1];
      ScaleWeight(init, k);
      AddLot(Scale(init, k), ScaleLot(l, k));
      DistributeSum(Weight(init), l.weight, k);
    }
  }

  lemma {:induction false} ScaleWorth(lots: seq<Lot>, k: real)
    requires k > 0.0
    ensures Worth(Scale(lots, k)) == Worth(lots) * k
  {
    if lots != [] {
      var init, l := lots[..|lots| - 1], lots[|lots| - 1];
      ScaleWorth(init, k);
      AddLotWorth(Scale(init, k), ScaleLot(l, k));
      Distribute(Worth(init), l.price, l.weight, k);
    }
  }

  /** The lots weigh what is held, and are worth it at the average cost. */
  predicate Carries(lots: seq<Lot>, net: real, avg: real) {
    Weight(lots) == Abs(net) && Worth(lots) == avg * Abs(net)
  }

  lemma Fraction(m: real, q: real, avg: real, worth: real)
    requires 0.0 < q < m && worth == avg * m
    ensures (m - q) / m > 0.0 && m * ((m - q) / m) == m - q
    ensures worth * ((m - q) / m) == avg * (m - q)
  {
    var k := (m - q) / m;
    assert avg * m * k == avg * (m * k);
  }

  lemma ReduceBy(lots: seq<Lot>, k: real, weight: real, worth: real)
    requires k > 0.0 && Weight(lots) * k == weight && Worth(lots) * k == worth
    ensures Weight(Scale(lots, k)) == weight && Worth(Scale(lots, k)) == worth
  {
    ScaleWeight(lots, k);
    ScaleWorth(lots, k);
  }

  lemma ReduceLots(lots: seq<Lot>, net: real, avg: real, q: real)
    requires Carries(lots, net, avg) && 0.0 < q < Abs(net)
    ensures var r := Scale(lots, (Abs(net) - q) / Abs(net));
            Weight(r) == Abs(net) - q && Worth(r) == avg * (Abs(net) - q)
  {
    var m := Abs(net);
    Fraction(m, q, avg, Worth(lots));
    ReduceBy(lots, (m - q) / m, m - q, avg * (m - q));
  }

  lemma OneLot(l: Lot)
    ensures Weight([l]) == l.weight && Worth([l]) == l.price * l.weight
  {
  }

  lemma BuyMore(lots: seq<Lot>, net: real, avg: real, f: Fill)
    requires Carries(lots, net, avg) && net >= 0.0 && f.side == BUY
    ensures Carries(NextLots(lots, net, f), net + f.qty, Blend(avg, net, f.price, f.qty))
  {
  }

  lemma BuyCarries(lots: seq<Lot>, pos: Position, f: Fill)
    requires Carries(lots, pos.netQty, pos.avgCost) && f.side == BUY
    ensures Carries(NextLots(lots, pos.netQty, f), Apply(pos, f).netQty, Apply(pos, f).avgCost)
  {
    var n, a := pos.netQty, pos.avgCost;
    if n >= 0.0 {
      BuyMore(lots, n, a, f);
    } else if f.qty < -n {
      ReduceLots(lots, n, a, f.qty);
    } else if f.qty > -n {
      OneLot(LotRecord(f.price, f.qty + n));
    }
  }

  lemma NextLotsMirror(lots: seq<Lot>, net: real, f: Fill)
    ensures NextLots(lots, net, f) == NextLots(lots, -net, Mirror(f))
  {
  }

  lemma CarriesMirror(lots: seq<Lot>, net: real, avg: real)
    requires Carries(lots, -net, avg)
    ensures Carries(lots, net, avg)
  {
  }

  lemma ApplyCarries(lots: seq<Lot>, pos: Position, f: Fill)
    requires Carries(lots, pos.netQty, pos.avgCost)
    ensures Carries(NextLots(lots, pos.netQty, f), Apply(pos, f).netQty, Apply(pos, f).avgCost)
  {
    if f.side == BUY {
      BuyCarries(lots, pos, f);
    } else {
      SellCarries(lots, pos, f);
    }
  }

  lemma SellCarries(lots: seq<Lot>, pos: Position, f: Fill)
    requires Carries(lots, pos.netQty, pos.avgCost) && f.side == SELL
    ensures Carries(NextLots(lots, pos.netQty, f), Apply(pos, f).netQty, Apply(pos, f).avgCost)
  {
    CarriesMirror(lots, -pos.netQty, pos.avgCost);
    BuyCarries(lots, Negated(pos), Mirror(f));
    ApplyMirror(pos, f);
    NextLotsMirror(lots, pos.netQty, f);
    CarriesMirror(NextLots(lots, pos.netQty, f), Apply(pos, f).netQty, Apply(pos, f).avgCost);
  }

  /** At every point of every history the average cost is the weighted mean of the open lots. */
  lemma {:induction false} ReplayCarries(id: string, fills: seq<Fill>)
    ensures Carries(Lots(fills), Net(fills), Replay(id, fills).avgCost)
  {
    ReplayNet(id, fills);
    if fills != [] {
      var init := fills[..|fills| - 1];
      ReplayCarries(id, init);
      ReplayNet(id, init);
      ApplyCarries(Lots(init), Replay(id, init), fills[|fills| - 1]);
    }
  }

  /** The holding was last opened by fill k: before it the trader was flat or on the other side,
      and has been on this side ever since. */
  predicate OpenedAt(fills: seq<Fill>, k: nat) {
    && k < |fills|
    && Net(fills) != 0.0
    && !SameSign(Net(fills), Net(fills[..k]))
    && (forall j :: k < j <= |fills| ==> SameSign(Net(fills), Net(fills[..j])))
  }

  predicate SameSign(a: real, b: real) { (a > 0.0 && b > 0.0) || (a < 0.0 && b < 0.0) }

  /** Prices of the fills on one side. */
  function PricesOn(fills: seq<Fill>, side: Side): seq<real> {
    if fills == [] then []
    else
      var last := fills[|fills| - 1];
      PricesOn(fills[..|fills| - 1], side) + if last.side == side then [last.price] else []
  }

  function LotPrices(lots: seq<Lot>): seq<real> {
    if lots == [] then [] else LotPrices(lots[..|lots| - 1]) + [lots[|lots| - 1].price]
  }

  function Direction(net: real): Side { if net > 0.0 then BUY else SELL }

  lemma {:induction false} LotsSince(fills: seq<Fill>, k: nat)
    requires OpenedAt(fills, k)
    ensures LotPrices(Lots(fills)) == PricesOn(fills[k..], Direction(Net(fills)))
    decreases |fills|
  {
    var n := |fills| - 1;
    PricesOnTail(fills, k, Direction(Net(fills)));
    if k == n {
      OpeningLot(Lots(fills[..n]), Net(fills[..n]), fills[n]);
      assert fills[..n][k..] == [];
    } else {
      OpenedBefore(fills, k);
      LotsSince(fills[..n], k);
      NextLotPrices(Lots(fills[..n]), Net(fills[..n]), fills[n]);
    }
  }

  lemma PricesOnTail(fills: seq<Fill>, k: nat, side: Side)
    requires k < |fills|
    ensures var n := |fills| - 1;
            PricesOn(fills[k..], side)
            == PricesOn(fills[..n][k..], side) + if fills[n].side == side then [fills[n].price] else []
  {
    var n := |fills| - 1;
    assert fills[k..][..n - k] == fills[..n][k..] && fills[k..][n - k] == fills[n];
  }

  /** The fill that opens or flips a holding is its first lot. */
  lemma OpeningLot(lots: seq<Lot>, net: real, f: Fill)
    requires net + Signed(f) != 0.0 && !SameSign(net + Signed(f), net)
    ensures f.side == Direction(net + Signed(f))
    ensures LotPrices(NextLots(lots, net, f)) == [f.price]
  {
  }

  /** A fill that does not turn the holding round adds its price, or none. */
  lemma NextLotPrices(lots: seq<Lot>, net: real, f: Fill)
    requires SameSign(net, net + Signed(f))
    ensures LotPrices(NextLots(lots, net, f))
         == LotPrices(lots) + if f.side == Direction(net) then [f.price] else []
  {
    if f.side == Direction(net) {
      AddLotPrice(lots, LotRecord(f.price, f.qty));
    } else {
      ScalePrices(lots, (Abs(net) - f.qty) / Abs(net));
    }
  }

  lemma OpenedBefore(fills: seq<Fill>, k: nat)
    requires OpenedAt(fills, k) && k < |fills| - 1
    ensures OpenedAt(fills[..|fills| - 1], k)
    ensures SameSign(Net(fills), Net(fills[..|fills| - 1]))
  {
    var init := fills[..|fills| - 1];
    assert init[..k] == fills[..k];
    forall j | k < j <= |init| ensures SameSign(Net(init), Net(init[..j])) {
      assert init[..j] == fills[..j];
    }
  }

  predicate Between(prices: seq<real>, lo: real, hi: real) {
    forall i :: 0 <= i < |prices| ==> lo <= prices[i] <= hi
  }

  /** Within every bound on the prices, so between the lowest and the highest of them. */
  ghost predicate Bracketed(x: real, prices: seq<real>) {
    forall lo, hi :: Between(prices, lo, hi) ==> lo <= x <= hi
  }

  lemma Squeeze(lo: real, x: real, hi: real, w: real)
    requires lo <= x <= hi && w > 0.0
    ensures lo * w <= x * w <= hi * w
  {
  }

  lemma {:induction false} MeanBetween(lots: seq<Lot>, lo: real, hi: real)
    requires Between(LotPrices(lots), lo, hi)
    ensures lo * Weight(lots) <= Worth(lots) <= hi * Weight(lots)
  {
    if lots != [] {
      var init, l := lots[..|lots| - 1], lots[|lots| - 1];
      var prices := LotPrices(lots);
      assert prices[..|prices| - 1] == LotPrices(init) && prices[|prices| - 1] == l.price;
      assert Between(LotPrices(init), lo, hi);
      MeanBetween(init, lo, hi);
      Squeeze(lo, l.price, hi, l.weight);
      assert lo * (Weight(init) + l.weight) == lo * Weight(init) + lo * l.weight;
      assert hi * (Weight(init) + l.weight) == hi * Weight(init) + hi * l.weight;
    }
  }

  /** Every open position was opened by some fill. */
  lemma Opened(fills: seq<Fill>) returns (k: nat)
    requires Net(fills) != 0.0
    ensures OpenedAt(fills, k)
  {
    k := |fills| - 1;
    assert fills[..|fills|] == fills;
    while SameSign(Net(fills), Net(fills[..k]))
      invariant k < |fills| && forall j :: k < j <= |fills| ==> SameSign(Net(fills), Net(fills[..j]))
      decreases k
    {
      assert fills[..0] == [];
      k := k - 1;
    }
  }

  /** A position is opened in one place only. */
  lemma OpenedOnce(fills: seq<Fill>, j: nat, k: nat)
    requires OpenedAt(fills, j) && OpenedAt(fills, k)
    ensures j == k
  {
  }

  /** Whenever a position is open, the lots are exactly the same-direction fills since it was opened,
      in order. */
  lemma LotsSinceOpened(fills: seq<Fill>) returns (k: nat)
    requires Net(fills) != 0.0
    ensures OpenedAt(fills, k) && LotPrices(Lots(fills)) == PricesOn(fills[k..], Direction(Net(fills)))
  {
    k := Opened(fills);
    LotsSince(fills, k);
  }

  /** Whenever a position is open, its average cost lies between the lowest and the highest price
      paid in its own direction since it was opened. */
  lemma AverageBetween(id: string, fills: seq<Fill>) returns (k: nat)
    requires Net(fills) != 0.0
    ensures OpenedAt(fills, k)
    ensures Bracketed(Replay(id, fills).avgCost, PricesOn(fills[k..], Direction(Net(fills))))
  {
    k := LotsSinceOpened(fills);
    ReplayCarries(id, fills);
    var prices, avg := PricesOn(fills[k..], Direction(Net(fills))), Replay(id, fills).avgCost;
    forall lo, hi | Between(prices, lo, hi) ensures lo <= avg <= hi {
      CarriesBetween(Lots(fills), Net(fills), avg, lo, hi);
    }
  }

  lemma CarriesBetween(lots: seq<Lot>, net: real, avg: real, lo: real, hi: real)
    requires Carries(lots, net, avg) && net != 0.0 && Between(LotPrices(lots), lo, hi)
    ensures lo <= avg <= hi
  {
    MeanBetween(lots, lo, hi);
    Divide(lo, avg, Abs(net));
    Divide(avg, hi, Abs(net));
  }

  lemma Divide(a: real, b: real, m: real)
    requires m > 0.0 && a * m <= b * m
    ensures a <= b
  {
  }

  /** A partial close never moves the average cost. */
  lemma PartialCloseKeepsAverage(pos: Position, f: Fill)
    requires pos.netQty != 0.0 && f.side != Direction(pos.netQty)
    ensures Apply(pos, f).avgCost == if f.qty > Abs(pos.netQty) then f.price else pos.avgCost
  {
  }

  // ---------------------------------------------------------------- the tracker

  datatype TraderFill = TraderFill(traderId: string, fill: Fill)

  function PositionOf(positions: map<string, Position>, id: string): Position {
    if id in positions then positions[id] else NewPosition(id)
  }

  function Record(positions: map<string, Position>, t: TraderFill): map<string, Position> {
    positions[t.traderId := Apply(PositionOf(positions, t.traderId), t.fill)]
  }

  /** The tracker rebuilt from a log of everyone's fills. */
  function ReplayAll(log: seq<TraderFill>): map<string, Position> {
    if log == [] then map[] else Record(ReplayAll(log[..|log| - 1]), log[|log| - 1])
  }

  function FillsOf(log: seq<TraderFill>, id: string): seq<Fill> {
    if log == [] then []
    else
      var last := log[|log| - 1];
      FillsOf(log[..|log| - 1], id) + if last.traderId == id then [last.fill] else []
  }

  lemma ReplayAppend(id: string, fills: seq<Fill>, f: Fill)
    ensures Replay(id, fills + [f]) == Apply(Replay(id, fills), f)
  {
  }

  lemma RecordOne(positions: map<string, Position>, t: TraderFill, id: string)
    ensures PositionOf(Record(positions, t), id)
         == if t.traderId == id then Apply(PositionOf(positions, id), t.fill) else PositionOf(positions, id)
  {
  }

  /** Traders do not disturb each other: each tracked position is the replay of that trader's
      own fills, and exactly the traders with fills are tracked. */
  lemma {:induction false} ReplayAllSeparates(log: seq<TraderFill>, id: string)
    ensures id in ReplayAll(log) <==> FillsOf(log, id) != []
    ensures PositionOf(ReplayAll(log), id) == Replay(id, FillsOf(log, id))
  {
    if log != [] {
      var init, last := log[..|log| - 1], log[|log| - 1];
      ReplayAllSeparates(init, id);
      RecordOne(ReplayAll(init), last, id);
      ReplayAppend(id, FillsOf(init, id), last.fill);
      assert FillsOf(log, id) == FillsOf(init, id) + if last.traderId == id then [last.fill] else [];
      assert last.traderId != id ==> FillsOf(log, id) == FillsOf(init, id);
    }
  }

  class PositionTracker {
    var positions: map<string, Position>

    /** Every entry carries its own key. */
    ghost predicate Valid() reads this {
      forall id :: id in positions ==> positions[id].traderId == id
    }

    constructor ()
      ensures Valid() && positions == map[]
    {
      positions := map[];
    }

    /** The four BUY branches, on the entry being updated. */
    static method Bought(before: Position, price: real, qty: real) returns (pos: Position)
      requires qty > 0.0
      ensures pos == Apply(before, FillRecord(BUY, price, qty))
    {
      pos := before.(totalFills := before.totalFills + 1);
      if pos.netQty >= 0.0 {
        pos := pos.(avgCost := (pos.avgCost * pos.netQty + price * qty) / (pos.netQty + qty));
        pos := pos.(netQty := pos.netQty + qty);
      } else {
        var shortQty := -pos.netQty;
        if qty >= shortQty {
          pos := pos.(realisedPnl := pos.realisedPnl + (pos.avgCost - price) * shortQty);
          var remaining := qty - shortQty;
          pos := pos.(netQty := 0.0);
          if remaining > 0.0 {
            pos := pos.(avgCost := price, netQty := remaining);
          }
        } else {
          pos := pos.(realisedPnl := pos.realisedPnl + (pos.avgCost - price) * qty);
          pos := pos.(netQty := pos.netQty + qty);
        }
      }
    }

    /** The four SELL branches. */
    static method Sold(before: Position, price: real, qty: real) returns (pos: Position)
      requires qty > 0.0
      ensures pos == Apply(before, FillRecord(SELL, price, qty))
    {
      pos := before.(totalFills := before.totalFills + 1);
      if pos.netQty <= 0.0 {
        var absQty := -pos.netQty;
        pos := pos.(avgCost := (pos.avgCost * absQty + price * qty) / (absQty + qty));
        pos := pos.(netQty := pos.netQty - qty);
      } else {
        var longQty := pos.netQty;
        if qty >= longQty {
          pos := pos.(realisedPnl := pos.realisedPnl + (price - pos.avgCost) * longQty);
          var remaining := qty - longQty;
          pos := pos.(netQty := 0.0);
          if remaining > 0.0 {
            pos := pos.(avgCost := price, netQty := -remaining);
          }
        } else {
          pos := pos.(realisedPnl := pos.realisedPnl + (price - pos.avgCost) * qty);
          pos := pos.(netQty := pos.netQty - qty);
        }
      }
    }

    method RecordFill(traderId: string, side: Side, price: real, qty: real)
      requires Valid() && qty > 0.0
      modifies this
      ensures Valid()
      ensures positions == Record(old(positions), TraderFill(traderId, FillRecord(side, price, qty)))
    {
      var pos := PositionOf(positions, traderId);
      pos := pos.(traderId := traderId);
      if side == BUY {
        pos := Bought(pos, price, qty);
      } else {
        pos := Sold(pos, price, qty);
      }
      positions := positions[traderId := pos];
    }
  }
}
