/** The agents as objects acting on the shared book, one whole tick, and runs of ticks
    (src/Simulation.cpp, `runTick` and `run`). */
module Engine {
  import opened Types
  import opened OrderBookModel
  import opened Drain
  import opened Agents
  import Whales

  /** What one agent's generator yields in one tick. */
  datatype Draw = Draw(prob: real, side: Side, jitter: int)

  class MakerTrader {
    const offset: real
    const qty: real

    constructor (offset: real, qty: real)
      ensures this.offset == offset && this.qty == qty
    {
      this.offset := offset;
      this.qty := qty;
    }

    method Act(book: OrderBook, mid: real)
      requires book.Valid() && qty > 0.0
      modifies book
      ensures book.Valid()
      ensures book.View() == MakerQuotes(old(book.View()), Quoting(mid, offset, qty))
    {
      var q := Quoting(mid, offset, qty);
      if Guarded(book.View(), q) { return; }
      var _ := book.AddLimitOrder(BUY, q.Bid(), qty);
      var _ := book.AddLimitOrder(SELL, q.Ask(), qty);
    }
  }

  class TakerTrader {
    const actProb: real
    const qty: real

    constructor (actProb: real, qty: real)
      ensures this.actProb == actProb && this.qty == qty
    {
      this.actProb := actProb;
      this.qty := qty;
    }

    method Act(book: OrderBook, d: Draw)
      requires book.Valid()
      modifies book
      ensures book.Valid()
      ensures book.View() == if d.prob > actProb then old(book.View()) else Takes(old(book.View()), d.side, qty)
    {
      if d.prob > actProb { return; }
      var _ := book.AddMarketOrder(d.side, qty);
    }
  }

  class WhaleTrader {
    const interval: int
    const qty: real
    var nextActTick: nat

    constructor (interval: int, baseQty: real, jitter: int)
      ensures this.interval == interval && qty == 15.0 * baseQty
      ensures nextActTick == Whales.After(interval, jitter, []).next
      ensures nextActTick == if interval + jitter < 1 then 1 else interval + jitter
    {
      this.interval := interval;
      qty := 15.0 * baseQty;
      nextActTick := 0 + Whales.Delay(interval, jitter);
    }

    method Act(book: OrderBook, tick: nat, d: Draw)
      requires book.Valid()
      modifies this, book
      ensures book.Valid()
      ensures book.View() == if tick < old(nextActTick) then old(book.View()) else Takes(old(book.View()), d.side, qty)
      ensures nextActTick == Whales.Reschedule(old(nextActTick), interval, tick, d.jitter)
      ensures nextActTick == if tick < old(nextActTick) then old(nextActTick)
                             else if interval + d.jitter < 1 then tick + 1 else tick + interval + d.jitter
    {
      if tick < nextActTick { return; }
      var _ := book.AddMarketOrder(d.side, qty);
      var offset := interval + d.jitter;
      if offset < 1 { offset := 1; }
      nextActTick := tick + offset;
    }
  }

  datatype Trader = Maker(maker: MakerTrader) | Taker(taker: TakerTrader) | Whale(whale: WhaleTrader)

  /** The tick a whale is waiting for; 0 for the agents that do not wait. */
  function Waiting(t: Trader): nat
    reads if t.Whale? then {t.whale} else {}
  {
    if t.Whale? then t.whale.nextActTick else 0
  }

  ghost function WaitingAll(traders: seq<Trader>): (r: seq<nat>)
    reads set t | t in traders && t.Whale? :: t.whale
    ensures |r| == |traders| && forall i :: 0 <= i < |r| ==> r[i] == Waiting(traders[i])
  {
    if traders == [] then [] else WaitingAll(traders[..|traders| - 1]) + [Waiting(traders[|traders| - 1])]
  }

  /** What an agent does in a tick, given what it draws and what it waits for. */
  function TurnOf(t: Trader, waiting: nat, tick: nat, d: Draw): Turn {
    match t
    case Maker(_) => Quote
    case Taker(k) => if d.prob > k.actProb then Idle else Take(d.side, k.qty)
    case Whale(w) => if tick < waiting then Idle else Take(d.side, w.qty)
  }

  /** What an agent waits for after its turn. */
  function WaitAfter(t: Trader, waiting: nat, tick: nat, d: Draw): nat {
    if t.Whale? then Whales.Reschedule(waiting, t.whale.interval, tick, d.jitter) else waiting
  }

  /** An order of visits to n agents, with a draw for each. */
  predicate Visits(order: seq<nat>, draws: seq<Draw>, n: nat) {
    |order| == |draws| && forall i :: 0 <= i < |order| ==> order[i] < n
  }

  /** The turns of a phase that finds the agents waiting as given. */
  function Turns(traders: seq<Trader>, waiting: seq<nat>, order: seq<nat>, tick: nat, draws: seq<Draw>): (r: seq<Turn>)
    requires |waiting| == |traders| && Visits(order, draws, |traders|)
    ensures |r| == |order|
  {
    if order == [] then []
    else
      var n := |order| - 1;
      Turns(traders, waiting, order[..n], tick, draws[..n])
      + [TurnOf(traders[order[n]], waiting[order[n]], tick, draws[n])]
  }

  /** What they wait for after it, each visit in turn. */
  function Waits(traders: seq<Trader>, waiting: seq<nat>, order: seq<nat>, tick: nat, draws: seq<Draw>): (r: seq<nat>)
    requires |waiting| == |traders| && Visits(order, draws, |traders|)
    ensures |r| == |traders|
  {
    if order == [] then waiting
    else
      var n := |order| - 1;
      var w, k := Waits(traders, waiting, order[..n], tick, draws[..n]), order[n];
      w[k := WaitAfter(traders[k], w[k], tick, draws[n])]
  }

  lemma {:induction false} WaitsUnvisited(
      traders: seq<Trader>, waiting: seq<nat>, order: seq<nat>, tick: nat, draws: seq<Draw>, j: nat)
    requires |waiting| == |traders| && Visits(order, draws, |traders|) && j < |traders| && j !in order
    ensures Waits(traders, waiting, order, tick, draws)[j] == waiting[j]
  {
    if order != [] {
      WaitsUnvisited(traders, waiting, order[..|order| - 1], tick, draws[..|order| - 1], j);
    }
  }

  /** Visited once each, every agent ends up with its own single step from where it started. */
  lemma {:induction false} WaitsOnce(traders: seq<Trader>, waiting: seq<nat>, order: seq<nat>, tick: nat, draws: seq<Draw>, k: nat)
    requires |waiting| == |traders| && Visits(order, draws, |traders|) && k < |order|
    requires forall i, j :: 0 <= i < j < |order| ==> order[i] != order[j]
    ensures Waits(traders, waiting, order, tick, draws)[order[k]]
         == WaitAfter(traders[order[k]], waiting[order[k]], tick, draws[k])
  {
    var n := |order| - 1;
    if k == n {
      assert order[n] !in order[..n];
      WaitsUnvisited(traders, waiting, order[..n], tick, draws[..n], order[n]);
    } else {
      WaitsOnce(traders, waiting, order[..n], tick, draws[..n], k);
      assert order[k] != order[n];
    }
  }

  /** Indices of the makers. */
  function Makers(traders: seq<Trader>): set<nat> {
    set i: nat | i < |traders| && traders[i].Maker?
  }

  lemma {:induction false} QuotesCounted(traders: seq<Trader>, waiting: seq<nat>, order: seq<nat>, tick: nat, draws: seq<Draw>)
    requires |waiting| == |traders| && Visits(order, draws, |traders|)
    ensures Quotes(Turns(traders, waiting, order, tick, draws)) == Count(order, Makers(traders))
  {
    if order != [] {
      var n := |order| - 1;
      QuotesCounted(traders, waiting, order[..n], tick, draws[..n]);
      var turns := Turns(traders, waiting, order, tick, draws);
      assert turns[..n] == Turns(traders, waiting, order[..n], tick, draws[..n]);
    }
  }

  /** In a shuffled phase each maker quotes exactly once. */
  lemma EachMakerQuotes(traders: seq<Trader>, waiting: seq<nat>, order: seq<nat>, tick: nat, draws: seq<Draw>)
    requires |waiting| == |traders| && Shuffle(order, |traders|) && Visits(order, draws, |traders|)
    ensures Quotes(Turns(traders, waiting, order, tick, draws)) == |Makers(traders)|
  {
    QuotesCounted(traders, waiting, order, tick, draws);
    CountShuffled(order, Iota(|traders|), Makers(traders));
    CountIota(|traders|, Makers(traders));
  }

  const MAKER_OFFSET: real := 0.002
  const MAKER_QTY: real := 1.0
  const TAKER_PROB: real := 0.30
  const TAKER_QTY: real := 1.0
  const WHALE_BASE_QTY: real := 1.0

  function AtLeast0(n: int): nat { if n < 0 then 0 else n }

  /** A whale with the default settings, before its first tick. */
  ghost predicate Newborn(w: WhaleTrader, jitter: int) reads w {
    && w.interval == 200 && w.qty == 15.0
    && w.nextActTick == Whales.After(200, jitter, []).next == if 200 + jitter < 1 then 1 else 200 + jitter
  }

  /** A taker that acts with probability 0.3, one unit at a time. */
  predicate Standard(t: TakerTrader) { t.actProb == 0.3 && t.qty == 1.0 }

  predicate AreMakers(traders: seq<Trader>) {
    forall i :: 0 <= i < |traders| ==>
      traders[i].Maker? && traders[i].maker.offset == MAKER_OFFSET && traders[i].maker.qty == MAKER_QTY
  }

  predicate AreTakers(traders: seq<Trader>) {
    forall i :: 0 <= i < |traders| ==> traders[i].Taker? && Standard(traders[i].taker)
  }

  ghost predicate AreWhales(traders: seq<Trader>, jitters: seq<int>)
    requires |traders| <= |jitters|
    reads set t | t in traders && t.Whale? :: t.whale
  {
    && (forall i :: 0 <= i < |traders| ==> traders[i].Whale? && Newborn(traders[i].whale, jitters[i]))
    && (forall i, j :: 0 <= i < j < |traders| ==> traders[i] != traders[j])
  }

  method MakeMakers(n: nat) returns (traders: seq<Trader>)
    ensures |traders| == n && AreMakers(traders)
  {
    traders := [];
    for i := 0 to n
      invariant |traders| == i && AreMakers(traders)
    {
      var m := new MakerTrader(MAKER_OFFSET, MAKER_QTY);
      traders := traders + [Maker(m)];
    }
  }

  method MakeTakers(n: nat) returns (traders: seq<Trader>)
    ensures |traders| == n && AreTakers(traders)
  {
    traders := [];
    for i := 0 to n
      invariant |traders| == i && AreTakers(traders)
    {
      var t := new TakerTrader(TAKER_PROB, TAKER_QTY);
      traders := traders + [Taker(t)];
    }
  }

  method MakeWhales(n: nat, jitters: seq<int>) returns (traders: seq<Trader>)
    requires n <= |jitters|
    ensures |traders| == n && AreWhales(traders, jitters)
  {
    traders := [];
    for i := 0 to n
      invariant |traders| == i && AreWhales(traders, jitters)
      invariant forall k :: 0 <= k < i ==> fresh(traders[k].whale)
    {
      var w := new WhaleTrader(Whales.DEFAULT_INTERVAL, WHALE_BASE_QTY, jitters[i]);
      traders := traders + [Whale(w)];
    }
  }

  /** The population the simulation is built with: makers, then takers, then whales, all with the
      default settings; a negative number stands for none. jitters are the whales' first draws. */
  method Populate(numMakers: int, numTakers: int, numWhales: int, jitters: seq<int>) returns (traders: seq<Trader>)
    requires numWhales <= |jitters|
    ensures var m, t, w := AtLeast0(numMakers), AtLeast0(numTakers), AtLeast0(numWhales);
            && |traders| == m + t + w && |Makers(traders)| == m && GoodSettings(traders, 0.002, 1.0)
            && AreMakers(traders[..m]) && AreTakers(traders[m..m + t]) && AreWhales(traders[m + t..], jitters)
  {
    var makers := MakeMakers(AtLeast0(numMakers));
    var takers := MakeTakers(AtLeast0(numTakers));
    var whales := MakeWhales(AtLeast0(numWhales), jitters);
    traders := makers + takers + whales;
    assert traders[..|makers|] == makers;
    assert traders[|makers|..|makers| + |takers|] == takers;
    assert traders[|makers| + |takers|..] == whales;
    Mixed(makers, takers, whales, jitters);
  }

  lemma Mixed(makers: seq<Trader>, takers: seq<Trader>, whales: seq<Trader>, jitters: seq<int>)
    requires AreMakers(makers) && AreTakers(takers) && |whales| <= |jitters| && AreWhales(whales, jitters)
    ensures |Makers(makers + takers + whales)| == |makers| && GoodSettings(makers + takers + whales, 0.002, 1.0)
  {
    var all := makers + takers + whales;
    forall i | 0 <= i < |all| ensures all[i].Maker? <==> i < |makers| {
      if i >= |makers| + |takers| { assert all[i] == whales[i - |makers| - |takers|]; }
    }
    FirstMakers(all, |makers|);
    WhalesLast(makers + takers, whales);
  }

  lemma WhalesLast(others: seq<Trader>, whales: seq<Trader>)
    requires forall i :: 0 <= i < |others| ==> !others[i].Whale?
    requires forall i, j :: 0 <= i < j < |whales| ==> whales[i] != whales[j]
    ensures var all := others + whales;
            forall i, j :: 0 <= i < j < |all| && all[i].Whale? && all[j].Whale? ==> all[i].whale != all[j].whale
  {
    var all := others + whales;
    forall i, j | 0 <= i < j < |all| && all[i].Whale? && all[j].Whale? ensures all[i].whale != all[j].whale {
      assert all[i] == whales[i - |others|] && all[j] == whales[j - |others|];
    }
  }

  lemma FirstMakers(traders: seq<Trader>, n: nat)
    requires n <= |traders| && forall i :: 0 <= i < |traders| ==> (traders[i].Maker? <==> i < n)
    ensures |Makers(traders)| == n
  {
    CardinalityBelow(Makers(traders), n);
  }

  lemma {:induction false} CardinalityBelow(s: set<nat>, n: nat)
    requires forall x: nat :: x in s <==> x < n
    ensures |s| == n
  {
    if n == 0 {
      assert s == {};
    } else {
      CardinalityBelow(s - {n - 1}, n - 1);
    }
  }

  ghost predicate GoodSettings(traders: seq<Trader>, offset: real, qty: real) {
    && offset > 0.0 && qty > 0.0
    && (forall i :: 0 <= i < |traders| && traders[i].Maker? ==>
          traders[i].maker.offset == offset && traders[i].maker.qty == qty)
    && (forall i, j :: 0 <= i < j < |traders| && traders[i].Whale? && traders[j].Whale? ==>
          traders[i].whale != traders[j].whale)
  }

  class Market {
    const sim: Simulation
    const prices: PriceEngine
    const traders: seq<Trader>
    const offset: real
    const qty: real
    var tick: nat

    ghost const herd: set<WhaleTrader> := set t | t in traders && t.Whale? :: t.whale

    /** The makers share one setting; each whale is owned by one slot. */
    ghost predicate Configured() { GoodSettings(traders, offset, qty) }

    ghost function View(): (w: World)
      reads this, sim, sim.book, sim.tracker, prices, herd
      ensures |w.waiting| == |traders|
    {
      World(sim.View(), prices.price, WaitingAll(traders))
    }

    ghost predicate Ready()
      reads this, sim, sim.book, sim.tracker, sim.orders
    {
      sim.Valid() && Configured()
    }

    constructor (traders: seq<Trader>, orders: OrderQueue, startPrice: real, offset: real, qty: real)
      requires GoodSettings(traders, offset, qty) && orders.Valid()
      ensures Ready() && tick == 0 && this.traders == traders && sim.orders == orders && prices.price == startPrice
      ensures this.offset == offset && this.qty == qty
      ensures sim.View() == State(Book([], []), map[], [])
    {
      this.traders, this.offset, this.qty, tick := traders, offset, qty, 0;
      sim := new Simulation(orders);
      prices := new PriceEngine(startPrice);
    }

    /** The agent in slot k acts. */
    method ActOne(k: nat, mid: real, d: Draw)
      requires Ready() && k < |traders|
      modifies sim.book, herd
      ensures Ready()
      ensures sim.book.View()
           == Agents.BookAfter(old(sim.book.View()), TurnOf(traders[k], old(WaitingAll(traders))[k], tick, d),
                               Quoting(mid, offset, qty))
      ensures WaitingAll(traders)
           == old(WaitingAll(traders))[k := WaitAfter(traders[k], old(WaitingAll(traders))[k], tick, d)]
    {
      match traders[k]
      case Maker(m) => m.Act(sim.book, mid);
      case Taker(t) => t.Act(sim.book, d);
      case Whale(w) => w.Act(sim.book, tick, d);
    }

    /** The agent phase: every trader acts, in the given order. */
    method RunAgents(order: seq<nat>, draws: seq<Draw>, mid: real)
      requires Ready() && sim.book.View() == Book([], []) && Visits(order, draws, |traders|)
      requires forall i, j :: 0 <= i < j < |order| ==> order[i] != order[j]
      modifies sim.book, herd
      ensures Ready()
      ensures sim.book.View()
           == ActAll(Turns(traders, old(WaitingAll(traders)), order, tick, draws), Quoting(mid, offset, qty)).book
      ensures WaitingAll(traders) == Waits(traders, old(WaitingAll(traders)), order, tick, draws)
    {
      ghost var q, waiting := Quoting(mid, offset, qty), WaitingAll(traders);
      for i := 0 to |order|
        invariant Ready()
        invariant PhaseAt(traders, waiting, order, tick, draws, q, i, sim.book.View(), WaitingAll(traders))
      {
        PhaseNext(traders, waiting, order, tick, draws, q, i, sim.book.View(), WaitingAll(traders));
        ActOne(order[i], mid, draws[i]);
      }
      assert order[..|order|] == order && draws[..|order|] == draws;
    }

    /** The first half of a tick: an empty book, a new price, and every agent's turn. */
    method RunPhase(input: TickInput)
      requires Ready() && Proper(input, |traders|)
      modifies sim.book, prices, herd
      ensures Ready() && View() == AfterPhase(traders, offset, qty, old(View()), tick, input)
    {
      ghost var before := View();
      ShuffleVisitsOnce(input.order, |traders|);
      sim.book.Clear();
      var mid := prices.NextPrice(input.r);
      assert View() == World(before.sim.(book := Book([], [])), mid, before.waiting);
      RunAgents(input.order, input.draws, mid);
      PhaseIs(traders, offset, qty, before, tick, input, View());
    }

    /** One tick: the agent phase, and the queue drained into the book it leaves. */
    method RunTick(input: TickInput) returns (used: nat, ghost popped: seq<IncomingOrder>)
      requires Ready() && Proper(input, |traders|)
      modifies this, sim, sim.book, sim.tracker, sim.orders, prices, herd
      ensures Ready() && tick == old(tick) + 1
      ensures sim.orders.queue == [] && used <= |input.arrivals|
      ensures popped == old(sim.orders.queue) + Flatten(input.arrivals[..used])
      ensures sim.orders.popped == old(sim.orders.popped) + popped
      ensures Ticked(traders, offset, qty, old(tick), input, popped, old(View()), View())
    {
      ghost var before := View();
      RunPhase(input);
      ghost var mid := View();
      used, popped := DrainQueue(input.arrivals);
      TickIs(traders, offset, qty, tick, input, popped, before, mid, View());
      tick := tick + 1;
    }

    /** The second half of a tick. */
    method DrainQueue(arrivals: seq<seq<IncomingOrder>>) returns (used: nat, ghost popped: seq<IncomingOrder>)
      requires Ready()
      modifies sim, sim.book, sim.tracker, sim.orders
      ensures Ready() && sim.orders.queue == [] && used <= |arrivals|
      ensures popped == old(sim.orders.queue) + Flatten(arrivals[..used])
      ensures sim.orders.popped == old(sim.orders.popped) + popped
      ensures old(View()).sim.book.Valid() && View() == Drained(old(View()), popped)
    {
      ghost var waiting := WaitingAll(traders);
      used, popped := sim.DrainOrderQueue(arrivals);
      assert WaitingAll(traders) == waiting;
    }

    /** `run`: as many ticks as there are inputs. */
    method Run(inputs: seq<TickInput>) returns (ghost popped: seq<seq<IncomingOrder>>, ghost worlds: seq<World>)
      requires Ready() && AllProper(inputs, |traders|)
      modifies this, sim, sim.book, sim.tracker, sim.orders, prices, herd
      ensures Ready() && tick == old(tick) + |inputs|
      ensures IsRun(traders, offset, qty, old(tick), inputs, popped, worlds)
      ensures worlds[0] == old(View()) && worlds[|inputs|] == View()
      ensures sim.orders.popped == old(sim.orders.popped) + Flatten(popped)
    {
      ghost var first, was := tick, sim.orders.popped;
      popped, worlds := [], [View()];
      for i := 0 to |inputs|
        invariant Ready() && tick == first + i
        invariant IsRun(traders, offset, qty, first, inputs[..i], popped, worlds)
        invariant worlds[0] == old(View()) && worlds[i] == View()
        invariant Since(was, Flatten(popped), sim.orders.popped)
      {
        ghost var whole := sim.orders.popped;
        var _, one := RunTick(inputs[i]);
        RunNext(traders, offset, qty, first, inputs, i, popped, worlds, one, View());
        SinceMore(was, popped, whole, one);
        popped, worlds := popped + [one], worlds + [View()];
      }
      assert inputs[..|inputs|] == inputs;
    }
  }

  // ---------------------------------------------------------------- ticks and runs as functions

  /** All that a tick does not compute: the price draw, the shuffle, the agents' draws, and what the
      stdin thread pushes between the pops of the drain. */
  datatype TickInput = TickInput(r: real, order: seq<nat>, draws: seq<Draw>, arrivals: seq<seq<IncomingOrder>>)

  ghost predicate Proper(input: TickInput, n: nat) {
    -0.01 <= input.r <= 0.01 && Shuffle(input.order, n) && Visits(input.order, input.draws, n)
  }

  ghost predicate AllProper(inputs: seq<TickInput>, n: nat) {
    forall i :: 0 <= i < |inputs| ==> Proper(inputs[i], n)
  }

  /** What ticks change: the book, positions and events; the price; what each agent waits for. */
  datatype World = World(sim: State, price: real, waiting: seq<nat>)

  function PhaseOf(traders: seq<Trader>, waiting: seq<nat>, tick: nat, input: TickInput, q: Quoting): Floor
    requires |waiting| == |traders| && Visits(input.order, input.draws, |traders|)
  {
    ActAll(Turns(traders, waiting, input.order, tick, input.draws), q)
  }

  /** The first half of a tick. */
  ghost function AfterPhase(traders: seq<Trader>, offset: real, qty: real, w: World, tick: nat, input: TickInput): (r: World)
    requires |w.waiting| == |traders| && Proper(input, |traders|) && offset > 0.0 && qty > 0.0
    ensures |r.waiting| == |traders| && r.sim.book.Valid()
  {
    var q := Quoting(Walk(w.price, input.r), offset, qty);
    PhaseFacts(traders, w.waiting, input.order, tick, input.draws, q);
    World(w.sim.(book := PhaseOf(traders, w.waiting, tick, input, q).book), q.mid,
          Waits(traders, w.waiting, input.order, tick, input.draws))
  }

  lemma PhaseIs(traders: seq<Trader>, offset: real, qty: real, w: World, tick: nat, input: TickInput, r: World)
    requires |w.waiting| == |traders| && Proper(input, |traders|) && offset > 0.0 && qty > 0.0
    requires r.price == Walk(w.price, input.r) && r.sim == w.sim.(book := r.sim.book)
    requires r.sim.book == PhaseOf(traders, w.waiting, tick, input, Quoting(r.price, offset, qty)).book
    requires r.waiting == Waits(traders, w.waiting, input.order, tick, input.draws)
    ensures r == AfterPhase(traders, offset, qty, w, tick, input)
  {
  }

  function Drained(w: World, popped: seq<IncomingOrder>): World
    requires w.sim.book.Valid()
  {
    w.(sim := DrainAll(w.sim, popped))
  }

  /** One tick in which the drain pops the given orders. */
  ghost function OneTick(traders: seq<Trader>, offset: real, qty: real, w: World, tick: nat, input: TickInput,
                         popped: seq<IncomingOrder>): (r: World)
    requires |w.waiting| == |traders| && Proper(input, |traders|) && offset > 0.0 && qty > 0.0
    ensures |r.waiting| == |traders|
  {
    Drained(AfterPhase(traders, offset, qty, w, tick, input), popped)
  }

  ghost predicate Ticked(traders: seq<Trader>, offset: real, qty: real, tick: nat, input: TickInput,
                         popped: seq<IncomingOrder>, before: World, after: World)
  {
    && |before.waiting| == |traders| && Proper(input, |traders|) && offset > 0.0 && qty > 0.0
    && after == OneTick(traders, offset, qty, before, tick, input, popped)
  }

  lemma TickIs(traders: seq<Trader>, offset: real, qty: real, tick: nat, input: TickInput,
               popped: seq<IncomingOrder>, before: World, mid: World, after: World)
    requires |before.waiting| == |traders| && Proper(input, |traders|) && offset > 0.0 && qty > 0.0
    requires mid == AfterPhase(traders, offset, qty, before, tick, input) && after == Drained(mid, popped)
    ensures Ticked(traders, offset, qty, tick, input, popped, before, after)
  {
  }

  /** Ticks tick, tick + 1, ..., one for each input, with the states before, between and after. */
  ghost predicate IsRun(traders: seq<Trader>, offset: real, qty: real, tick: nat, inputs: seq<TickInput>,
                        popped: seq<seq<IncomingOrder>>, worlds: seq<World>)
  {
    && |worlds| == |inputs| + 1 && |popped| == |inputs|
    && forall i :: 0 <= i < |inputs| ==> Ticked(traders, offset, qty, tick + i, inputs[i], popped[i], worlds[i], worlds[i + 1])
  }

  lemma RunNext(traders: seq<Trader>, offset: real, qty: real, tick: nat, inputs: seq<TickInput>, i: nat,
                popped: seq<seq<IncomingOrder>>, worlds: seq<World>, one: seq<IncomingOrder>, now: World)
    requires i < |inputs| && IsRun(traders, offset, qty, tick, inputs[..i], popped, worlds)
    requires Ticked(traders, offset, qty, tick + i, inputs[i], one, worlds[i], now)
    ensures IsRun(traders, offset, qty, tick, inputs[..i + 1], popped + [one], worlds + [now])
  {
  }

  lemma SinceMore(was: seq<IncomingOrder>, popped: seq<seq<IncomingOrder>>, whole: seq<IncomingOrder>, one: seq<IncomingOrder>)
    requires Since(was, Flatten(popped), whole)
    ensures Since(was, Flatten(popped + [one]), whole + one)
  {
    assert (popped + [one])[..|popped|] == popped;
    Join(was, Flatten(popped), one);
  }

  // ---------------------------------------------------------------- what holds over whole runs

  ghost predicate GoodPhase(traders: seq<Trader>, offset: real, qty: real, tick: nat, input: TickInput, w: World) {
    && |w.waiting| == |traders| && Visits(input.order, input.draws, |traders|)
    && var q := Quoting(Walk(w.price, input.r), offset, qty);
       PhaseOutcome(PhaseOf(traders, w.waiting, tick, input, q), q, |Makers(traders)|)
  }

  /** In every tick of every run the price is at or above the floor and the agent phase leaves an
      uncrossed book of known shape. */
  lemma EveryPhase(traders: seq<Trader>, offset: real, qty: real, tick: nat, inputs: seq<TickInput>,
                   popped: seq<seq<IncomingOrder>>, worlds: seq<World>, t: nat)
    requires IsRun(traders, offset, qty, tick, inputs, popped, worlds) && t < |inputs|
    ensures GoodPhase(traders, offset, qty, tick + t, inputs[t], worlds[t])
  {
    TickPhase(traders, offset, qty, tick + t, inputs[t], popped[t], worlds[t], worlds[t + 1]);
  }

  lemma TickPhase(traders: seq<Trader>, offset: real, qty: real, tick: nat, input: TickInput,
                  popped: seq<IncomingOrder>, before: World, after: World)
    requires Ticked(traders, offset, qty, tick, input, popped, before, after)
    ensures GoodPhase(traders, offset, qty, tick, input, before)
  {
    PhaseFacts(traders, before.waiting, input.order, tick, input.draws, Quoting(Walk(before.price, input.r), offset, qty));
  }

  lemma TickTracks(traders: seq<Trader>, offset: real, qty: real, tick: nat, input: TickInput,
                   popped: seq<IncomingOrder>, before: World, after: World)
    requires Ticked(traders, offset, qty, tick, input, popped, before, after)
    requires Tracks(before.sim.positions, before.sim.events)
    ensures Tracks(after.sim.positions, after.sim.events)
  {
    DrainTracks(AfterPhase(traders, offset, qty, before, tick, input).sim, popped);
  }

  /** At every point of every run the tracker is the replay of the emitted fills. */
  lemma {:induction false} RunTracks(traders: seq<Trader>, offset: real, qty: real, tick: nat, inputs: seq<TickInput>,
                                     popped: seq<seq<IncomingOrder>>, worlds: seq<World>, t: nat)
    requires IsRun(traders, offset, qty, tick, inputs, popped, worlds) && t <= |inputs|
    requires Tracks(worlds[0].sim.positions, worlds[0].sim.events)
    ensures Tracks(worlds[t].sim.positions, worlds[t].sim.events)
  {
    if t > 0 {
      RunTracks(traders, offset, qty, tick, inputs, popped, worlds, t - 1);
      var i := t - 1;
      TickTracks(traders, offset, qty, tick + i, inputs[i], popped[i], worlds[i], worlds[i + 1]);
    }
  }

  /** Where in the shuffled order an agent comes. */
  ghost function Visit(order: seq<nat>, j: nat): (k: nat)
    requires j in order
    ensures k < |order| && order[k] == j
  {
    var k :| 0 <= k < |order| && order[k] == j; k
  }

  lemma EachVisited(order: seq<nat>, n: nat, j: nat)
    requires Shuffle(order, n) && j < n
    ensures j in order
  {
    IotaBelow(n);
    assert Iota(n)[j] in multiset(order);
  }

  /** What slot j's generator yields in a tick. */
  ghost function DrawIn(input: TickInput, n: nat, j: nat): Draw
    requires Proper(input, n) && j < n
  {
    EachVisited(input.order, n, j);
    input.draws[Visit(input.order, j)]
  }

  /** What it yields for the whale's delay in the first t ticks. */
  ghost function Jitters(inputs: seq<TickInput>, n: nat, j: nat, t: nat): (r: seq<int>)
    requires AllProper(inputs, n) && j < n && t <= |inputs|
    ensures |r| == t
  {
    if t == 0 then [] else Jitters(inputs, n, j, t - 1) + [DrawIn(inputs[t - 1], n, j).jitter]
  }

  lemma {:induction false} JittersAt(inputs: seq<TickInput>, n: nat, j: nat, t: nat, u: nat)
    requires AllProper(inputs, n) && j < n && t <= u <= |inputs|
    ensures Jitters(inputs, n, j, u)[..t] == Jitters(inputs, n, j, t)
  {
    if t < u { JittersAt(inputs, n, j, t, u - 1); }
  }

  lemma WaitOf(traders: seq<Trader>, waiting: seq<nat>, tick: nat, input: TickInput, j: nat)
    requires |waiting| == |traders| && Proper(input, |traders|) && j < |traders|
    ensures Waits(traders, waiting, input.order, tick, input.draws)[j]
         == WaitAfter(traders[j], waiting[j], tick, DrawIn(input, |traders|, j))
  {
    ShuffleVisitsOnce(input.order, |traders|);
    EachVisited(input.order, |traders|, j);
    WaitsOnce(traders, waiting, input.order, tick, input.draws, Visit(input.order, j));
  }

  /** A whale in slot j, as built with the first draw. */
  ghost predicate Awaits(traders: seq<Trader>, start: World, j: nat, first: int) {
    && |start.waiting| == |traders| && j < |traders| && traders[j].Whale?
    && start.waiting[j] == Whales.After(traders[j].whale.interval, first, []).next
  }

  lemma WaitStep(traders: seq<Trader>, offset: real, qty: real, tick: nat, input: TickInput,
                 popped: seq<IncomingOrder>, before: World, after: World, j: nat)
    requires Ticked(traders, offset, qty, tick, input, popped, before, after) && j < |traders|
    ensures |after.waiting| == |traders|
    ensures after.waiting[j] == WaitAfter(traders[j], before.waiting[j], tick, DrawIn(input, |traders|, j))
  {
    WaitOf(traders, before.waiting, tick, input, j);
  }

  lemma ScheduleStep(interval: int, first: int, draws: seq<int>, d: int)
    ensures Whales.After(interval, first, draws + [d]).next
         == Whales.Reschedule(Whales.After(interval, first, draws).next, interval, |draws|, d)
  {
    assert (draws + [d])[..|draws|] == draws;
  }

  /** At every point of every run from tick 0, what a whale waits for is what its schedule says. */
  lemma {:induction false} WhaleWaits(traders: seq<Trader>, offset: real, qty: real, inputs: seq<TickInput>,
                                      popped: seq<seq<IncomingOrder>>, worlds: seq<World>, j: nat, first: int, t: nat)
    requires IsRun(traders, offset, qty, 0, inputs, popped, worlds) && AllProper(inputs, |traders|)
    requires Awaits(traders, worlds[0], j, first) && t <= |inputs|
    ensures |worlds[t].waiting| == |traders|
    ensures worlds[t].waiting[j]
         == Whales.After(traders[j].whale.interval, first, Jitters(inputs, |traders|, j, t)).next
  {
    if t > 0 {
      WhaleWaits(traders, offset, qty, inputs, popped, worlds, j, first, t - 1);
      var i := t - 1;
      WaitStep(traders, offset, qty, 0 + i, inputs[i], popped[i], worlds[i], worlds[i + 1], j);
      ScheduleStep(traders[j].whale.interval, first, Jitters(inputs, |traders|, j, i), DrawIn(inputs[i], |traders|, j).jitter);
    }
  }

  /** The turn of slot j in a tick. */
  ghost function TurnIn(traders: seq<Trader>, waiting: seq<nat>, tick: nat, input: TickInput, j: nat): Turn
    requires |waiting| == |traders| && Proper(input, |traders|) && j < |traders|
  {
    EachVisited(input.order, |traders|, j);
    Turns(traders, waiting, input.order, tick, input.draws)[Visit(input.order, j)]
  }

  lemma {:induction false} TurnsAt(traders: seq<Trader>, waiting: seq<nat>, order: seq<nat>, tick: nat, draws: seq<Draw>, k: nat)
    requires |waiting| == |traders| && Visits(order, draws, |traders|) && k < |order|
    ensures Turns(traders, waiting, order, tick, draws)[k] == TurnOf(traders[order[k]], waiting[order[k]], tick, draws[k])
  {
    if k < |order| - 1 { TurnsAt(traders, waiting, order[..|order| - 1], tick, draws[..|order| - 1], k); }
  }

  /** A whale takes in the ticks from its appointment on. */
  lemma WhaleTakes(traders: seq<Trader>, waiting: seq<nat>, tick: nat, input: TickInput, j: nat)
    requires |waiting| == |traders| && Proper(input, |traders|) && j < |traders| && traders[j].Whale?
    ensures TurnIn(traders, waiting, tick, input, j).Take? <==> waiting[j] <= tick
  {
    EachVisited(input.order, |traders|, j);
    TurnsAt(traders, waiting, input.order, tick, input.draws, Visit(input.order, j));
  }

  /** In tick t of a run it takes exactly when t is one of the ticks its schedule acts in. */
  lemma WhaleActs(traders: seq<Trader>, offset: real, qty: real, inputs: seq<TickInput>,
                  popped: seq<seq<IncomingOrder>>, worlds: seq<World>, j: nat, first: int, t: nat)
    requires IsRun(traders, offset, qty, 0, inputs, popped, worlds) && AllProper(inputs, |traders|)
    requires Awaits(traders, worlds[0], j, first) && t < |inputs|
    ensures |worlds[t].waiting| == |traders|
    ensures TurnIn(traders, worlds[t].waiting, t, inputs[t], j).Take?
       <==> t in Whales.After(traders[j].whale.interval, first, Jitters(inputs, |traders|, j, |inputs|)).acts
  {
    WhaleWaits(traders, offset, qty, inputs, popped, worlds, j, first, t);
    WhaleTakes(traders, worlds[t].waiting, t, inputs[t], j);
    JittersAt(inputs, |traders|, j, t, |inputs|);
    Whales.ActsExactly(traders[j].whale.interval, first, Jitters(inputs, |traders|, j, |inputs|), t);
  }

  /** What the agent phase leaves: a price at or above the floor, a sound uncrossed book with at
      most one level a side at the quoted prices, and no quantity unaccounted for. */
  predicate PhaseOutcome(phase: Floor, q: Quoting, makers: nat) {
    && q.mid >= FLOOR
    && PhaseBook(phase, q, Supply(makers, q.qty))
    && phase.book.Valid()
    && Uncrossed(phase.book)
    && (phase.book.bids != [] && phase.book.asks != [] ==>
          phase.book.asks[0].price - phase.book.bids[0].price == 2.0 * q.offset * q.mid)
  }

  /** The book and the waits after the first i turns of a phase. */
  predicate PhaseAt(traders: seq<Trader>, waiting: seq<nat>, order: seq<nat>, tick: nat, draws: seq<Draw>, q: Quoting,
                    i: nat, book: Book, now: seq<nat>)
  {
    && |waiting| == |traders| && Visits(order, draws, |traders|) && i <= |order|
    && book == ActAll(Turns(traders, waiting, order[..i], tick, draws[..i]), q).book
    && now == Waits(traders, waiting, order[..i], tick, draws[..i])
  }

  lemma PhaseNext(traders: seq<Trader>, waiting: seq<nat>, order: seq<nat>, tick: nat, draws: seq<Draw>, q: Quoting,
                  i: nat, book: Book, now: seq<nat>)
    requires PhaseAt(traders, waiting, order, tick, draws, q, i, book, now) && i < |order|
    requires forall j, k :: 0 <= j < k < |order| ==> order[j] != order[k]
    ensures var k := order[i];
            PhaseAt(traders, waiting, order, tick, draws, q, i + 1,
                    Agents.BookAfter(book, TurnOf(traders[k], now[k], tick, draws[i]), q),
                    now[k := WaitAfter(traders[k], now[k], tick, draws[i])])
  {
    assert order[i] !in order[..i];
    WaitsUnvisited(traders, waiting, order[..i], tick, draws[..i], order[i]);
    assert order[..i + 1][..i] == order[..i] && draws[..i + 1][..i] == draws[..i];
    var turns := Turns(traders, waiting, order[..i + 1], tick, draws[..i + 1]);
    assert turns[..i] == Turns(traders, waiting, order[..i], tick, draws[..i]);
  }

  /** What any shuffled agent phase leaves, whatever is drawn. */
  lemma PhaseFacts(traders: seq<Trader>, waiting: seq<nat>, order: seq<nat>, tick: nat, draws: seq<Draw>, q: Quoting)
    requires |waiting| == |traders| && Shuffle(order, |traders|) && Visits(order, draws, |traders|) && q.Sound()
    ensures PhaseOutcome(ActAll(Turns(traders, waiting, order, tick, draws), q), q, |Makers(traders)|)
  {
    var turns := Turns(traders, waiting, order, tick, draws);
    PhaseExact(turns, q);
    EachMakerQuotes(traders, waiting, order, tick, draws);
    PhaseUncrossed(ActAll(turns, q), q, Supply(|Makers(traders)|, q.qty));
  }
}
