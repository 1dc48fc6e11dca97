/** Routing of engine events to sandboxes (server/sandbox/relay.go). The fan-out goroutine and the
    handlers interleave between their critical sections; a step is one of those sections, or one
    channel operation outside them. */
module Relay {
  import opened Types

  /** What the fan-out reads from an event: its type and, for fills and rejects, the trader. */
  datatype Event = Tick(raw: string) | Report(traderId: string, raw: string) | Other(raw: string)

  /** What a sandbox channel holds: an engine event by its place in the engine stream, the last
      known tick sent on attaching, or the handler's own rate-limit reject. */
  datatype Item = FromEngine(at: nat) | CatchUp(at: nat) | RateLimited

  const CAPACITY: nat := 64

  /** How far a handler has come. */
  datatype Phase = Attached | Holding(last: Option<nat>) | Serving | Gone

  /** A handler with its channel: all that was ever queued on it, how many items the writer has
      taken, the place in the engine stream where it attached, and how many engine events it has
      missed because the buffer was full. */
  datatype Handler = Handler(owner: string, items: seq<Item>, taken: nat, phase: Phase, joined: nat, drops: nat) {
    /** A send with a default case: dropped when the buffer is full. */
    function Offer(item: Item): Handler {
      if |items| < taken + CAPACITY then this.(items := items + [item])
      else this.(drops := drops + if item.FromEngine? then 1 else 0)
    }
  }

  datatype Pending = Pending(at: nat, chan: nat)

  /** Handlers are numbered by their channels. `pending` is the channel the fan-out has looked up
      under the read lock and not yet sent to. */
  datatype State = State(
    stream: seq<Event>, lastTick: Option<nat>, conns: map<string, nat>,
    handlers: map<nat, Handler>, pending: Option<Pending>)

  datatype Step =
    | FanOut(event: Event)
    | SendPending
    | Attach(trader: string, chan: nat)
    | ReadLast(chan: nat)
    | SendLast(chan: nat)
    | Reject(chan: nat)
    | Write(chan: nat)
    | Detach(chan: nat)

  predicate Enabled(s: State, step: Step) {
    match step
    case FanOut(_) => s.pending.None?
    case SendPending => s.pending.Some? && s.pending.value.chan in s.handlers
    case Attach(_, c) => c !in s.handlers
    case ReadLast(c) => c in s.handlers && s.handlers[c].phase.Attached?
    case SendLast(c) => c in s.handlers && s.handlers[c].phase.Holding?
    case Reject(c) => c in s.handlers && s.handlers[c].phase.Serving?
    case Write(c) => c in s.handlers && s.handlers[c].taken < |s.handlers[c].items|
    case Detach(c) => c in s.handlers && !s.handlers[c].phase.Gone?
  }

  function OfferAll(handlers: map<nat, Handler>, to: set<nat>, item: Item): map<nat, Handler> {
    map c | c in handlers :: if c in to then handlers[c].Offer(item) else handlers[c]
  }

  function FanOutStep(s: State, event: Event): State {
    var at := |s.stream|;
    var r := s.(stream := s.stream + [event]);
    match event
    case Tick(_) => r.(lastTick := Some(at), handlers := OfferAll(s.handlers, s.conns.Values, FromEngine(at)))
    case Report(t, _) => if t != "" && t in s.conns then r.(pending := Some(Pending(at, s.conns[t]))) else r
    case Other(_) => r
  }

  /** The deferred exit: delete only one's own registration. */
  function Release(conns: map<string, nat>, owner: string, chan: nat): map<string, nat> {
    if owner in conns && conns[owner] == chan then conns - {owner} else conns
  }

  function Next(s: State, step: Step): State
    requires Enabled(s, step)
  {
    match step
    case FanOut(event) => FanOutStep(s, event)
    case SendPending =>
      var p := s.pending.value;
      s.(pending := None, handlers := s.handlers[p.chan := s.handlers[p.chan].Offer(FromEngine(p.at))])
    case Attach(t, c) => s.(conns := s.conns[t := c], handlers := s.handlers[c := Handler(t, [], 0, Attached, |s.stream|, 0)])
    case ReadLast(c) => s.(handlers := s.handlers[c := s.handlers[c].(phase := Holding(s.lastTick))])
    case SendLast(c) =>
      var h := s.handlers[c];
      var sent := if h.phase.last.Some? then h.Offer(CatchUp(h.phase.last.value)) else h;
      s.(handlers := s.handlers[c := sent.(phase := Serving)])
    case Reject(c) => s.(handlers := s.handlers[c := s.handlers[c].Offer(RateLimited)])
    case Write(c) => s.(handlers := s.handlers[c := s.handlers[c].(taken := s.handlers[c].taken + 1)])
    case Detach(c) =>
      s.(conns := Release(s.conns, s.handlers[c].owner, c),
         handlers := s.handlers[c := s.handlers[c].(phase := Gone)])
  }

  // ---------------------------------------------------------------- what a channel may hold

  predicate IsTick(stream: seq<Event>, at: nat) { at < |stream| && stream[at].Tick? }

  /** A tick, or a fill or reject that names the owner. */
  predicate MayReach(stream: seq<Event>, at: nat, owner: string) {
    at < |stream| && (stream[at].Tick? || (stream[at].Report? && stream[at].traderId == owner != ""))
  }

  /** Every item belongs to the owner, and the engine's come in stream order, all before bound. */
  predicate Routed(items: seq<Item>, stream: seq<Event>, owner: string, bound: nat) {
    items == [] ||
    match items[|items| - 1]
    case FromEngine(i) => i < bound && MayReach(stream, i, owner) && Routed(items[..|items| - 1], stream, owner, i)
    case CatchUp(i) => IsTick(stream, i) && Routed(items[..|items| - 1], stream, owner, bound)
    case RateLimited => Routed(items[..|items| - 1], stream, owner, bound)
  }

  lemma {:induction false} RoutedLater(
      items: seq<Item>, stream: seq<Event>, more: seq<Event>, owner: string, bound: nat, later: nat)
    requires Routed(items, stream, owner, bound) && bound <= later
    ensures Routed(items, stream + more, owner, later)
  {
    if items != [] {
      var init := items[..|items| - 1];
      match items[|items| - 1]
      case FromEngine(i) => RoutedLater(init, stream, more, owner, i, i);
      case CatchUp(i) => RoutedLater(init, stream, more, owner, bound, later);
      case RateLimited => RoutedLater(init, stream, more, owner, bound, later);
    }
  }

  lemma OfferRouted(h: Handler, item: Item, stream: seq<Event>, bound: nat)
    requires match item
             case FromEngine(i) => MayReach(stream, i, h.owner) && Routed(h.items, stream, h.owner, i) && i < bound
             case CatchUp(i) => IsTick(stream, i) && Routed(h.items, stream, h.owner, bound)
             case RateLimited => Routed(h.items, stream, h.owner, bound)
    ensures Routed(h.Offer(item).items, stream, h.owner, bound)
  {
    var sent := h.items + [item];
    assert sent[..|sent| - 1] == h.items;
    if item.FromEngine? {
      RoutedLater(h.items, stream, [], h.owner, item.at, bound);
      assert stream + [] == stream;
    }
  }

  /** Below this the engine's events have all been dealt with. */
  function Bound(s: State): nat { if s.pending.Some? then s.pending.value.at else |s.stream| }

  predicate PendingSound(s: State) {
    s.pending.Some? ==>
      var p := s.pending.value;
      && p.at + 1 == |s.stream| && p.chan in s.handlers
      && s.stream[p.at].Report? && s.stream[p.at].traderId == s.handlers[p.chan].owner != ""
  }

  predicate HandlerSound(s: State, h: Handler) {
    && Routed(h.items, s.stream, h.owner, Bound(s))
    && (h.phase.Holding? && h.phase.last.Some? ==> IsTick(s.stream, h.phase.last.value))
  }

  /** A registration belongs to a handler of that trader that has not gone. */
  predicate Registered(s: State, t: string) {
    t in s.conns ==>
      && s.conns[t] in s.handlers && s.handlers[s.conns[t]].owner == t && !s.handlers[s.conns[t]].phase.Gone?
  }

  ghost predicate Invariant(s: State) {
    && PendingSound(s)
    && (s.lastTick.Some? ==> IsTick(s.stream, s.lastTick.value))
    && (forall c :: c in s.handlers ==> HandlerSound(s, s.handlers[c]))
    && (forall t :: Registered(s, t))
  }

  // ---------------------------------------------------------------- every step keeps it

  lemma Replaced(s: State, c: nat, h: Handler)
    requires Invariant(s) && c in s.handlers && h.owner == s.handlers[c].owner
    requires h.phase.Gone? ==> s.handlers[c].phase.Gone?
    requires HandlerSound(s, h)
    ensures Invariant(s.(handlers := s.handlers[c := h]))
  {
    var r := s.(handlers := s.handlers[c := h]);
    forall d | d in r.handlers ensures HandlerSound(r, r.handlers[d]) {
      assert HandlerSound(s, r.handlers[d]);
    }
    forall t ensures Registered(r, t) { assert Registered(s, t); }
  }

  lemma SoundLater(s: State, event: Event, h: Handler)
    requires Invariant(s) && s.pending.None? && HandlerSound(s, h)
    ensures Routed(h.items, s.stream + [event], h.owner, |s.stream|)
    ensures Routed(h.items, s.stream + [event], h.owner, |s.stream| + 1)
    ensures h.phase.Holding? && h.phase.last.Some? ==> IsTick(s.stream + [event], h.phase.last.value)
  {
    RoutedLater(h.items, s.stream, [event], h.owner, |s.stream|, |s.stream|);
    RoutedLater(h.items, s.stream, [event], h.owner, |s.stream|, |s.stream| + 1);
  }

  lemma FanOutKeeps(s: State, event: Event)
    requires Invariant(s) && s.pending.None?
    ensures Invariant(FanOutStep(s, event))
  {
    var r := FanOutStep(s, event);
    forall c | c in r.handlers ensures HandlerSound(r, r.handlers[c]) {
      var h := s.handlers[c];
      SoundLater(s, event, h);
      if event.Tick? { OfferRouted(h, FromEngine(|s.stream|), r.stream, |r.stream|); }
    }
    forall t ensures Registered(r, t) { assert Registered(s, t); }
    if event.Report? { assert Registered(s, event.traderId); }
  }

  lemma SendPendingKeeps(s: State)
    requires Invariant(s) && Enabled(s, SendPending)
    ensures Invariant(Next(s, SendPending))
  {
    var r, p := Next(s, SendPending), s.pending.value;
    forall c | c in r.handlers ensures HandlerSound(r, r.handlers[c]) {
      var h := s.handlers[c];
      assert HandlerSound(s, h);
      if c == p.chan {
        OfferRouted(h, FromEngine(p.at), s.stream, |s.stream|);
      } else {
        RoutedLater(h.items, s.stream, [], h.owner, p.at, |s.stream|);
        assert s.stream + [] == s.stream;
      }
    }
    forall t ensures Registered(r, t) { assert Registered(s, t); }
  }

  lemma AttachKeeps(s: State, t: string, c: nat)
    requires Invariant(s) && c !in s.handlers
    ensures Invariant(Next(s, Attach(t, c)))
  {
    var r := Next(s, Attach(t, c));
    forall d | d in r.handlers ensures HandlerSound(r, r.handlers[d]) {
      if d != c { assert HandlerSound(s, s.handlers[d]); }
    }
    forall u ensures Registered(r, u) { assert Registered(s, u); }
  }

  lemma DetachKeeps(s: State, c: nat)
    requires Invariant(s) && Enabled(s, Detach(c))
    ensures Invariant(Next(s, Detach(c)))
  {
    var r := Next(s, Detach(c));
    forall d | d in r.handlers ensures HandlerSound(r, r.handlers[d]) {
      assert HandlerSound(s, s.handlers[d]);
    }
    forall t ensures Registered(r, t) { assert Registered(s, t); }
  }

  lemma StepKeeps(s: State, step: Step)
    requires Invariant(s) && Enabled(s, step)
    ensures Invariant(Next(s, step))
  {
    match step
    case FanOut(event) => FanOutKeeps(s, event);
    case SendPending => SendPendingKeeps(s);
    case Attach(t, c) => AttachKeeps(s, t, c);
    case ReadLast(c) => Replaced(s, c, s.handlers[c].(phase := Holding(s.lastTick)));
    case SendLast(c) =>
      var h := s.handlers[c];
      assert HandlerSound(s, h);
      if h.phase.last.Some? { OfferRouted(h, CatchUp(h.phase.last.value), s.stream, Bound(s)); }
      Replaced(s, c, Next(s, step).handlers[c]);
    case Reject(c) =>
      assert HandlerSound(s, s.handlers[c]);
      OfferRouted(s.handlers[c], RateLimited, s.stream, Bound(s));
      Replaced(s, c, s.handlers[c].Offer(RateLimited));
    case Write(c) => Replaced(s, c, s.handlers[c].(taken := s.handlers[c].taken + 1));
    case Detach(c) => DetachKeeps(s, c);
  }

  datatype Trace = Nil | Snoc(before: Trace, step: Step)

  const Start := State([], None, map[], map[], None)

  /** The state after an interleaving; a step that is not enabled does not happen. */
  function Final(t: Trace): State {
    match t
    case Nil => Start
    case Snoc(b, step) => if Enabled(Final(b), step) then Next(Final(b), step) else Final(b)
  }

  lemma {:induction false} RunKeeps(t: Trace)
    ensures Invariant(Final(t))
  {
    match t
    case Nil =>
    case Snoc(b, step) =>
      RunKeeps(b);
      if Enabled(Final(b), step) { StepKeeps(Final(b), step); }
  }

  /** In every interleaving a sandbox's channel holds only published ticks, fills and rejects that
      carry its own trader id, or its own rate-limit rejects. */
  lemma {:induction false} OnlyOwnItems(t: Trace, c: nat, item: Item)
    requires c in Final(t).handlers && item in Final(t).handlers[c].items
    ensures match item
            case FromEngine(i) => MayReach(Final(t).stream, i, Final(t).handlers[c].owner)
            case CatchUp(i) => IsTick(Final(t).stream, i)
            case RateLimited => true
  {
    RunKeeps(t);
    assert HandlerSound(Final(t), Final(t).handlers[c]);
    RoutedItem(Final(t).handlers[c].items, Final(t).stream, Final(t).handlers[c].owner, Bound(Final(t)), item);
  }

  lemma {:induction false} RoutedItem(items: seq<Item>, stream: seq<Event>, owner: string, bound: nat, item: Item)
    requires Routed(items, stream, owner, bound) && item in items
    ensures match item
            case FromEngine(i) => i < bound && MayReach(stream, i, owner)
            case CatchUp(i) => IsTick(stream, i)
            case RateLimited => true
  {
    var init, last := items[..|items| - 1], items[|items| - 1];
    if item != last {
      assert item in init;
      RoutedItem(init, stream, owner, if last.FromEngine? then last.at else bound, item);
    }
  }

  /** Apart from the catch-up tick, the engine's events come in the order of the engine stream,
      none twice. */
  lemma {:induction false} InStreamOrder(t: Trace, c: nat, j: nat, k: nat)
    requires c in Final(t).handlers && j < k < |Final(t).handlers[c].items|
    requires Final(t).handlers[c].items[j].FromEngine? && Final(t).handlers[c].items[k].FromEngine?
    ensures Final(t).handlers[c].items[j].at < Final(t).handlers[c].items[k].at
  {
    RunKeeps(t);
    assert HandlerSound(Final(t), Final(t).handlers[c]);
    RoutedOrder(Final(t).handlers[c].items, Final(t).stream, Final(t).handlers[c].owner, Bound(Final(t)), j, k);
  }

  lemma {:induction false} RoutedOrder(items: seq<Item>, stream: seq<Event>, owner: string, bound: nat, j: nat, k: nat)
    requires Routed(items, stream, owner, bound) && j < k < |items|
    requires items[j].FromEngine? && items[k].FromEngine?
    ensures items[j].at < items[k].at
    decreases |items|
  {
    var n := |items| - 1;
    var init, last := items[..n], items[n];
    if k == n {
      assert init[j] == items[j] && items[j] in init;
      RoutedItem(init, stream, owner, last.at, items[j]);
    } else {
      RoutedOrder(init, stream, owner, if last.FromEngine? then last.at else bound, j, k);
    }
  }

  /** A registration ends only by its own handler's exit or by a newer handler taking over: no
      other handler's exit removes it. */
  lemma RegistrationKept(s: State, step: Step, t: string)
    requires Invariant(s) && Enabled(s, step) && t in s.conns
    ensures var r := Next(s, step);
            (t in r.conns && r.conns[t] == s.conns[t]) || step == Detach(s.conns[t]) || (step.Attach? && step.trader == t)
  {
  }

  // ---------------------------------------------------------------- nothing is left out

  function EngineIndices(items: seq<Item>): seq<nat> {
    if items == [] then []
    else
      var last := items[|items| - 1];
      EngineIndices(items[..|items| - 1]) + if last.FromEngine? then [last.at] else []
  }

  /** The places from joined up to bound of all events meant for the owner. */
  function Due(stream: seq<Event>, joined: nat, bound: nat, owner: string): seq<nat> {
    if bound <= joined then []
    else Due(stream, joined, bound - 1, owner) + if MayReach(stream, bound - 1, owner) then [bound - 1] else []
  }

  lemma {:induction false} DueLater(stream: seq<Event>, event: Event, joined: nat, bound: nat, owner: string)
    requires bound <= |stream|
    ensures Due(stream + [event], joined, bound, owner) == Due(stream, joined, bound, owner)
  {
    if bound > joined { DueLater(stream, event, joined, bound - 1, owner); }
  }

  predicate IsRegistered(s: State, c: nat)
    requires c in s.handlers
  {
    s.handlers[c].owner in s.conns && s.conns[s.handlers[c].owner] == c
  }

  /** A registered handler that has missed nothing has been offered everything due to it. */
  predicate Complete(s: State, c: nat)
    requires c in s.handlers
  {
    var h := s.handlers[c];
    && h.joined <= |s.stream|
    && (IsRegistered(s, c) && h.drops == 0 ==> EngineIndices(h.items) == Due(s.stream, h.joined, Bound(s), h.owner))
  }

  /** The channel looked up for a report was its trader's; one that replaced it came later. */
  predicate PendingCurrent(s: State) {
    s.pending.Some? && s.pending.value.chan in s.handlers && s.pending.value.at < |s.stream| ==>
      var p := s.pending.value;
      var t := s.handlers[p.chan].owner;
      && s.handlers[p.chan].joined <= p.at
      && (t in s.conns && s.conns[t] != p.chan && s.conns[t] in s.handlers ==>
            s.handlers[s.conns[t]].joined == |s.stream|)
  }

  ghost predicate AllComplete(s: State) {
    PendingCurrent(s) && forall c :: c in s.handlers ==> Complete(s, c)
  }

  /** An item that is not the engine's changes nothing that is due. */
  lemma OfferOther(h: Handler, item: Item)
    requires !item.FromEngine?
    ensures EngineIndices(h.Offer(item).items) == EngineIndices(h.items) && h.Offer(item).drops == h.drops
  {
  }

  lemma OfferDue(h: Handler, at: nat, stream: seq<Event>)
    requires MayReach(stream, at, h.owner) && h.joined <= at
    requires h.drops == 0 ==> EngineIndices(h.items) == Due(stream, h.joined, at, h.owner)
    ensures var r := h.Offer(FromEngine(at));
            r.drops == 0 ==> EngineIndices(r.items) == Due(stream, h.joined, at + 1, h.owner)
  {
  }

  lemma FanOutComplete(s: State, event: Event)
    requires Invariant(s) && AllComplete(s) && s.pending.None?
    ensures AllComplete(FanOutStep(s, event))
  {
    var r, at := FanOutStep(s, event), |s.stream|;
    forall c | c in r.handlers ensures Complete(r, c) {
      var h := s.handlers[c];
      assert Complete(s, c);
      DueLater(s.stream, event, h.joined, at, h.owner);
      if IsRegistered(s, c) && event.Tick? {
        assert c in s.conns.Values;
        OfferDue(h, at, r.stream);
      }
    }
    if event.Report? && event.traderId in s.conns {
      assert Registered(s, event.traderId) && Complete(s, s.conns[event.traderId]);
    }
  }

  lemma SendPendingComplete(s: State)
    requires Invariant(s) && AllComplete(s) && Enabled(s, SendPending)
    ensures AllComplete(Next(s, SendPending))
  {
    var r, p := Next(s, SendPending), s.pending.value;
    forall c | c in r.handlers ensures Complete(r, c) {
      assert Complete(s, c);
      if c == p.chan && IsRegistered(s, c) { OfferDue(s.handlers[c], p.at, s.stream); }
    }
  }

  lemma HandlerComplete(s: State, c: nat, h: Handler)
    requires AllComplete(s) && c in s.handlers && h.owner == s.handlers[c].owner && h.joined == s.handlers[c].joined
    requires EngineIndices(h.items) == EngineIndices(s.handlers[c].items) && h.drops == s.handlers[c].drops
    ensures AllComplete(s.(handlers := s.handlers[c := h]))
  {
  }

  lemma AttachComplete(s: State, t: string, c: nat)
    requires Invariant(s) && AllComplete(s) && c !in s.handlers
    ensures AllComplete(Next(s, Attach(t, c)))
  {
  }

  lemma DetachComplete(s: State, c: nat)
    requires Invariant(s) && AllComplete(s) && Enabled(s, Detach(c))
    ensures AllComplete(Next(s, Detach(c)))
  {
  }

  lemma StepComplete(s: State, step: Step)
    requires Invariant(s) && AllComplete(s) && Enabled(s, step)
    ensures AllComplete(Next(s, step))
  {
    match step
    case FanOut(event) => FanOutComplete(s, event);
    case SendPending => SendPendingComplete(s);
    case Attach(t, c) => AttachComplete(s, t, c);
    case ReadLast(c) => HandlerComplete(s, c, s.handlers[c].(phase := Holding(s.lastTick)));
    case SendLast(c) =>
      if s.handlers[c].phase.last.Some? { OfferOther(s.handlers[c], CatchUp(s.handlers[c].phase.last.value)); }
      HandlerComplete(s, c, Next(s, step).handlers[c]);
    case Reject(c) =>
      OfferOther(s.handlers[c], RateLimited);
      HandlerComplete(s, c, s.handlers[c].Offer(RateLimited));
    case Write(c) => HandlerComplete(s, c, s.handlers[c].(taken := s.handlers[c].taken + 1));
    case Detach(c) => DetachComplete(s, c);
  }

  /** In every interleaving, a handler that is registered and whose buffer never overflowed has
      been offered every tick and every report for its trader since it attached, once each, in
      order. */
  lemma {:induction false} RunComplete(t: Trace)
    ensures AllComplete(Final(t))
  {
    match t
    case Nil =>
    case Snoc(b, step) =>
      RunComplete(b);
      RunKeeps(b);
      if Enabled(Final(b), step) { StepComplete(Final(b), step); }
  }

  // ---------------------------------------------------------------- what each step queues

  /** Queued and not yet taken by the writer. */
  function Unread(h: Handler): int { |h.items| - h.taken }

  /** What a step sends to channel c, told from the event, the registrations and the handler. */
  function Sent(s: State, step: Step, c: nat): Option<Item>
    requires c in s.handlers
  {
    match step
    case FanOut(Tick(_)) =>
      if s.handlers[c].owner in s.conns && s.conns[s.handlers[c].owner] == c then Some(FromEngine(|s.stream|)) else None
    case SendPending => if s.pending.Some? && s.pending.value.chan == c then Some(FromEngine(s.pending.value.at)) else None
    case SendLast(d) =>
      if d == c && s.handlers[c].phase.Holding? && s.handlers[c].phase.last.Some?
      then Some(CatchUp(s.handlers[c].phase.last.value)) else None
    case Reject(d) => if d == c then Some(RateLimited) else None
    case _ => None
  }

  /** With fewer than 64 items unread, what is sent is queued behind them; with 64 it is dropped, and
      counted if it came from the engine. Only the writer takes items, one at a time. */
  predicate QueuedExactly(before: Handler, sent: Option<Item>, wrote: bool, after: Handler) {
    && after.items == before.items + (if sent.Some? && Unread(before) < 64 then [sent.value] else [])
    && after.drops == before.drops + (if sent.Some? && sent.value.FromEngine? && Unread(before) >= 64 then 1 else 0)
    && after.taken == before.taken + (if wrote then 1 else 0)
    && after.owner == before.owner && after.joined == before.joined
  }

  lemma OwnChannel(s: State, c: nat)
    requires Invariant(s) && c in s.handlers
    ensures c in s.conns.Values <==> s.handlers[c].owner in s.conns && s.conns[s.handlers[c].owner] == c
  {
    if c in s.conns.Values {
      var t :| t in s.conns && s.conns[t] == c;
      assert Registered(s, t);
    }
  }

  /** So for every channel in every step. */
  lemma StepQueues(s: State, step: Step, c: nat)
    requires Invariant(s) && Enabled(s, step) && c in s.handlers
    ensures c in Next(s, step).handlers
    ensures QueuedExactly(s.handlers[c], Sent(s, step, c), step == Write(c), Next(s, step).handlers[c])
  {
    OwnChannel(s, c);
  }

  /** And what a step does to the rest: the stream grows by each event, the last tick is the newest,
      attaching registers an empty channel and keeps every other, leaving unregisters. */
  lemma StepRegisters(s: State, step: Step)
    requires Invariant(s) && Enabled(s, step)
    ensures var r := Next(s, step);
            && r.stream == s.stream + (if step.FanOut? then [step.event] else [])
            && r.lastTick == (if step.FanOut? && step.event.Tick? then Some(|s.stream|) else s.lastTick)
            && (step.Attach? ==> r.conns == s.conns[step.trader := step.chan])
            && (step.Attach? ==> r.handlers == s.handlers[step.chan := Handler(step.trader, [], 0, Attached, |s.stream|, 0)])
            && (step.Detach? ==> step.chan !in r.conns.Values && r.handlers[step.chan].phase == Gone)
            && (step.ReadLast? ==> r.handlers[step.chan].phase == Holding(s.lastTick))
            && (step.SendLast? ==> r.handlers[step.chan].phase == Serving)
            && (!step.Attach? && !step.Detach? ==> r.conns == s.conns)
  {
    if step.Detach? {
      var r := Next(s, step);
      forall t | t in r.conns ensures r.conns[t] != step.chan { assert Registered(s, t); }
    }
  }

  /** The place of the newest tick. */
  function Newest(stream: seq<Event>): Option<nat> {
    if stream == [] then None
    else if stream[|stream| - 1].Tick? then Some(|stream| - 1) else Newest(stream[..|stream| - 1])
  }

  /** After every run no channel holds more than 64 unread items, and the last tick kept for those
      who attach is the newest. */
  lemma {:induction false} RunBuffered(t: Trace)
    ensures forall c :: c in Final(t).handlers ==> 0 <= Unread(Final(t).handlers[c]) <= 64
    ensures Final(t).lastTick == Newest(Final(t).stream)
  {
    match t
    case Nil =>
    case Snoc(b, step) =>
      RunBuffered(b);
      RunKeeps(b);
      var s := Final(b);
      if Enabled(s, step) {
        StepRegisters(s, step);
        var r := Next(s, step);
        if step.FanOut? { assert r.stream[..|r.stream| - 1] == s.stream; }
        forall c | c in r.handlers ensures 0 <= Unread(r.handlers[c]) <= 64 { StepUnread(s, step, c); }
      }
  }

  lemma StepUnread(s: State, step: Step, c: nat)
    requires Invariant(s) && Enabled(s, step) && c in Next(s, step).handlers
    requires c in s.handlers ==> 0 <= Unread(s.handlers[c]) <= 64
    ensures 0 <= Unread(Next(s, step).handlers[c]) <= 64
  {
    if c in s.handlers { StepQueues(s, step, c); }
  }

  /** At no point of the run did the channel hold 64 unread items. */
  predicate NeverFull(t: Trace, c: nat) {
    && (c in Final(t).handlers ==> Unread(Final(t).handlers[c]) < 64)
    && (t.Snoc? ==> NeverFull(t.before, c))
  }

  lemma {:induction false} NeverFullNoDrops(t: Trace, c: nat)
    requires NeverFull(t, c) && c in Final(t).handlers
    ensures Final(t).handlers[c].drops == 0
  {
    match t
    case Nil =>
    case Snoc(b, step) =>
      var s := Final(b);
      RunKeeps(b);
      if c in s.handlers { NeverFullNoDrops(b, c); }
      if Enabled(s, step) {
        if c in s.handlers { StepQueues(s, step, c); } else { StepRegisters(s, step); }
      }
  }

  /** In every interleaving, a registered handler whose channel never held 64 unread items holds
      every tick and every report for its trader since it attached, once each, in order. */
  lemma DeliveredBelowCapacity(t: Trace, c: nat)
    requires c in Final(t).handlers && NeverFull(t, c) && IsRegistered(Final(t), c)
    ensures var s, h := Final(t), Final(t).handlers[c];
            EngineIndices(h.items) == Due(s.stream, h.joined, Bound(s), h.owner)
  {
    RunComplete(t);
    NeverFullNoDrops(t, c);
    assert Complete(Final(t), c);
  }

  // ---------------------------------------------------------------- the critical sections

  /** What some interleaving leads to, so what the statements above are about. */
  ghost predicate Reachable(s: State) { exists t :: Final(t) == s }

  lemma Reached(s: State, step: Step)
    requires Reachable(s) && Enabled(s, step)
    ensures Reachable(Next(s, step))
  {
    var t :| Final(t) == s;
    assert Final(Snoc(t, step)) == Next(s, step);
  }

  /** Every registration has a channel, and no two have the same. */
  ghost predicate Separate(conns: map<string, nat>, handlers: map<nat, Handler>) {
    forall t :: t in conns ==> conns[t] in handlers && handlers[conns[t]].owner == t
  }

  lemma ReachedSound(s: State)
    requires Reachable(s)
    ensures Separate(s.conns, s.handlers)
    ensures s.pending.Some? ==> s.pending.value.chan in s.handlers
  {
    var t :| Final(t) == s;
    RunKeeps(t);
    forall u | u in s.conns ensures s.conns[u] in s.handlers && s.handlers[s.conns[u]].owner == u {
      assert Registered(s, u);
    }
  }

  /** The relay's fields and its channels, with the events read so far and the channel that the
      fan-out holds between its lookup and its send. */
  class Registry {
    ghost var stream: seq<Event>
    var count: nat
    var lastTick: Option<nat>
    var conns: map<string, nat>
    var handlers: map<nat, Handler>
    var pending: Option<Pending>

    ghost function View(): State reads this { State(stream, lastTick, conns, handlers, pending) }

    ghost predicate Valid() reads this { Reachable(View()) && count == |stream| }

    constructor ()
      ensures Valid() && View() == Start
    {
      stream, count, lastTick, conns, handlers, pending := [], 0, None, map[], map[], None;
      new;
      assert Final(Nil) == View();
    }

    /** The tick case: one offer to each registered channel, in whatever order the map yields. */
    static method OfferTick(conns: map<string, nat>, before: map<nat, Handler>, at: nat)
      returns (handlers: map<nat, Handler>)
      requires Separate(conns, before)
      ensures handlers == OfferAll(before, conns.Values, FromEngine(at))
    {
      handlers := before;
      var todo := conns.Keys;
      NoneOffered(conns, before, FromEngine(at));
      while todo != {}
        invariant Offered(conns, before, FromEngine(at), todo, handlers)
        decreases |todo|
      {
        var t :| t in todo;
        OfferOne(conns, before, FromEngine(at), todo, handlers, t);
        handlers := handlers[conns[t] := handlers[conns[t]].Offer(FromEngine(at))];
        todo := todo - {t};
      }
      AllOffered(conns, before, FromEngine(at), handlers);
    }

    /** The fan-out goroutine takes the next event, up to the end of its critical section. */
    method OnEvent(event: Event)
      requires Valid() && pending.None?
      modifies this
      ensures Valid() && View() == Next(old(View()), FanOut(event))
    {
      Reached(View(), FanOut(event));
      ReachedSound(View());
      match event {
        case Tick(_) =>
          lastTick := Some(count);
          handlers := OfferTick(conns, handlers, count);
        case Report(t, _) =>
          if t != "" && t in conns { pending := Some(Pending(count, conns[t])); }
        case Other(_) =>
      }
      stream, count := stream + [event], count + 1;
    }

    /** The fan-out goroutine sends to the channel it looked up, outside the lock. */
    method OnSendPending()
      requires Valid() && pending.Some?
      modifies this
      ensures pending.None? && Valid()
      ensures Enabled(old(View()), SendPending) && View() == Next(old(View()), SendPending)
    {
      ReachedSound(View());
      Reached(View(), SendPending);
      var p := pending.value;
      handlers := handlers[p.chan := handlers[p.chan].Offer(FromEngine(p.at))];
      pending := None;
    }

    /** A handler with a new channel takes its trader's place. */
    method OnAttach(trader: string, chan: nat)
      requires Valid() && chan !in handlers
      modifies this
      ensures Valid() && View() == Next(old(View()), Attach(trader, chan))
    {
      Reached(View(), Attach(trader, chan));
      handlers := handlers[chan := Handler(trader, [], 0, Attached, count, 0)];
      conns := conns[trader := chan];
    }

    /** The handler reads the last tick under the lock. */
    method OnReadLast(chan: nat)
      requires Valid() && Enabled(View(), ReadLast(chan))
      modifies this
      ensures Valid() && View() == Next(old(View()), ReadLast(chan))
    {
      Reached(View(), ReadLast(chan));
      handlers := handlers[chan := handlers[chan].(phase := Holding(lastTick))];
    }

    /** Then it sends that tick, if there was one, outside the lock. */
    method OnSendLast(chan: nat)
      requires Valid() && Enabled(View(), SendLast(chan))
      modifies this
      ensures Valid() && View() == Next(old(View()), SendLast(chan))
    {
      Reached(View(), SendLast(chan));
      var h := handlers[chan];
      if h.phase.last.Some? { h := h.Offer(CatchUp(h.phase.last.value)); }
      handlers := handlers[chan := h.(phase := Serving)];
    }

    /** Over the limit, the handler queues a reject on its own channel. */
    method OnReject(chan: nat)
      requires Valid() && Enabled(View(), Reject(chan))
      modifies this
      ensures Valid() && View() == Next(old(View()), Reject(chan))
    {
      Reached(View(), Reject(chan));
      handlers := handlers[chan := handlers[chan].Offer(RateLimited)];
    }

    /** The writer takes the oldest item that is left. */
    method OnWrite(chan: nat) returns (item: Item)
      requires Valid() && Enabled(View(), Write(chan))
      modifies this
      ensures Valid() && View() == Next(old(View()), Write(chan))
      ensures item == handlers[chan].items[old(handlers)[chan].taken]
    {
      Reached(View(), Write(chan));
      var h := handlers[chan];
      item := h.items[h.taken];
      handlers := handlers[chan := h.(taken := h.taken + 1)];
    }

    /** The deferred exit of a handler deletes only its own registration. */
    method OnLeave(chan: nat)
      requires Valid() && Enabled(View(), Detach(chan))
      modifies this
      ensures Valid() && View() == Next(old(View()), Detach(chan))
      ensures forall t :: t in old(conns) && old(conns)[t] != chan ==> t in conns && conns[t] == old(conns)[t]
    {
      Reached(View(), Detach(chan));
      var owner := handlers[chan].owner;
      if owner in conns && conns[owner] == chan {
        conns := conns - {owner};
      }
      handlers := handlers[chan := handlers[chan].(phase := Gone)];
    }
  }

  function ChannelsOf(conns: map<string, nat>, traders: set<string>): set<nat>
    requires traders <= conns.Keys
  {
    set t | t in traders :: conns[t]
  }

  /** All but the channels of the traders still to do have had the offer. */
  predicate Offered(conns: map<string, nat>, before: map<nat, Handler>, item: Item,
                    todo: set<string>, handlers: map<nat, Handler>)
  {
    todo <= conns.Keys && handlers == OfferAll(before, conns.Values - ChannelsOf(conns, todo), item)
  }

  lemma NoneOffered(conns: map<string, nat>, before: map<nat, Handler>, item: Item)
    ensures Offered(conns, before, item, conns.Keys, before)
  {
    assert ChannelsOf(conns, conns.Keys) == conns.Values;
  }

  lemma AllOffered(conns: map<string, nat>, before: map<nat, Handler>, item: Item, handlers: map<nat, Handler>)
    requires Offered(conns, before, item, {}, handlers)
    ensures handlers == OfferAll(before, conns.Values, item)
  {
    assert conns.Values - ChannelsOf(conns, {}) == conns.Values;
  }

  lemma OneFewer(conns: map<string, nat>, before: map<nat, Handler>, todo: set<string>, t: string)
    requires Separate(conns, before) && todo <= conns.Keys && t in todo
    ensures conns.Values - ChannelsOf(conns, todo - {t}) == conns.Values - ChannelsOf(conns, todo) + {conns[t]}
    ensures conns[t] !in conns.Values - ChannelsOf(conns, todo)
  {
  }

  lemma OfferOne(conns: map<string, nat>, before: map<nat, Handler>, item: Item,
                 todo: set<string>, handlers: map<nat, Handler>, t: string)
    requires Separate(conns, before) && Offered(conns, before, item, todo, handlers) && t in todo
    ensures conns[t] in handlers
    ensures Offered(conns, before, item, todo - {t}, handlers[conns[t] := handlers[conns[t]].Offer(item)])
  {
    OneFewer(conns, before, todo, t);
  }
}
