/** The WebSocket hub's event loop (server/ws/hub.go). Clients are numbered by their arrival;
    messages are opaque. */
module Hub {
  import opened Types

  type Message = string

  /** The engine's messages, and the pongs that a client's own reader queues. */
  datatype Item = Engine(msg: Message) | Pong

  const CAPACITY: nat := 256

  /** A client's send channel with all that was ever queued on it, how many items the writer has
      taken, how often it was closed, and the positions in the broadcast stream at which the
      client was registered and removed. */
  datatype Channel = Channel(items: seq<Item>, taken: nat, closes: nat, joined: nat, left: nat) {
    predicate Room() { |items| < taken + CAPACITY }
  }

  datatype State = State(clients: set<nat>, chans: map<nat, Channel>, stream: seq<Message>)

  datatype Step =
    | Register(c: nat)
    | Unregister(c: nat)
    | Broadcast(msg: Message)
    | Write(c: nat)
    | Ping(c: nat)

  function Closed(ch: Channel, at: nat): Channel { ch.(closes := ch.closes + 1, left := at) }

  /** What a broadcast does to one registered client's channel. */
  function Delivered(ch: Channel, msg: Message, at: nat): Channel {
    if ch.Room() then ch.(items := ch.items + [Engine(msg)]) else Closed(ch, at)
  }

  function DeliverTo(chans: map<nat, Channel>, to: set<nat>, msg: Message, at: nat): map<nat, Channel> {
    map c | c in chans :: if c in to then Delivered(chans[c], msg, at) else chans[c]
  }

  function WithRoom(chans: map<nat, Channel>, of: set<nat>): set<nat>
    requires of <= chans.Keys
  {
    set c | c in of && chans[c].Room()
  }

  /** When a step can be taken at all: a client registers once, being new; its writer takes only
      what is there; its reader answers pings while the channel is open. */
  predicate Enabled(s: State, step: Step) {
    match step
    case Register(c) => c !in s.chans
    case Unregister(c) => true
    case Broadcast(_) => true
    case Write(c) => c in s.chans && s.chans[c].taken < |s.chans[c].items|
    case Ping(c) => c in s.chans && s.chans[c].closes == 0
  }

  function Next(s: State, step: Step): State
    requires s.clients <= s.chans.Keys && Enabled(s, step)
  {
    match step
    case Register(c) =>
      s.(clients := s.clients + {c}, chans := s.chans[c := Channel([], 0, 0, |s.stream|, |s.stream|)])
    case Unregister(c) =>
      if c in s.clients
      then s.(clients := s.clients - {c}, chans := s.chans[c := Closed(s.chans[c], |s.stream|)])
      else s
    case Broadcast(msg) =>
      State(WithRoom(s.chans, s.clients), DeliverTo(s.chans, s.clients, msg, |s.stream|), s.stream + [msg])
    case Write(c) => s.(chans := s.chans[c := s.chans[c].(taken := s.chans[c].taken + 1)])
    case Ping(c) =>
      var ch := s.chans[c];
      if ch.Room() then s.(chans := s.chans[c := ch.(items := ch.items + [Pong])]) else s
  }

  /** Go panics when a closed channel is sent on or closed again. */
  predicate Panics(s: State, step: Step) {
    match step
    case Unregister(c) => c in s.clients && c in s.chans && s.chans[c].closes > 0
    case Broadcast(_) => exists c :: c in s.clients && c in s.chans && s.chans[c].closes > 0
    case _ => false
  }

  // ---------------------------------------------------------------- runs

  datatype Trace = Nil | Snoc(before: Trace, step: Step)

  const Start := State({}, map[], [])

  /** The state after a run; a step that is not enabled does not happen. */
  function Final(t: Trace): State {
    match t
    case Nil => Start
    case Snoc(b, step) =>
      var m := Final(b);
      if m.clients <= m.chans.Keys && Enabled(m, step) then Next(m, step) else m
  }

  /** The engine messages among the queued items. */
  function EngineOnly(items: seq<Item>): seq<Message> {
    if items == [] then []
    else
      var last := items[|items| - 1];
      EngineOnly(items[..|items| - 1]) + if last.Engine? then [last.msg] else []
  }

  lemma EngineAppend(items: seq<Item>, i: Item)
    ensures EngineOnly(items + [i]) == EngineOnly(items) + if i.Engine? then [i.msg] else []
  {
  }

  /** A registered client holds an open channel with every message broadcast since it joined; a
      removed one a channel closed once, with every message up to its removal. */
  predicate Faithful(ch: Channel, registered: bool, stream: seq<Message>) {
    var end := if registered then |stream| else ch.left;
    && ch.joined <= end <= |stream|
    && ch.closes == (if registered then 0 else 1)
    && EngineOnly(ch.items) == stream[ch.joined..end]
  }

  predicate Invariant(s: State) {
    && s.clients <= s.chans.Keys
    && forall c :: c in s.chans ==> Faithful(s.chans[c], c in s.clients, s.stream)
  }

  lemma DeliverFaithful(ch: Channel, registered: bool, stream: seq<Message>, msg: Message)
    requires Faithful(ch, registered, stream)
    ensures registered ==> Faithful(Delivered(ch, msg, |stream|), ch.Room(), stream + [msg])
    ensures !registered ==> Faithful(ch, false, stream + [msg])
  {
    var after := stream + [msg];
    if registered && ch.Room() {
      EngineAppend(ch.items, Engine(msg));
      assert after[ch.joined..|after|] == stream[ch.joined..|stream|] + [msg];
    } else if registered {
      assert after[ch.joined..|stream|] == stream[ch.joined..|stream|];
    } else {
      assert after[ch.joined..ch.left] == stream[ch.joined..ch.left];
    }
  }

  lemma BroadcastKeeps(s: State, msg: Message)
    requires Invariant(s)
    ensures Invariant(Next(s, Broadcast(msg)))
  {
    var r := Next(s, Broadcast(msg));
    forall c | c in r.chans ensures Faithful(r.chans[c], c in r.clients, r.stream) {
      DeliverFaithful(s.chans[c], c in s.clients, s.stream, msg);
    }
  }

  lemma StepKeeps(s: State, step: Step)
    requires Invariant(s) && Enabled(s, step)
    ensures Invariant(Next(s, step)) && !Panics(s, step)
  {
    match step
    case Register(c) => assert s.stream[|s.stream|..|s.stream|] == [];
    case Unregister(c) =>
    case Broadcast(msg) => BroadcastKeeps(s, msg);
    case Write(c) =>
    case Ping(c) => EngineAppend(s.chans[c].items, Pong);
  }

  /** In every run each client's engine messages are a gap-free block of the dequeued stream from
      registration to removal, its channel is closed at most once and only at removal, and the
      loop never sends on or closes a closed channel. */
  lemma {:induction false} RunFaithful(t: Trace)
    ensures Invariant(Final(t))
    ensures forall step :: Enabled(Final(t), step) ==> !Panics(Final(t), step)
  {
    match t
    case Nil =>
    case Snoc(b, step) =>
      RunFaithful(b);
      if Enabled(Final(b), step) { StepKeeps(Final(b), step); }
    forall step | Enabled(Final(t), step) ensures !Panics(Final(t), step) {
      StepKeeps(Final(t), step);
    }
  }

  /** Nothing more reaches a removed client, and it is never registered again. */
  lemma RemovedStays(s: State, step: Step, c: nat)
    requires Invariant(s) && Enabled(s, step) && c in s.chans && c !in s.clients
    ensures var r := Next(s, step);
            c in r.chans && c !in r.clients && r.chans[c].items == s.chans[c].items && r.chans[c].closes == 1
  {
  }

  // ---------------------------------------------------------------- what each step queues and removes

  /** Queued and not yet taken by the writer. */
  function Unread(ch: Channel): int { |ch.items| - ch.taken }

  /** What a step sends to client c. */
  function Sent(s: State, step: Step, c: nat): Option<Item> {
    match step
    case Broadcast(msg) => if c in s.clients then Some(Engine(msg)) else None
    case Ping(d) => if d == c then Some(Pong) else None
    case _ => None
  }

  /** A step removes a client exactly by unregistering it, or by a broadcast that finds 256 or more
      items unread; what is sent is queued if fewer are; a removed client's channel is closed. */
  lemma StepServes(s: State, step: Step, c: nat)
    requires Invariant(s) && Enabled(s, step) && c in s.chans
    ensures var r := Next(s, step);
            var before := s.chans[c];
            && c in r.chans
            && (c in r.clients <==> c in s.clients && step != Unregister(c) && !(step.Broadcast? && Unread(before) >= 256))
            && r.chans[c].items == before.items + (if Sent(s, step, c).Some? && Unread(before) < 256 then [Sent(s, step, c).value] else [])
            && r.chans[c].taken == before.taken + (if step == Write(c) then 1 else 0)
            && r.chans[c].closes == before.closes + (if c in s.clients && c !in r.clients then 1 else 0)
  {
  }

  /** The stream grows by each broadcast, and registering adds an empty open channel. */
  lemma StepRegisters(s: State, step: Step)
    requires Invariant(s) && Enabled(s, step)
    ensures var r := Next(s, step);
            && r.stream == s.stream + (if step.Broadcast? then [step.msg] else [])
            && (step.Register? ==> r.clients == s.clients + {step.c} && r.chans == s.chans[step.c := Channel([], 0, 0, |s.stream|, |s.stream|)])
            && (!step.Register? ==> r.chans.Keys == s.chans.Keys)
  {
  }

  lemma StepUnread(s: State, step: Step, c: nat)
    requires Invariant(s) && Enabled(s, step) && c in Next(s, step).chans
    requires c in s.chans ==> 0 <= Unread(s.chans[c]) <= 256
    ensures 0 <= Unread(Next(s, step).chans[c]) <= 256
  {
    if c in s.chans { StepServes(s, step, c); } else { StepRegisters(s, step); }
  }

  /** After every run no channel holds more than 256 unread items. */
  lemma {:induction false} RunBuffered(t: Trace)
    ensures forall c :: c in Final(t).chans ==> 0 <= Unread(Final(t).chans[c]) <= 256
  {
    match t
    case Nil =>
    case Snoc(b, step) =>
      RunBuffered(b);
      RunFaithful(b);
      if Enabled(Final(b), step) {
        forall c | c in Final(t).chans ensures 0 <= Unread(Final(t).chans[c]) <= 256 { StepUnread(Final(b), step, c); }
      }
  }

  /** After every run a broadcast removes exactly the clients with 256 items unread. */
  lemma RemovedExactly(t: Trace, msg: Message, c: nat)
    requires c in Final(t).clients
    ensures Enabled(Final(t), Broadcast(msg)) && c in Final(t).chans && Final(t).clients <= Final(t).chans.Keys
    ensures c !in Next(Final(t), Broadcast(msg)).clients <==> Unread(Final(t).chans[c]) == 256
  {
    RunFaithful(t);
    RunBuffered(t);
    StepServes(Final(t), Broadcast(msg), c);
  }

  // ---------------------------------------------------------------- the loop's cases

  /** `Run`'s three cases. The stream of dequeued messages is kept for the record. */
  class Loop {
    var clients: set<nat>
    var chans: map<nat, Channel>
    var stream: seq<Message>

    ghost function View(): State reads this { State(clients, chans, stream) }

    ghost predicate Valid() reads this { Invariant(View()) }

    constructor ()
      ensures Valid() && View() == Start
    {
      clients, chans, stream := {}, map[], [];
    }

    method OnRegister(c: nat)
      requires Valid() && Enabled(View(), Register(c))
      modifies this
      ensures Valid() && View() == Next(old(View()), Register(c))
    {
      StepKeeps(View(), Register(c));
      chans := chans[c := Channel([], 0, 0, |stream|, |stream|)];
      clients := clients + {c};
    }

    method OnUnregister(c: nat)
      requires Valid()
      modifies this
      ensures Valid() && View() == Next(old(View()), Unregister(c))
    {
      StepKeeps(View(), Unregister(c));
      if c in clients {
        clients := clients - {c};
        chans := chans[c := Closed(chans[c], |stream|)];
      }
    }

    /** Ranges over the clients in whatever order the map yields them, dropping the slow ones. */
    static method FanOut(clients: set<nat>, chans: map<nat, Channel>, msg: Message, at: nat)
      returns (kept: set<nat>, after: map<nat, Channel>)
      requires clients <= chans.Keys
      ensures kept == WithRoom(chans, clients) && after == DeliverTo(chans, clients, msg, at)
    {
      kept, after := clients, chans;
      var todo := clients;
      NoneServed(clients, chans, msg, at);
      while todo != {}
        invariant Served(clients, chans, msg, at, todo, kept, after)
        decreases |todo|
      {
        var c :| c in todo;
        ServeOne(clients, chans, msg, at, todo, kept, after, c);
        todo := todo - {c};
        if after[c].Room() {
          after := after[c := after[c].(items := after[c].items + [Engine(msg)])];
        } else {
          after := after[c := Closed(after[c], at)];
          kept := kept - {c};
        }
      }
      AllServed(clients, chans, msg, at, kept, after);
    }

    method OnBroadcast(msg: Message)
      requires Valid()
      modifies this
      ensures Valid() && View() == Next(old(View()), Broadcast(msg))
    {
      StepKeeps(View(), Broadcast(msg));
      clients, chans := FanOut(clients, chans, msg, |stream|);
      stream := stream + [msg];
    }
  }

  /** All but the clients still to do have been served. */
  predicate Served(clients: set<nat>, chans: map<nat, Channel>, msg: Message, at: nat,
                   todo: set<nat>, kept: set<nat>, after: map<nat, Channel>)
  {
    && clients <= chans.Keys && todo <= clients
    && after == DeliverTo(chans, clients - todo, msg, at)
    && kept == todo + WithRoom(chans, clients - todo)
  }

  lemma NoneServed(clients: set<nat>, chans: map<nat, Channel>, msg: Message, at: nat)
    requires clients <= chans.Keys
    ensures Served(clients, chans, msg, at, clients, clients, chans)
  {
  }

  lemma AllServed(clients: set<nat>, chans: map<nat, Channel>, msg: Message, at: nat,
                  kept: set<nat>, after: map<nat, Channel>)
    requires Served(clients, chans, msg, at, {}, kept, after)
    ensures kept == WithRoom(chans, clients) && after == DeliverTo(chans, clients, msg, at)
  {
  }

  lemma ServeOne(clients: set<nat>, chans: map<nat, Channel>, msg: Message, at: nat,
                 todo: set<nat>, kept: set<nat>, after: map<nat, Channel>, c: nat)
    requires Served(clients, chans, msg, at, todo, kept, after) && c in todo
    ensures c in after && after[c] == chans[c]
    ensures Served(clients, chans, msg, at, todo - {c},
                   if chans[c].Room() then kept else kept - {c}, after[c := Delivered(chans[c], msg, at)])
  {
  }

}
