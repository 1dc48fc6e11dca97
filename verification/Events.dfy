/** Events as text lines: what the engine emits (src/Simulation.cpp) is compared with `extractType`
    (server/engine/runner.go) and with the relay's JSON reader (server/sandbox/relay.go). */
module Events {
  import opened Types
  import opened Numerals
  import opened Wire
  import opened Json
  import opened Drain
  import opened Protocol
  import OrderBookModel
  import Relay

  // ---------------------------------------------------------------- the lines and their types

  predicate Contains(data: string, pat: string) { After(data, pat).Some? }

  /** `extractType`: substring tests in a fixed order. */
  function ExtractType(data: string): string {
    if Contains(data, "\"type\":\"tick\"") then "tick"
    else if Contains(data, "\"type\":\"fill\"") then "fill"
    else if Contains(data, "\"type\":\"reject\"") then "reject"
    else ""
  }

  function ReasonText(r: Reason): string {
    match r
    case InvalidQty => "invalid_qty"
    case InvalidPrice => "invalid_price"
    case InsufficientLiquidity => "insufficient_liquidity"
  }

  /** How the stream printed the numbers of an event. */
  datatype Lexemes = Lexemes(price: string, qty: string, ts: string) {
    predicate Clean() { QuoteFree(price) && QuoteFree(qty) && QuoteFree(ts) }
  }

  function TypeText(e: Event): string { if e.FillEvent? then "fill" else "reject" }

  /** The fields `emitFill` and `emitReject` write, ids unescaped. */
  function EventFields(e: Event, x: Lexemes): seq<Field> {
    match e
    case FillEvent(t, o, f) =>
      [Text(TypeKey, "fill"), Text(TraderIdKey, t), Text(OrderIdKey, o), Text(SideKey, SideText(f.side)),
       Bare(PriceKey, x.price), Bare(QtyKey, x.qty), Bare(TsKey, x.ts)]
    case RejectEvent(t, o, r) =>
      [Text(TypeKey, "reject"), Text(TraderIdKey, t), Text(OrderIdKey, o), Text(ReasonKey, ReasonText(r)),
       Bare(TsKey, x.ts)]
  }

  function EventLine(e: Event, x: Lexemes): string { Line(EventFields(e, x), "\n") }

  /** Only the first field can carry a type marker. */
  lemma {:induction false} TypedBy(fields: seq<Field>, word: string, end: string)
    requires Clean(fields) && fields != [] && fields[0].Text? && fields[0].key == TypeKey
    requires forall j :: 1 <= j < |fields| ==> fields[j].key != TypeKey
    requires QuoteFree(word) && QuoteFree(end)
    ensures Contains(Line(fields, end), Needle(TypeKey, Quoted(word))) <==> fields[0].value == word
  {
    var f, r := fields[0], Wire.Rest(fields, end);
    SkipWord("{", Body(fields, end), Needle(TypeKey, Quoted(word)));
    if f.value == word {
      OtherWord(f.value, r, word);
      HitField(f, r, Quoted(word));
    } else {
      FindNothing(fields, TypeKey, word, end);
    }
  }

  lemma {:induction false} Markers()
    ensures Needle(TypeKey, Quoted("tick")) == "\"type\":\"tick\""
    ensures Needle(TypeKey, Quoted("fill")) == "\"type\":\"fill\""
    ensures Needle(TypeKey, Quoted("reject")) == "\"type\":\"reject\""
  {
  }

  lemma {:induction false} TypeWords(fields: seq<Field>, end: string)
    requires Clean(fields) && fields != [] && fields[0].Text? && fields[0].key == TypeKey
    requires forall j :: 1 <= j < |fields| ==> fields[j].key != TypeKey
    requires QuoteFree(end) && (fields[0].value == "fill" || fields[0].value == "reject")
    ensures ExtractType(Line(fields, end)) == fields[0].value
  {
    Markers();
    TypedBy(fields, "tick", end);
    TypedBy(fields, "fill", end);
    TypedBy(fields, "reject", end);
    assert "fill"[0] == 'f' && "tick"[0] == 't' && "reject"[0] == 'r';
  }

  predicate QuoteFreeIds(e: Event) { QuoteFree(e.traderId) && QuoteFree(e.orderId) }

  /** A line whose ids hold no quote is classified as what it is, whatever the ids spell. */
  lemma {:induction false} EventTyped(e: Event, x: Lexemes)
    requires QuoteFreeIds(e) && x.Clean()
    ensures ExtractType(EventLine(e, x)) == TypeText(e)
  {
    if e.RejectEvent? { ReasonQuoteFree(e.reason); }
    TypeWords(EventFields(e, x), "\n");
  }

  lemma {:induction false} ReasonQuoteFree(r: Reason)
    ensures QuoteFree(ReasonText(r))
  {
  }

  /** The parser produced this order from some line. */
  ghost predicate Parsed(o: IncomingOrder) { exists line :: Parse(line) == Some(o) }

  /** The steps push only what the parser produced. */
  ghost predicate FromLines(steps: seq<Step>) {
    forall i :: 0 <= i < |steps| && steps[i].Push? ==> Parsed(steps[i].order)
  }

  lemma {:induction false} ParsedClean(o: IncomingOrder)
    requires Parsed(o)
    ensures QuoteFree(o.traderId) && QuoteFree(o.orderId)
  {
    var line :| Parse(line) == Some(o);
    ParsedQuoteFree(line);
  }

  predicate CleanOrders(orders: seq<IncomingOrder>) {
    forall i :: 0 <= i < |orders| ==> QuoteFree(orders[i].traderId) && QuoteFree(orders[i].orderId)
  }

  predicate CleanEvents(events: seq<Event>) { forall i :: 0 <= i < |events| ==> QuoteFreeIds(events[i]) }

  lemma {:induction false} OutcomeClean(book: OrderBookModel.Book, o: IncomingOrder)
    requires book.Valid() && QuoteFree(o.traderId) && QuoteFree(o.orderId)
    ensures CleanEvents(Outcome(book, o))
  {
    if Accepted(o) && o.kind == MARKET && Taken(book, o) != [] {
      FillEventsMeaning(o, Taken(book, o));
      var out := FillEvents(o, Taken(book, o));
      forall i | 0 <= i < |out| ensures QuoteFreeIds(out[i]) { assert out[i] in out; }
    }
  }

  lemma {:induction false} RunClean(steps: seq<Step>)
    requires FromLines(steps)
    ensures CleanOrders(Run(steps).queue) && CleanEvents(Run(steps).st.events)
  {
    if steps != [] {
      var n := |steps| - 1;
      var s := Run(steps[..n]);
      RunClean(steps[..n]);
      if steps[n].Push? { ParsedClean(steps[n].order); }
      if steps[n].Pop? && s.queue != [] { OutcomeClean(s.st.book, s.queue[0]); }
    }
  }

  /** In every run of the engine fed by the parser, every emitted line is classified as its
      true type. */
  lemma {:induction false} EveryLineTyped(steps: seq<Step>, i: nat, x: Lexemes)
    requires FromLines(steps) && i < |Run(steps).st.events| && x.Clean()
    ensures ExtractType(EventLine(Run(steps).st.events[i], x)) == TypeText(Run(steps).st.events[i])
  {
    RunClean(steps);
    EventTyped(Run(steps).st.events[i], x);
  }

  // ---------------------------------------------------------------- events back at the relay

  ghost predicate JsonNumbers(x: Lexemes) { NumberText(x.price) && NumberText(x.qty) && NumberText(x.ts) }

  /** The member that a field with an escaped value, or a number, stands for. */
  function TextMember(key: Key, v: string): Member { Member(Spell(key), Str(v)) }

  function NumMember(key: Key): Member { Member(Spell(key), Other) }

  lemma {:induction false} VerbatimField(key: Key, word: string)
    requires AllVerbatim(word)
    ensures Encodes(Text(key, word), TextMember(key, word))
  {
    EscapeFixed(word);
  }

  lemma {:induction false} TypeField(e: Event)
    ensures Encodes(Text(TypeKey, TypeText(e)), TextMember(TypeKey, TypeText(e)))
  {
    VerbatimField(TypeKey, TypeText(e));
  }

  lemma {:induction false} SideField(side: Side)
    ensures Encodes(Text(SideKey, SideText(side)), TextMember(SideKey, SideText(side)))
  {
    VerbatimField(SideKey, SideText(side));
  }

  lemma {:induction false} LongReason()
    ensures AllVerbatim("insufficient_liquidity")
  {
  }

  lemma {:induction false} ReasonField(r: Reason)
    ensures Encodes(Text(ReasonKey, ReasonText(r)), TextMember(ReasonKey, ReasonText(r)))
  {
    if r.InsufficientLiquidity? { LongReason(); }
    VerbatimField(ReasonKey, ReasonText(r));
  }

  /** What follows the ids in an event. */
  function TailMembers(e: Event): seq<Member> {
    match e
    case FillEvent(_, _, f) =>
      [TextMember(SideKey, SideText(f.side))] + ([NumMember(PriceKey)] + ([NumMember(QtyKey)] + ([NumMember(TsKey)] + [])))
    case RejectEvent(_, _, r) => [TextMember(ReasonKey, ReasonText(r))] + ([NumMember(TsKey)] + [])
  }

  function TailFields(e: Event, x: Lexemes): seq<Field> {
    match e
    case FillEvent(_, _, f) =>
      [Text(SideKey, SideText(f.side))]
      + ([Bare(PriceKey, x.price)] + ([Bare(QtyKey, x.qty)] + ([Bare(TsKey, x.ts)] + [])))
    case RejectEvent(_, _, r) => [Text(ReasonKey, ReasonText(r))] + ([Bare(TsKey, x.ts)] + [])
  }

  function IdFields(e: Event, rest: seq<Field>): seq<Field> {
    [Text(TypeKey, TypeText(e))] + ([Text(TraderIdKey, e.traderId)] + ([Text(OrderIdKey, e.orderId)] + rest))
  }

  lemma {:induction false} EventFieldsSplit(e: Event, x: Lexemes)
    ensures EventFields(e, x) == IdFields(e, TailFields(e, x))
  {
  }

  function IdMembers(e: Event, trader: string, order: string, rest: seq<Member>): seq<Member> {
    [TextMember(TypeKey, TypeText(e))] + ([TextMember(TraderIdKey, trader)] + ([TextMember(OrderIdKey, order)] + rest))
  }

  lemma {:induction false} FillTailEncodes(side: Side, x: Lexemes)
    requires JsonNumbers(x)
    ensures AllEncode([Text(SideKey, SideText(side))]
                      + ([Bare(PriceKey, x.price)] + ([Bare(QtyKey, x.qty)] + ([Bare(TsKey, x.ts)] + []))),
                      [TextMember(SideKey, SideText(side))]
                      + ([NumMember(PriceKey)] + ([NumMember(QtyKey)] + ([NumMember(TsKey)] + []))))
  {
    SideField(side);
    NumberBack(x.price);
    NumberBack(x.qty);
    NumberBack(x.ts);
    EncodeCons(Bare(TsKey, x.ts), NumMember(TsKey), [], []);
    EncodeCons(Bare(QtyKey, x.qty), NumMember(QtyKey), [Bare(TsKey, x.ts)] + [], [NumMember(TsKey)] + []);
    EncodeCons(Bare(PriceKey, x.price), NumMember(PriceKey),
               [Bare(QtyKey, x.qty)] + ([Bare(TsKey, x.ts)] + []), [NumMember(QtyKey)] + ([NumMember(TsKey)] + []));
    EncodeCons(Text(SideKey, SideText(side)), TextMember(SideKey, SideText(side)),
               [Bare(PriceKey, x.price)] + ([Bare(QtyKey, x.qty)] + ([Bare(TsKey, x.ts)] + [])),
               [NumMember(PriceKey)] + ([NumMember(QtyKey)] + ([NumMember(TsKey)] + [])));
  }

  lemma {:induction false} RejectTailEncodes(r: Reason, x: Lexemes)
    requires JsonNumbers(x)
    ensures AllEncode([Text(ReasonKey, ReasonText(r))] + ([Bare(TsKey, x.ts)] + []),
                      [TextMember(ReasonKey, ReasonText(r))] + ([NumMember(TsKey)] + []))
  {
    ReasonField(r);
    NumberBack(x.ts);
    EncodeCons(Bare(TsKey, x.ts), NumMember(TsKey), [], []);
    EncodeCons(Text(ReasonKey, ReasonText(r)), TextMember(ReasonKey, ReasonText(r)),
               [Bare(TsKey, x.ts)] + [], [NumMember(TsKey)] + []);
  }

  lemma {:induction false} EventEncodes(e: Event, trader: string, order: string, fields: seq<Field>, members: seq<Member>)
    requires e.traderId == Escape(trader) && e.orderId == Escape(order) && AllEncode(fields, members)
    ensures AllEncode(IdFields(e, fields), IdMembers(e, trader, order, members))
  {
    TypeField(e);
    EncodeCons(Text(OrderIdKey, e.orderId), TextMember(OrderIdKey, order), fields, members);
    EncodeCons(Text(TraderIdKey, e.traderId), TextMember(TraderIdKey, trader),
               [Text(OrderIdKey, e.orderId)] + fields, [TextMember(OrderIdKey, order)] + members);
    EncodeCons(Text(TypeKey, TypeText(e)), TextMember(TypeKey, TypeText(e)),
               [Text(TraderIdKey, e.traderId)] + ([Text(OrderIdKey, e.orderId)] + fields),
               [TextMember(TraderIdKey, trader)] + ([TextMember(OrderIdKey, order)] + members));
  }

  lemma {:induction false} LookupPast(j: Key, v: Value, members: seq<Member>, key: Key)
    requires j != key
    ensures Lookup([Member(Spell(j), v)] + members, key) == Lookup(members, key)
  {
    LookupCons(Member(Spell(j), v), members, key);
    if Spell(j) == Spell(key) { SpellInjective(j, key); }
  }

  lemma {:induction false} TailLookups(e: Event, key: Key)
    requires key == TypeKey || key == TraderIdKey
    ensures Lookup(TailMembers(e), key) == None
  {
    LookupPast(TsKey, Other, [], key);
    match e
    case FillEvent(_, _, f) =>
      LookupPast(QtyKey, Other, [NumMember(TsKey)] + [], key);
      LookupPast(PriceKey, Other, [NumMember(QtyKey)] + ([NumMember(TsKey)] + []), key);
      LookupPast(SideKey, Str(SideText(f.side)),
                 [NumMember(PriceKey)] + ([NumMember(QtyKey)] + ([NumMember(TsKey)] + [])), key);
    case RejectEvent(_, _, r) => LookupPast(ReasonKey, Str(ReasonText(r)), [NumMember(TsKey)] + [], key);
  }

  lemma {:induction false} EventLookups(e: Event, trader: string, order: string, members: seq<Member>)
    requires Lookup(members, TypeKey) == None && Lookup(members, TraderIdKey) == None
    ensures Lookup(IdMembers(e, trader, order, members), TypeKey) == Some(TypeText(e))
    ensures Lookup(IdMembers(e, trader, order, members), TraderIdKey) == Some(trader)
  {
    var o := [TextMember(OrderIdKey, order)] + members;
    var t := [TextMember(TraderIdKey, trader)] + o;
    LookupPast(OrderIdKey, Str(order), members, TypeKey);
    LookupPast(OrderIdKey, Str(order), members, TraderIdKey);
    LookupPast(TraderIdKey, Str(trader), o, TypeKey);
    LookupCons(TextMember(TraderIdKey, trader), o, TraderIdKey);
    LookupCons(TextMember(TypeKey, TypeText(e)), t, TypeKey);
    LookupPast(TypeKey, Str(TypeText(e)), t, TraderIdKey);
  }

  lemma {:induction false} ObjectOf(fields: seq<Field>, members: seq<Member>)
    requires fields != [] && AllEncode(fields, members)
    ensures ReadObject(Line(fields, "\n")) == Some(members)
  {
    MembersBack(fields, members, "\n", true);
    LineObject(fields, "\n");
    assert Trim("\n") == "";
  }

  /** An event line decodes to the members of its event. */
  lemma {:induction false} EventObject(e: Event, x: Lexemes, trader: string, order: string)
    requires JsonNumbers(x) && e.traderId == Escape(trader) && e.orderId == Escape(order)
    ensures ReadObject(EventLine(e, x)) == Some(IdMembers(e, trader, order, TailMembers(e)))
  {
    match e {
      case FillEvent(_, _, f) => FillTailEncodes(f.side, x);
      case RejectEvent(_, _, r) => RejectTailEncodes(r, x);
    }
    EventFieldsSplit(e, x);
    EventEncodes(e, trader, order, TailFields(e, x), TailMembers(e));
    ObjectOf(IdFields(e, TailFields(e, x)), IdMembers(e, trader, order, TailMembers(e)));
  }

  lemma {:induction false} HeaderBack(e: Event, x: Lexemes, trader: string, order: string)
    requires JsonNumbers(x) && e.traderId == Escape(trader) && e.orderId == Escape(order)
    ensures Header(EventLine(e, x)) == Some((TypeText(e), trader))
  {
    EventObject(e, x, trader, order);
    TailLookups(e, TypeKey);
    TailLookups(e, TraderIdKey);
    EventLookups(e, trader, order, TailMembers(e));
  }

  lemma {:induction false} PastIds(e: Event, trader: string, order: string, members: seq<Member>, key: Key)
    requires key != TypeKey && key != TraderIdKey && key != OrderIdKey
    ensures Lookup(IdMembers(e, trader, order, members), key) == Lookup(members, key)
  {
    var o := [TextMember(OrderIdKey, order)] + members;
    LookupPast(OrderIdKey, Str(order), members, key);
    LookupPast(TraderIdKey, Str(trader), o, key);
    LookupPast(TypeKey, Str(TypeText(e)), [TextMember(TraderIdKey, trader)] + o, key);
  }

  lemma {:induction false} FillTailSide(side: Side)
    ensures Lookup([TextMember(SideKey, SideText(side))]
                   + ([NumMember(PriceKey)] + ([NumMember(QtyKey)] + ([NumMember(TsKey)] + []))), SideKey)
         == Some(SideText(side))
  {
    LookupPast(TsKey, Other, [], SideKey);
    LookupPast(QtyKey, Other, [NumMember(TsKey)] + [], SideKey);
    LookupPast(PriceKey, Other, [NumMember(QtyKey)] + ([NumMember(TsKey)] + []), SideKey);
    LookupCons(TextMember(SideKey, SideText(side)),
               [NumMember(PriceKey)] + ([NumMember(QtyKey)] + ([NumMember(TsKey)] + [])), SideKey);
  }

  lemma {:induction false} RejectTailReason(r: Reason)
    ensures Lookup([TextMember(ReasonKey, ReasonText(r))] + ([NumMember(TsKey)] + []), ReasonKey) == Some(ReasonText(r))
  {
    LookupPast(TsKey, Other, [], ReasonKey);
    LookupCons(TextMember(ReasonKey, ReasonText(r)), [NumMember(TsKey)] + [], ReasonKey);
  }

  /** The words for a side and for each reason. */
  predicate Worded(e: Event, found: seq<Member>) {
    match e
    case FillEvent(_, _, f) => Lookup(found, SideKey) == Some(if f.side == BUY then "BUY" else "SELL")
    case RejectEvent(_, _, InvalidQty) => Lookup(found, ReasonKey) == Some("invalid_qty")
    case RejectEvent(_, _, InvalidPrice) => Lookup(found, ReasonKey) == Some("invalid_price")
    case RejectEvent(_, _, InsufficientLiquidity) => Lookup(found, ReasonKey) == Some("insufficient_liquidity")
  }

  /** A JSON reader finds the side of a fill, and the reason of a reject, by their words. */
  lemma {:induction false} EventWords(e: Event, x: Lexemes, trader: string, order: string)
    requires JsonNumbers(x) && e.traderId == Escape(trader) && e.orderId == Escape(order)
    ensures ReadObject(EventLine(e, x)).Some?
    ensures Worded(e, ReadObject(EventLine(e, x)).value)
  {
    EventObject(e, x, trader, order);
    match e {
      case FillEvent(_, _, f) =>
        PastIds(e, trader, order, TailMembers(e), SideKey);
        FillTailSide(f.side);
      case RejectEvent(_, _, r) =>
        PastIds(e, trader, order, TailMembers(e), ReasonKey);
        RejectTailReason(r);
    }
  }

  lemma {:induction false} FillTame(e: Event, x: Lexemes)
    requires e.FillEvent? && QuoteFreeIds(e) && x.Clean()
    ensures AllTame(EventFields(e, x)) && Distinct(EventFields(e, x))
  {
    var fields := EventFields(e, x);
    forall i | 0 <= i < |fields| ensures Tame(fields[i]) { QuoteFreeGuarded(fields[i].value, '\"'); }
  }

  /** And the numbers of a fill by their own keys. */
  lemma {:induction false} EventNumbers(e: Event, price: Numeral, qty: Numeral, ts: string)
    requires e.FillEvent? && QuoteFreeIds(e) && price.Valid() && qty.Valid() && QuoteFree(ts)
    ensures var line := EventLine(e, Lexemes(price.Print(), qty.Print(), ts));
            NumberOf(line, PriceKey) == Some(price.Value()) && NumberOf(line, QtyKey) == Some(qty.Value())
  {
    var x := Lexemes(price.Print(), qty.Print(), ts);
    PrintQuoteFree(price);
    PrintQuoteFree(qty);
    FillTame(e, x);
    ExtractBare(EventFields(e, x), 4, price, "\n");
    ExtractBare(EventFields(e, x), 5, qty, "\n");
  }

  lemma {:induction false} NoHeader(fields: seq<Field>)
    requires fields != [] && NoObject(fields, "\n")
    ensures Header(Line(fields, "\n")) == None
  {
    LineObject(fields, "\n");
  }

  lemma {:induction false} BrokenTrader(e: Event, x: Lexemes, p: string)
    requires e.traderId == Escape(p) + "\\"
    ensures Header(EventLine(e, x)) == None
  {
    var m := TextMember(TypeKey, TypeText(e));
    TypeField(e);
    EventFieldsSplit(e, x);
    LeadsCons(Text(TypeKey, TypeText(e)), m,
              [Text(TraderIdKey, e.traderId)] + ([Text(OrderIdKey, e.orderId)] + TailFields(e, x)), []);
    BrokenAt(IdFields(e, TailFields(e, x)), [m] + [], p, "\n", true);
    NoHeader(IdFields(e, TailFields(e, x)));
  }

  lemma {:induction false} BrokenOrder(e: Event, x: Lexemes, trader: string, p: string)
    requires e.traderId == Escape(trader) && e.orderId == Escape(p) + "\\"
    ensures Header(EventLine(e, x)) == None
  {
    var m, n := TextMember(TypeKey, TypeText(e)), TextMember(TraderIdKey, trader);
    TypeField(e);
    EventFieldsSplit(e, x);
    var last := [Text(OrderIdKey, e.orderId)] + TailFields(e, x);
    LeadsCons(Text(TraderIdKey, e.traderId), n, last, []);
    LeadsCons(Text(TypeKey, TypeText(e)), m, [Text(TraderIdKey, e.traderId)] + last, [n] + []);
    assert IdFields(e, TailFields(e, x))[2] == last[0];
    BrokenAt(IdFields(e, TailFields(e, x)), [m] + ([n] + []), p, "\n", true);
    NoHeader(IdFields(e, TailFields(e, x)));
  }

  /** The relay decodes the trader of an event as the very id that was sent, escapes undone, exactly
      when neither id holds a quote; otherwise the line is not JSON and goes to nobody. */
  lemma {:induction false} HeaderExactly(o: WireOrder, e: Event, x: Lexemes)
    requires JsonNumbers(x) && e.traderId == Seen(o.traderId) && e.orderId == Seen(o.orderId)
    ensures Header(EventLine(e, x))
         == if QuoteFree(o.traderId) && QuoteFree(o.orderId) then Some((TypeText(e), o.traderId)) else None
  {
    if !QuoteFree(o.traderId) {
      var p := SeenCut(o.traderId);
      BrokenTrader(e, x, p);
    } else {
      SeenWhole(o.traderId);
      if !QuoteFree(o.orderId) {
        var p := SeenCut(o.orderId);
        BrokenOrder(e, x, o.traderId, p);
      } else {
        SeenWhole(o.orderId);
        HeaderBack(e, x, o.traderId, o.orderId);
      }
    }
  }

  lemma {:induction false} OutcomeIds(book: OrderBookModel.Book, o: IncomingOrder, e: Event)
    requires book.Valid() && e in Outcome(book, o)
    ensures e.traderId == o.traderId && e.orderId == o.orderId
  {
    if Accepted(o) && o.kind == MARKET && Taken(book, o) != [] { FillEventsMeaning(o, Taken(book, o)); }
  }

  /** What the relay's fan-out takes a line for. */
  function EventOf(line: string): Relay.Event {
    match Header(line)
    case None => Relay.Other(line)
    case Some((kind, trader)) =>
      if kind == "tick" then Relay.Tick(line)
      else if kind == "fill" || kind == "reject" then Relay.Report(trader, line)
      else Relay.Other(line)
  }

  /** From a client or a sandbox through printer, parser and engine to the relay's fan-out: every
      event of an order is a report for the trader who sent it, exactly when neither id holds a
      quote; otherwise it goes to nobody. */
  lemma {:induction false} EndToEnd(o: WireOrder, heard: IncomingOrder, book: OrderBookModel.Book, e: Event, x: Lexemes)
    requires o.Numeric() && Heard(o) == Some(heard)
    requires book.Valid() && e in Outcome(book, heard) && JsonNumbers(x)
    ensures Parse(HubLine(o)) == Parse(RelayLine(o)) == Some(heard)
    ensures var out := EventLine(e, x);
            EventOf(out) == if QuoteFree(o.traderId) && QuoteFree(o.orderId) then Relay.Report(o.traderId, out) else Relay.Other(out)
  {
    HubHeard(o);
    RelayHeard(o);
    OutcomeIds(book, heard, e);
    HeaderExactly(o, e, x);
    TypeIsReport(e);
  }

  lemma {:induction false} TypeIsReport(e: Event)
    ensures TypeText(e) != "tick"
  {
    assert TypeText(e)[0] != "tick"[0];
  }
}
