/** Orders as text lines: the engine's parser (src/Protocol.h) is compared with a model of the two Go
    printers (server/ws/hub.go, server/sandbox/relay.go). */
module Protocol {
  import opened Types
  import opened Numerals
  import opened Wire
  import opened Json
  import Manager

  // ---------------------------------------------------------------- the parser

  /** The quoted string value of a key, "" if there is none. */
  function ExtractString(json: string, key: Key): string {
    match After(json, Needle(key, QUOTE))
    case None => ""
    case Some(rest) =>
      match BeforeQuote(rest)
      case None => ""
      case Some(v) => v
  }

  function SkipBlanks(s: string): string { if s != "" && s[0] == ' ' then SkipBlanks(s[1..]) else s }

  /** The numeric value of a key, None if it is absent or not numeric. */
  function NumberOf(json: string, key: Key): Option<real> {
    match After(json, Needle(key, ""))
    case None => None
    case Some(rest) =>
      match Read(SkipBlanks(rest))
      case None => None
      case Some(n) => Some(n.Value())
  }

  /** `extractNumber`, with its out parameter: left alone unless a number is found. */
  method ExtractNumber(json: string, key: Key, before: real) returns (ok: bool, out: real)
    ensures ok <==> NumberOf(json, key).Some?
    ensures out == if ok then NumberOf(json, key).value else before
  {
    out := before;
    var found := After(json, Needle(key, ""));
    if found.None? { return false, before; }
    var rest := found.value;
    var pos := 0;
    while pos < |rest| && rest[pos] == ' '
      invariant pos <= |rest|
      invariant SkipBlanks(rest) == SkipBlanks(rest[pos..])
    {
      assert rest[pos..][1..] == rest[pos + 1..];
      pos := pos + 1;
    }
    assert SkipBlanks(rest) == rest[pos..];
    if pos >= |rest| {
      assert rest[pos..] == "";
      return false, before;
    }
    var n := Read(rest[pos..]);
    if n.None? { return false, before; }
    return true, n.value.Value();
  }

  function SideOf(s: string): Option<Side> {
    if s == "BUY" then Some(BUY) else if s == "SELL" then Some(SELL) else None
  }

  function KindOf(s: string): OrderType { if s == "MARKET" then MARKET else LIMIT }

  /** `parseIncomingOrder`: None on any parse error. */
  function Parse(line: string): Option<IncomingOrder> {
    var traderId := ExtractString(line, TraderIdKey);
    var orderId := ExtractString(line, OrderIdKey);
    var side := SideOf(ExtractString(line, SideKey));
    var kind := KindOf(ExtractString(line, TypeKey));
    var qty := NumberOf(line, QtyKey);
    var price := NumberOf(line, PriceKey);
    if traderId == "" || orderId == "" || qty.None? || side.None? then None
    else Some(IncomingOrder(traderId, orderId, side.value, kind, if price.Some? then price.value else 0.0, qty.value))
  }

  // ---------------------------------------------------------------- the printers

  /** An order as a client or a sandbox sends it: any texts for side and type. */
  datatype WireOrder = WireOrder(
    traderId: string, orderId: string, side: string, kind: string, price: Numeral, qty: Numeral)
  {
    predicate Numeric() { price.Valid() && qty.Valid() }

    predicate Sided() { side == "BUY" || side == "SELL" }

    /** What the sender means: a side by its word, and LIMIT for every type but MARKET. */
    function Meaning(): IncomingOrder
      requires Sided()
    {
      IncomingOrder(traderId, orderId, if side == "BUY" then BUY else SELL, if kind == "MARKET" then MARKET else LIMIT,
                    price.Value(), qty.Value())
    }
  }

  /** No type stands for LIMIT. */
  function Typed(kind: string): string { if kind == "" then "LIMIT" else kind }

  function SideText(s: Side): string { if s == BUY then "BUY" else "SELL" }

  /** The six values of an order as text. */
  datatype Texts = Texts(trader: string, order: string, side: string, kind: string, price: string, qty: string) {
    predicate Tame() {
      && Guarded(trader, '\"') && Guarded(order, '\"') && Guarded(side, '\"') && Guarded(kind, '\"')
      && QuoteFree(price) && QuoteFree(qty)
    }
  }

  function TextsOf(o: WireOrder): Texts {
    Texts(Escape(o.traderId), Escape(o.orderId), Escape(o.side), Escape(Typed(o.kind)), o.price.Print(), o.qty.Print())
  }

  /** The hub marshals a struct: keys in declaration order. */
  function HubFields(t: Texts): seq<Field> {
    [Text(TraderIdKey, t.trader), Text(OrderIdKey, t.order), Text(SideKey, t.side),
     Text(TypeKey, t.kind), Bare(PriceKey, t.price), Bare(QtyKey, t.qty)]
  }

  /** The relay marshals a map: keys sorted. */
  function RelayFields(t: Texts): seq<Field> {
    [Text(OrderIdKey, t.order), Bare(PriceKey, t.price), Bare(QtyKey, t.qty),
     Text(SideKey, t.side), Text(TraderIdKey, t.trader), Text(TypeKey, t.kind)]
  }

  function HubLine(o: WireOrder): string { Line(HubFields(TextsOf(o)), "") }

  function RelayLine(o: WireOrder): string { Line(RelayFields(TextsOf(o)), "") }

  // ---------------------------------------------------------------- extraction inverts printing

  /** Extraction of a string key returns the escaped value up to its first quote. */
  lemma {:induction false} ExtractText(fields: seq<Field>, i: nat, v: string, end: string)
    requires AllTame(fields) && First(fields, i) && fields[i] == Text(fields[i].key, Escape(v))
    ensures ExtractString(Line(fields, end), fields[i].key) == Seen(v)
  {
    var f := fields[i];
    SkipWord("{", Body(fields, end), Needle(f.key, QUOTE));
    var r := FindField(fields, i, end, QUOTE);
    assert Shown(f, r)[1..] == f.value + (QUOTE + r);
    SeenIs(v, r);
  }

  lemma {:induction false} BlanksNone(s: string)
    requires s != "" && s[0] != ' '
    ensures SkipBlanks(s) == s
  {
  }

  lemma {:induction false} ExtractBare(fields: seq<Field>, i: nat, n: Numeral, end: string)
    requires AllTame(fields) && First(fields, i) && n.Valid() && fields[i] == Bare(fields[i].key, n.Print())
    ensures NumberOf(Line(fields, end), fields[i].key) == Some(n.Value())
  {
    var f := fields[i];
    SkipWord("{", Body(fields, end), Needle(f.key, ""));
    var r := FindField(fields, i, end, "");
    PrintStarts(n);
    assert Shown(f, r)[0..] == n.Print() + r;
    assert (n.Print() + r)[0] == n.Print()[0];
    BlanksNone(n.Print() + r);
    ReadPrint(n, r);
  }

  predicate Distinct(fields: seq<Field>) {
    forall i, j :: 0 <= i < j < |fields| ==> fields[i].key != fields[j].key
  }

  /** Where an order's fields stand in a line. */
  datatype Places = Places(trader: nat, order: nat, side: nat, kind: nat, price: nat, qty: nat)

  predicate Carries(fields: seq<Field>, at: Places, t: Texts) {
    && at.trader < |fields| && fields[at.trader] == Text(TraderIdKey, t.trader)
    && at.order < |fields| && fields[at.order] == Text(OrderIdKey, t.order)
    && at.side < |fields| && fields[at.side] == Text(SideKey, t.side)
    && at.kind < |fields| && fields[at.kind] == Text(TypeKey, t.kind)
    && at.price < |fields| && fields[at.price] == Bare(PriceKey, t.price)
    && at.qty < |fields| && fields[at.qty] == Bare(QtyKey, t.qty)
  }

  /** What the parser makes of an order, whatever its texts spell: it refuses empty ids and unknown
      sides, and sees the ids as the encoder wrote them, up to the first quote. */
  function Heard(o: WireOrder): Option<IncomingOrder> {
    if o.traderId == "" || o.orderId == "" || !o.Sided() then None
    else Some(o.Meaning().(traderId := Seen(o.traderId), orderId := Seen(o.orderId)))
  }

  /** Side and type are seen for what they are. */
  lemma {:induction false} WordsSeen(side: string, kind: string)
    ensures SideOf(Seen(side)) == if side == "BUY" then Some(BUY) else if side == "SELL" then Some(SELL) else None
    ensures KindOf(Seen(Typed(kind))) == if kind == "MARKET" then MARKET else LIMIT
  {
    SeenWord(side, "BUY");
    SeenWord(side, "SELL");
    SeenWord(Typed(kind), "MARKET");
  }

  /** Whatever order the keys come in and whatever the values spell, the parser reads every field
      of a printed order. */
  lemma {:induction false} ParseCarried(fields: seq<Field>, at: Places, o: WireOrder, end: string)
    requires AllTame(fields) && Distinct(fields) && o.Numeric() && Carries(fields, at, TextsOf(o))
    ensures Parse(Line(fields, end)) == Heard(o)
  {
    ExtractText(fields, at.trader, o.traderId, end);
    ExtractText(fields, at.order, o.orderId, end);
    ExtractText(fields, at.side, o.side, end);
    ExtractText(fields, at.kind, Typed(o.kind), end);
    ExtractBare(fields, at.price, o.price, end);
    ExtractBare(fields, at.qty, o.qty, end);
    WordsSeen(o.side, o.kind);
    SeenEmpty(o.traderId);
    SeenEmpty(o.orderId);
  }

  lemma {:induction false} PrintQuoteFree(n: Numeral)
    requires n.Valid()
    ensures QuoteFree(n.Print())
  {
    DigitsQuoteFree(n.whole);
    if n.frac.Some? { DigitsQuoteFree(n.frac.value); }
    if n.exp.Some? { DigitsQuoteFree(n.exp.value.digits); }
    assert QuoteFree(PrintFrac(n.frac)) && QuoteFree(PrintExp(n.exp));
  }

  lemma {:induction false} DigitsQuoteFree(s: string)
    requires AllDigits(s)
    ensures QuoteFree(s)
  {
  }

  // ---------------------------------------------------------------- parsed ids

  lemma {:induction false} ExtractQuoteFree(line: string, key: Key)
    ensures QuoteFree(ExtractString(line, key))
  {
    var found := After(line, Needle(key, QUOTE));
    if found.Some? { BeforeQuoteFree(found.value); }
  }

  /** No id the parser produces can hold a quote. */
  lemma {:induction false} ParsedQuoteFree(line: string)
    ensures Parse(line).Some? ==> QuoteFree(Parse(line).value.traderId) && QuoteFree(Parse(line).value.orderId)
  {
    ExtractQuoteFree(line, TraderIdKey);
    ExtractQuoteFree(line, OrderIdKey);
  }

  // ---------------------------------------------------------------- the two round trips

  lemma {:induction false} HubShape(t: Texts)
    requires t.Tame()
    ensures AllTame(HubFields(t)) && Distinct(HubFields(t)) && Carries(HubFields(t), Places(0, 1, 2, 3, 4, 5), t)
  {
  }

  lemma {:induction false} RelayShape(t: Texts)
    requires t.Tame()
    ensures AllTame(RelayFields(t)) && Distinct(RelayFields(t)) && Carries(RelayFields(t), Places(4, 0, 3, 5, 1, 2), t)
  {
  }

  lemma {:induction false} TextsTame(o: WireOrder)
    requires o.Numeric()
    ensures TextsOf(o).Tame()
  {
    EscapeGuarded(o.traderId, '\"');
    EscapeGuarded(o.orderId, '\"');
    EscapeGuarded(o.side, '\"');
    EscapeGuarded(Typed(o.kind), '\"');
    PrintQuoteFree(o.price);
    PrintQuoteFree(o.qty);
  }

  /** Through the hub the parser hears every order. */
  lemma {:induction false} HubHeard(o: WireOrder)
    requires o.Numeric()
    ensures Parse(HubLine(o)) == Heard(o)
  {
    TextsTame(o);
    HubShape(TextsOf(o));
    ParseCarried(HubFields(TextsOf(o)), Places(0, 1, 2, 3, 4, 5), o, "");
  }

  /** Through the relay too, whose keys come in another order. */
  lemma {:induction false} RelayHeard(o: WireOrder)
    requires o.Numeric()
    ensures Parse(RelayLine(o)) == Heard(o)
  {
    TextsTame(o);
    RelayShape(TextsOf(o));
    ParseCarried(RelayFields(TextsOf(o)), Places(4, 0, 3, 5, 1, 2), o, "");
  }

  /** An id that survives the wire. */
  predicate Plain(id: string) { id != "" && AllVerbatim(id) }

  /** Every id the sandbox manager admits survives the wire. */
  lemma {:induction false} SandboxIdPlain(id: string)
    requires Manager.ValidId(id)
    ensures Plain(id)
  {
    forall i | 0 <= i < |id| ensures Verbatim(id[i]) { assert Manager.IdChar(id[i]); }
  }

  /** An order is heard as it was meant exactly when both ids are non-empty and made of characters
      that Go copies verbatim. */
  lemma {:induction false} HeardExactly(o: WireOrder)
    requires o.Sided()
    ensures Heard(o) == Some(o.Meaning()) <==> Plain(o.traderId) && Plain(o.orderId)
  {
    SeenFixed(o.traderId);
    SeenFixed(o.orderId);
  }

  /** Through the hub an order comes back exactly when its side is one and both ids are plain. */
  lemma {:induction false} HubRoundTrip(o: WireOrder)
    requires o.Numeric()
    ensures !o.Sided() ==> Parse(HubLine(o)) == None
    ensures o.Sided() ==> (Parse(HubLine(o)) == Some(o.Meaning()) <==> Plain(o.traderId) && Plain(o.orderId))
  {
    HubHeard(o);
    if o.Sided() { HeardExactly(o); }
  }

  /** The same holds through the relay. */
  lemma {:induction false} RelayRoundTrip(o: WireOrder)
    requires o.Numeric()
    ensures !o.Sided() ==> Parse(RelayLine(o)) == None
    ensures o.Sided() ==> (Parse(RelayLine(o)) == Some(o.Meaning()) <==> Plain(o.traderId) && Plain(o.orderId))
  {
    RelayHeard(o);
    if o.Sided() { HeardExactly(o); }
  }

  /** An order with any side and type, printed with their words by either printer, is parsed to that
      very side and type, prices and quantities, exactly when both ids are plain. */
  lemma {:induction false} TypedRoundTrip(trader: string, order: string, side: Side, kind: OrderType, price: Numeral, qty: Numeral)
    requires price.Valid() && qty.Valid()
    ensures var words := WireOrder(trader, order, if side == BUY then "BUY" else "SELL",
                                   if kind == LIMIT then "LIMIT" else "MARKET", price, qty);
            var typed := Some(IncomingOrder(trader, order, side, kind, price.Value(), qty.Value()));
            && (Parse(HubLine(words)) == typed <==> Plain(trader) && Plain(order))
            && (Parse(RelayLine(words)) == typed <==> Plain(trader) && Plain(order))
  {
    var words := WireOrder(trader, order, if side == BUY then "BUY" else "SELL",
                           if kind == LIMIT then "LIMIT" else "MARKET", price, qty);
    HubRoundTrip(words);
    RelayRoundTrip(words);
    WordsDiffer();
  }

  lemma {:induction false} WordsDiffer()
    ensures "BUY" != "SELL" && "LIMIT" != "MARKET"
  {
    assert |"BUY"| != |"SELL"| && |"LIMIT"| != |"MARKET"|;
  }

  /** Both ids are there, the side is a word for one, and there is a quantity. */
  predicate Complete(line: string) {
    && ExtractString(line, TraderIdKey) != "" && ExtractString(line, OrderIdKey) != ""
    && (ExtractString(line, SideKey) == "BUY" || ExtractString(line, SideKey) == "SELL")
    && NumberOf(line, QtyKey).Some?
  }

  /** The order says what the line does; a price that is not found is 0. */
  predicate Reads(line: string, o: IncomingOrder) {
    && o.traderId == ExtractString(line, TraderIdKey) && o.orderId == ExtractString(line, OrderIdKey)
    && ExtractString(line, SideKey) == (if o.side == BUY then "BUY" else "SELL")
    && (o.kind == MARKET <==> ExtractString(line, TypeKey) == "MARKET")
    && NumberOf(line, QtyKey) == Some(o.qty)
    && (if NumberOf(line, PriceKey).Some? then NumberOf(line, PriceKey) == Some(o.price) else o.price == 0.0)
  }

  /** Of any line whatever: an order comes of it exactly when both ids are there, the side is a word
      for one and a quantity is found; a price that is not found is 0, a type other than MARKET is
      LIMIT. */
  lemma {:induction false} ParsedExactly(line: string)
    ensures Parse(line).Some? <==> Complete(line)
    ensures Parse(line).Some? ==> Reads(line, Parse(line).value)
  {
    WordsDiffer();
  }
}
