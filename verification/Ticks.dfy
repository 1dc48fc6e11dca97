/** The engine's tick lines (src/Simulation.cpp, `emitTick`) and what the server makes of them:
    `extractType` by substring, the relay by decoding JSON. */
module Ticks {
  import opened Types
  import opened Numerals
  import opened Wire
  import opened Json
  import opened Protocol
  import opened Events
  import opened Formats
  import Relay

  /** One row of the positions, as text. */
  datatype PositionText = PositionText(trader: string, net: string, unrealised: string, realised: string) {
    ghost predicate Numeric() { NumberText(net) && NumberText(unrealised) && NumberText(realised) }
  }

  datatype LevelText = LevelText(price: string, qty: string) {
    ghost predicate Numeric() { NumberText(price) && NumberText(qty) }
  }

  /** The numbers of a tick, as text, and the rows it lists. */
  datatype TickText = TickText(
    ts: string, price: string, bid: string, ask: string, spread: string,
    bids: seq<LevelText>, asks: seq<LevelText>, positions: seq<PositionText>)
  {
    ghost predicate Numeric() {
      NumberText(ts) && NumberText(price) && NumberText(bid) && NumberText(ask) && NumberText(spread)
    }
  }

  function LevelFields(l: LevelText): seq<Field> { [Bare(PriceKey, l.price)] + ([Bare(QtyKey, l.qty)] + []) }

  function PositionFields(p: PositionText): seq<Field> {
    [Text(TraderIdKey, p.trader)]
    + ([Bare(NetQtyKey, p.net)] + ([Bare(UnrealisedKey, p.unrealised)] + ([Bare(RealisedKey, p.realised)] + [])))
  }

  function LevelObjects(levels: seq<LevelText>): seq<seq<Field>> {
    if levels == [] then [] else [LevelFields(levels[0])] + LevelObjects(levels[1..])
  }

  function PositionObjects(positions: seq<PositionText>): seq<seq<Field>> {
    if positions == [] then [] else [PositionFields(positions[0])] + PositionObjects(positions[1..])
  }

  function PositionsText(positions: seq<PositionText>): string { ArrayText(PositionObjects(positions), "") }

  /** All but the first field and the positions. */
  function Middle(tick: nat, x: TickText): seq<Field> {
    [Bare(TickKey, Decimal(tick))] + ([Bare(TsKey, x.ts)] + ([Bare(PriceKey, x.price)] + ([Bare(BidKey, x.bid)]
    + ([Bare(AskKey, x.ask)] + ([Bare(SpreadKey, x.spread)] + ([Bare(BidDepthKey, ArrayText(LevelObjects(x.bids), ""))]
    + ([Bare(AskDepthKey, ArrayText(LevelObjects(x.asks), ""))] + [])))))))
  }

  /** Every tenth tick lists the positions. */
  function TickFields(tick: nat, x: TickText): seq<Field> {
    [Text(TypeKey, "tick")]
    + (Middle(tick, x) + if tick % 10 == 0 then [Bare(PositionsKey, PositionsText(x.positions))] else [])
  }

  function TickLine(tick: nat, x: TickText): string { Line(TickFields(tick, x), "\n") }

  // ---------------------------------------------------------------- character by character

  lemma {:induction false} TickWord(key: Key)
    ensures key == TickKey ==> ",\"tick\":" == "," + "\"" + Spell(key) + "\":"
    ensures key == BidKey ==> ",\"bid\":" == "," + "\"" + Spell(key) + "\":"
    ensures key == AskKey ==> ",\"ask\":" == "," + "\"" + Spell(key) + "\":"
    ensures key == SpreadKey ==> ",\"spread\":" == "," + "\"" + Spell(key) + "\":"
  {
  }

  lemma {:induction false} DepthWord(key: Key)
    ensures key == BidDepthKey ==> ",\"bid_depth\":" == "," + "\"" + Spell(key) + "\":"
    ensures key == AskDepthKey ==> ",\"ask_depth\":" == "," + "\"" + Spell(key) + "\":"
    ensures key == PositionsKey ==> ",\"positions\":" == "," + "\"" + Spell(key) + "\":"
  {
  }

  /** The line of a tick. */
  lemma {:induction false} TickFormat(tick: nat, x: TickText)
    ensures TickLine(tick, x)
         == Quoting("{\"type\":\"", "tick",
            Plainly(",\"tick\":", Decimal(tick),
            Plainly(",\"ts\":", x.ts,
            Plainly(",\"price\":", x.price,
            Plainly(",\"bid\":", x.bid,
            Plainly(",\"ask\":", x.ask,
            Plainly(",\"spread\":", x.spread,
            Plainly(",\"bid_depth\":", ArrayText(LevelObjects(x.bids), ""),
            Plainly(",\"ask_depth\":", ArrayText(LevelObjects(x.asks), ""), PositionsEnd(tick, x))))))))))
  {
    TickFormatOf(TickFields(tick, x));
    TickEnd(tick, x);
  }

  /** Every tenth line goes on with the positions. */
  function PositionsEnd(tick: nat, x: TickText): string {
    if tick % 10 == 0 then Plainly(",\"positions\":", PositionsText(x.positions), "}" + "\n") else "}" + "\n"
  }

  lemma {:induction false} TickEnd(tick: nat, x: TickText)
    ensures Wire.Rest(TickFields(tick, x)[8..], "\n") == PositionsEnd(tick, x)
  {
    if tick % 10 == 0 {
      DepthWord(PositionsKey);
      NextBare(TickFields(tick, x), 8, ",\"positions\":", "\n");
    }
  }

  lemma {:induction false} TickFormatOf(f: seq<Field>)
    requires |f| >= 9 && f[0].Text? && f[0].key == TypeKey
    requires f[1].Bare? && f[1].key == TickKey && f[2].Bare? && f[2].key == TsKey && f[3].Bare? && f[3].key == PriceKey
    requires f[4].Bare? && f[4].key == BidKey && f[5].Bare? && f[5].key == AskKey && f[6].Bare? && f[6].key == SpreadKey
    requires f[7].Bare? && f[7].key == BidDepthKey && f[8].Bare? && f[8].key == AskDepthKey
    ensures Line(f, "\n")
         == Quoting("{\"type\":\"", f[0].value,
            Plainly(",\"tick\":", f[1].value,
            Plainly(",\"ts\":", f[2].value,
            Plainly(",\"price\":", f[3].value,
            Plainly(",\"bid\":", f[4].value,
            Plainly(",\"ask\":", f[5].value,
            Plainly(",\"spread\":", f[6].value,
            Plainly(",\"bid_depth\":", f[7].value,
            Plainly(",\"ask_depth\":", f[8].value, Wire.Rest(f[8..], "\n"))))))))))
  {
    TypeFormat(f);
    TickWord(TickKey);
    NextBare(f, 0, ",\"tick\":", "\n");
    EventWord(TsKey);
    NextBare(f, 1, ",\"ts\":", "\n");
    BareWord(PriceKey);
    NextBare(f, 2, ",\"price\":", "\n");
    TickWord(BidKey);
    NextBare(f, 3, ",\"bid\":", "\n");
    DepthFormat(f);
  }

  lemma {:induction false} DepthFormat(f: seq<Field>)
    requires |f| >= 9 && f[5].Bare? && f[5].key == AskKey && f[6].Bare? && f[6].key == SpreadKey
    requires f[7].Bare? && f[7].key == BidDepthKey && f[8].Bare? && f[8].key == AskDepthKey
    ensures Wire.Rest(f[4..], "\n")
         == Plainly(",\"ask\":", f[5].value,
            Plainly(",\"spread\":", f[6].value,
            Plainly(",\"bid_depth\":", f[7].value,
            Plainly(",\"ask_depth\":", f[8].value, Wire.Rest(f[8..], "\n")))))
  {
    TickWord(AskKey);
    NextBare(f, 4, ",\"ask\":", "\n");
    TickWord(SpreadKey);
    NextBare(f, 5, ",\"spread\":", "\n");
    DepthWord(BidDepthKey);
    NextBare(f, 6, ",\"bid_depth\":", "\n");
    DepthWord(AskDepthKey);
    NextBare(f, 7, ",\"ask_depth\":", "\n");
  }

  lemma {:induction false} RowWord(key: Key)
    ensures key == NetQtyKey ==> ",\"net_qty\":" == "," + "\"" + Spell(key) + "\":"
    ensures key == PriceKey ==> "{\"price\":" == "{" + "\"" + Spell(key) + "\":"
  {
  }

  lemma {:induction false} UnrealisedWord()
    ensures ",\"unrealised_pnl\":" == "," + "\"" + Spell(UnrealisedKey) + "\":"
  {
  }

  lemma {:induction false} RealisedWord()
    ensures ",\"realised_pnl\":" == "," + "\"" + Spell(RealisedKey) + "\":"
  {
  }

  /** One row of the positions. */
  lemma {:induction false} PositionFormat(p: PositionText, end: string)
    ensures "{" + Body(PositionFields(p), end)
         == Quoting("{\"trader_id\":\"", p.trader,
            Plainly(",\"net_qty\":", p.net,
            Plainly(",\"unrealised_pnl\":", p.unrealised,
            Plainly(",\"realised_pnl\":", p.realised, "}" + end))))
  {
    PositionFormatOf(PositionFields(p), end);
  }

  lemma {:induction false} PositionFormatOf(f: seq<Field>, end: string)
    requires |f| == 4 && f[0].Text? && f[0].key == TraderIdKey && f[1].Bare? && f[1].key == NetQtyKey
    requires f[2].Bare? && f[2].key == UnrealisedKey && f[3].Bare? && f[3].key == RealisedKey
    ensures Line(f, end)
         == Quoting("{\"trader_id\":\"", f[0].value,
            Plainly(",\"net_qty\":", f[1].value,
            Plainly(",\"unrealised_pnl\":", f[2].value,
            Plainly(",\"realised_pnl\":", f[3].value, "}" + end))))
  {
    FirstWord(TraderIdKey);
    LineText(f, "{\"trader_id\":\"", end);
    assert f[0..] == f;
    RowWord(NetQtyKey);
    NextBare(f, 0, ",\"net_qty\":", end);
    UnrealisedWord();
    NextBare(f, 1, ",\"unrealised_pnl\":", end);
    RealisedWord();
    NextBare(f, 2, ",\"realised_pnl\":", end);
  }

  /** One level of the depth. */
  lemma {:induction false} LevelFormat(l: LevelText, end: string)
    ensures "{" + Body(LevelFields(l), end) == Plainly("{\"price\":", l.price, Plainly(",\"qty\":", l.qty, "}" + end))
  {
    var f := LevelFields(l);
    RowWord(PriceKey);
    JoinBare("{", Spell(PriceKey), l.price, Wire.Rest(f, end));
    assert f[0..] == f;
    BareWord(QtyKey);
    NextBare(f, 0, ",\"qty\":", end);
  }

  // ---------------------------------------------------------------- by substring

  /** A line whose first field says so is classified as a tick, whatever else it holds. */
  lemma {:induction false} FirstFieldTick(fields: seq<Field>, end: string)
    requires fields != [] && fields[0] == Text(TypeKey, "tick")
    ensures ExtractType(Line(fields, end)) == "tick"
  {
    var r := Wire.Rest(fields, end);
    SkipWord("{", Body(fields, end), Needle(TypeKey, Quoted("tick")));
    OtherWord("tick", r, "tick");
    HitField(fields[0], r, Quoted("tick"));
    Markers();
  }

  lemma {:induction false} TickTyped(tick: nat, x: TickText)
    ensures ExtractType(TickLine(tick, x)) == "tick"
  {
    FirstFieldTick(TickFields(tick, x), "\n");
  }

  // ---------------------------------------------------------------- by decoding

  ghost predicate AllReadable(fields: seq<Field>) {
    fields == [] || (fields[0].Bare? && Readable(fields[0].value) && AllReadable(fields[1..]))
  }

  function Others(fields: seq<Field>): seq<Member> {
    if fields == [] then [] else [NumMember(fields[0].key)] + Others(fields[1..])
  }

  lemma {:induction false} OthersEncode(fields: seq<Field>, more: seq<Field>)
    requires AllReadable(fields)
    ensures AllEncode(fields, Others(fields)) && Leads(fields + more, Others(fields)) && |Others(fields)| == |fields|
  {
    if fields != [] {
      OthersEncode(fields[1..], more);
      assert fields == [fields[0]] + fields[1..];
      EncodeCons(fields[0], NumMember(fields[0].key), fields[1..], Others(fields[1..]));
      LeadsCons(fields[0], NumMember(fields[0].key), fields[1..] + more, Others(fields[1..]));
      assert fields + more == [fields[0]] + (fields[1..] + more);
    }
  }

  /** Nothing but strings is looked up. */
  lemma {:induction false} OthersLookup(fields: seq<Field>, key: Key)
    ensures Lookup(Others(fields), key) == None
  {
    if fields != [] {
      OthersLookup(fields[1..], key);
      LookupCons(NumMember(fields[0].key), Others(fields[1..]), key);
    }
  }

  lemma {:induction false} ReadableCons(f: Field, fields: seq<Field>)
    requires f.Bare? && Readable(f.value) && AllReadable(fields)
    ensures AllReadable([f] + fields)
  {
    assert ([f] + fields)[1..] == fields;
  }

  lemma {:induction false} DecimalStart(n: nat)
    ensures Decimal(n) != "" && NoLeadingZero(Decimal(n)) && (n > 0 ==> Decimal(n)[0] != '0')
  {
    if n >= 10 { DecimalStart(n / 10); }
  }

  lemma {:induction false} DecimalReadable(n: nat)
    ensures Readable(Decimal(n))
  {
    DecimalBack(n);
    DecimalStart(n);
    var m := Numeral(false, Decimal(n), None, None);
    assert m.Print() == Decimal(n);
    NumberBack(Decimal(n));
  }

  ghost predicate NumericLevels(levels: seq<LevelText>) {
    levels == [] || (levels[0].Numeric() && NumericLevels(levels[1..]))
  }

  lemma {:induction false} LevelsReadable(levels: seq<LevelText>) returns (members: seq<seq<Member>>)
    requires NumericLevels(levels)
    ensures AllObjects(LevelObjects(levels), members)
  {
    members := [];
    if levels != [] {
      var more := LevelsReadable(levels[1..]);
      var f := LevelFields(levels[0]);
      NumberBack(levels[0].price);
      NumberBack(levels[0].qty);
      ReadableCons(Bare(QtyKey, levels[0].qty), []);
      ReadableCons(Bare(PriceKey, levels[0].price), [Bare(QtyKey, levels[0].qty)] + []);
      OthersEncode(f, []);
      members := [Others(f)] + more;
      ObjectsCons(f, Others(f), LevelObjects(levels[1..]), more);
    }
  }

  lemma {:induction false} ObjectsCons(f: seq<Field>, m: seq<Member>, objects: seq<seq<Field>>, members: seq<seq<Member>>)
    requires f != [] && AllEncode(f, m) && AllObjects(objects, members)
    ensures AllObjects([f] + objects, [m] + members)
  {
    assert ([f] + objects)[1..] == objects && ([m] + members)[1..] == members;
  }

  lemma {:induction false} LeadObjectsCons(f: seq<Field>, m: seq<Member>, objects: seq<seq<Field>>, members: seq<seq<Member>>)
    requires f != [] && AllEncode(f, m) && LeadObjects(objects, members)
    ensures LeadObjects([f] + objects, [m] + members)
  {
    assert ([f] + objects)[1..] == objects && ([m] + members)[1..] == members;
  }

  lemma {:induction false} MiddleReadable(tick: nat, x: TickText)
    requires x.Numeric() && NumericLevels(x.bids) && NumericLevels(x.asks)
    ensures AllReadable(Middle(tick, x))
  {
    var bids := LevelsReadable(x.bids);
    var asks := LevelsReadable(x.asks);
    ArrayBack(LevelObjects(x.bids), bids);
    ArrayBack(LevelObjects(x.asks), asks);
    DecimalReadable(tick);
    NumberBack(x.ts);
    NumberBack(x.price);
    NumberBack(x.bid);
    NumberBack(x.ask);
    NumberBack(x.spread);
    var a := [Bare(AskDepthKey, ArrayText(LevelObjects(x.asks), ""))] + [];
    var b := [Bare(BidDepthKey, ArrayText(LevelObjects(x.bids), ""))] + a;
    var c := [Bare(SpreadKey, x.spread)] + b;
    var d := [Bare(AskKey, x.ask)] + c;
    var e := [Bare(BidKey, x.bid)] + d;
    var f := [Bare(PriceKey, x.price)] + e;
    ReadableCons(Bare(AskDepthKey, ArrayText(LevelObjects(x.asks), "")), []);
    ReadableCons(Bare(BidDepthKey, ArrayText(LevelObjects(x.bids), "")), a);
    ReadableCons(Bare(SpreadKey, x.spread), b);
    ReadableCons(Bare(AskKey, x.ask), c);
    ReadableCons(Bare(BidKey, x.bid), d);
    ReadableCons(Bare(PriceKey, x.price), e);
    ReadableCons(Bare(TsKey, x.ts), f);
    ReadableCons(Bare(TickKey, Decimal(tick)), [Bare(TsKey, x.ts)] + f);
  }

  // ---------------------------------------------------------------- the positions

  /** The rows are those of the traders who sent these ids, as the parser saw them. */
  ghost predicate RowsOf(positions: seq<PositionText>, ids: seq<string>) {
    && |positions| == |ids|
    && (ids == [] || (&& positions[0].Numeric() && positions[0].trader == Seen(ids[0])
                      && RowsOf(positions[1..], ids[1..])))
  }

  predicate AllQuoteFree(ids: seq<string>) { ids == [] || (QuoteFree(ids[0]) && AllQuoteFree(ids[1..])) }

  function RowMembers(p: PositionText, id: string): seq<Member> {
    [TextMember(TraderIdKey, id)] + Others(PositionFields(p)[1..])
  }

  lemma {:induction false} RowEncodes(p: PositionText, id: string)
    requires p.Numeric() && p.trader == Seen(id) && QuoteFree(id)
    ensures AllEncode(PositionFields(p), RowMembers(p, id))
  {
    SeenWhole(id);
    RowTail(p);
    OthersEncode(PositionFields(p)[1..], []);
    EncodeCons(Text(TraderIdKey, p.trader), TextMember(TraderIdKey, id), PositionFields(p)[1..], Others(PositionFields(p)[1..]));
    assert PositionFields(p) == [Text(TraderIdKey, p.trader)] + PositionFields(p)[1..];
  }

  lemma {:induction false} RowTail(p: PositionText)
    requires p.Numeric()
    ensures AllReadable(PositionFields(p)[1..])
  {
    var a := [Bare(RealisedKey, p.realised)] + [];
    var b := [Bare(UnrealisedKey, p.unrealised)] + a;
    NumberBack(p.net);
    NumberBack(p.unrealised);
    NumberBack(p.realised);
    ReadableCons(Bare(RealisedKey, p.realised), []);
    ReadableCons(Bare(UnrealisedKey, p.unrealised), a);
    ReadableCons(Bare(NetQtyKey, p.net), b);
    assert PositionFields(p)[1..] == [Bare(NetQtyKey, p.net)] + b;
  }

  lemma {:induction false} RowBroken(p: PositionText, id: string)
    requires p.trader == Seen(id) && !QuoteFree(id)
    ensures NeverObject(PositionFields(p))
  {
    var q := SeenCut(id);
    var f := PositionFields(p);
    forall end ensures NoObject(f, end) { BrokenAt(f, [], q, end, true); }
  }

  lemma {:induction false} RowsReadable(positions: seq<PositionText>, ids: seq<string>) returns (members: seq<seq<Member>>)
    requires RowsOf(positions, ids) && AllQuoteFree(ids)
    ensures AllObjects(PositionObjects(positions), members)
  {
    members := [];
    if ids != [] {
      var more := RowsReadable(positions[1..], ids[1..]);
      RowEncodes(positions[0], ids[0]);
      members := [RowMembers(positions[0], ids[0])] + more;
      ObjectsCons(PositionFields(positions[0]), RowMembers(positions[0], ids[0]), PositionObjects(positions[1..]), more);
    }
  }

  lemma {:induction false} RowsBroken(positions: seq<PositionText>, ids: seq<string>)
    returns (members: seq<seq<Member>>, bad: seq<Field>)
    requires RowsOf(positions, ids) && !AllQuoteFree(ids)
    ensures var objects := PositionObjects(positions);
            |members| < |objects| && LeadObjects(objects, members) && objects[|members|] == bad
    ensures bad != [] && NeverObject(bad)
  {
    if !QuoteFree(ids[0]) {
      members, bad := [], PositionFields(positions[0]);
      RowBroken(positions[0], ids[0]);
    } else {
      var more, b := RowsBroken(positions[1..], ids[1..]);
      RowEncodes(positions[0], ids[0]);
      members, bad := [RowMembers(positions[0], ids[0])] + more, b;
      LeadObjectsCons(PositionFields(positions[0]), RowMembers(positions[0], ids[0]), PositionObjects(positions[1..]), more);
    }
  }

  // ---------------------------------------------------------------- the whole line

  lemma {:induction false} TickDecodes(bares: seq<Field>)
    requires AllReadable(bares)
    ensures ReadObject(Line([Text(TypeKey, "tick")] + bares, "\n")) == Some([TextMember(TypeKey, "tick")] + Others(bares))
  {
    OthersEncode(bares, []);
    VerbatimField(TypeKey, "tick");
    EncodeCons(Text(TypeKey, "tick"), TextMember(TypeKey, "tick"), bares, Others(bares));
    ObjectOf([Text(TypeKey, "tick")] + bares, [TextMember(TypeKey, "tick")] + Others(bares));
  }

  lemma {:induction false} TickLookups(bares: seq<Field>)
    ensures Lookup([TextMember(TypeKey, "tick")] + Others(bares), TypeKey) == Some("tick")
    ensures Lookup([TextMember(TypeKey, "tick")] + Others(bares), TraderIdKey) == None
  {
    OthersLookup(bares, TypeKey);
    OthersLookup(bares, TraderIdKey);
    LookupCons(TextMember(TypeKey, "tick"), Others(bares), TypeKey);
    LookupPast(TypeKey, Str("tick"), Others(bares), TraderIdKey);
  }

  lemma {:induction false} TickObject(bares: seq<Field>)
    requires AllReadable(bares)
    ensures Header(Line([Text(TypeKey, "tick")] + bares, "\n")) == Some(("tick", ""))
  {
    TickDecodes(bares);
    TickLookups(bares);
  }

  lemma {:induction false} NoTickObject(bares: seq<Field>, bad: Field)
    requires AllReadable(bares) && NeverReadable(bad)
    ensures Header(Line([Text(TypeKey, "tick")] + (bares + [bad]), "\n")) == None
  {
    var f, m := Text(TypeKey, "tick"), TextMember(TypeKey, "tick");
    OthersEncode(bares, [bad]);
    VerbatimField(TypeKey, "tick");
    LeadsCons(f, m, bares + [bad], Others(bares));
    assert ([f] + (bares + [bad]))[|[m] + Others(bares)|] == bad;
    ValueBroken([f] + (bares + [bad]), [m] + Others(bares), bad, "\n", true);
    LineObject([f] + (bares + [bad]), "\n");
  }

  lemma {:induction false} ReadableAppend(bares: seq<Field>, f: Field)
    requires AllReadable(bares) && f.Bare? && Readable(f.value)
    ensures AllReadable(bares + [f])
  {
    if bares == [] {
      assert bares + [f] == [f] + [];
      ReadableCons(f, []);
    } else {
      ReadableAppend(bares[1..], f);
      ReadableCons(bares[0], bares[1..] + [f]);
      assert bares + [f] == [bares[0]] + (bares[1..] + [f]);
    }
  }

  /** The relay takes a tick line for a tick, and so sends it to every sandbox, except every tenth
      one if some trader with a position sent an id that holds a quote: that one is not JSON. */
  lemma {:induction false} TickRouted(tick: nat, x: TickText, ids: seq<string>)
    requires x.Numeric() && NumericLevels(x.bids) && NumericLevels(x.asks) && RowsOf(x.positions, ids)
    ensures var line := TickLine(tick, x);
            EventOf(line) == if tick % 10 == 0 && !AllQuoteFree(ids) then Relay.Other(line) else Relay.Tick(line)
  {
    MiddleReadable(tick, x);
    var middle, f := Middle(tick, x), Bare(PositionsKey, PositionsText(x.positions));
    if tick % 10 != 0 {
      assert middle + [] == middle;
      TickObject(middle);
    } else if AllQuoteFree(ids) {
      var members := RowsReadable(x.positions, ids);
      ArrayBack(PositionObjects(x.positions), members);
      ReadableAppend(middle, f);
      TickObject(middle + [f]);
    } else {
      var members, bad := RowsBroken(x.positions, ids);
      ArrayBroken(PositionsKey, PositionObjects(x.positions), members, bad);
      NoTickObject(middle, f);
    }
  }
}
