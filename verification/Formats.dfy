/** The lines of Protocol.dfy and Events.dfy, character by character, as the Go structs and maps and
    the engine's output streams spell them. */
module Formats {
  import opened Types
  import opened Wire
  import opened Json
  import opened Drain
  import opened Protocol
  import opened Events

  // ---------------------------------------------------------------- pieces of a line

  /** A word that ends in an opening quote, the text, and its closing quote. */
  function Quoting(word: string, v: string, r: string): string { word + (v + ("\"" + r)) }

  function Plainly(word: string, v: string, r: string): string { word + (v + r) }

  lemma {:induction false} JoinText(open: string, k: string, v: string, r: string)
    ensures open + (QUOTE + (k + (QUOTE + (":" + (QUOTE + (v + (QUOTE + r)))))))
         == Quoting(open + "\"" + k + "\":\"", v, r)
  {
  }

  lemma {:induction false} JoinBare(open: string, k: string, v: string, r: string)
    ensures open + (QUOTE + (k + (QUOTE + (":" + (v + r))))) == Plainly(open + "\"" + k + "\":", v, r)
  {
  }

  lemma {:induction false} RestIs(fields: seq<Field>, end: string)
    requires |fields| >= 2
    ensures Wire.Rest(fields, end) == "," + Show(fields[1], Wire.Rest(fields[1..], end))
  {
    assert fields[1..][0] == fields[1];
  }

  lemma {:induction false} RestText(fields: seq<Field>, word: string, end: string)
    requires |fields| >= 2 && fields[1].Text? && word == "," + "\"" + Spell(fields[1].key) + "\":\""
    ensures Wire.Rest(fields, end) == Quoting(word, fields[1].value, Wire.Rest(fields[1..], end))
  {
    RestIs(fields, end);
    JoinText(",", Spell(fields[1].key), fields[1].value, Wire.Rest(fields[1..], end));
  }

  lemma {:induction false} RestBare(fields: seq<Field>, word: string, end: string)
    requires |fields| >= 2 && fields[1].Bare? && word == "," + "\"" + Spell(fields[1].key) + "\":"
    ensures Wire.Rest(fields, end) == Plainly(word, fields[1].value, Wire.Rest(fields[1..], end))
  {
    RestIs(fields, end);
    JoinBare(",", Spell(fields[1].key), fields[1].value, Wire.Rest(fields[1..], end));
  }

  lemma {:induction false} LineText(fields: seq<Field>, word: string, end: string)
    requires fields != [] && fields[0].Text? && word == "{" + "\"" + Spell(fields[0].key) + "\":\""
    ensures Line(fields, end) == Quoting(word, fields[0].value, Wire.Rest(fields, end))
  {
    JoinText("{", Spell(fields[0].key), fields[0].value, Wire.Rest(fields, end));
  }

  lemma {:induction false} TextWord(key: Key)
    ensures key == TraderIdKey ==> ",\"trader_id\":\"" == "," + "\"" + Spell(key) + "\":\""
    ensures key == OrderIdKey ==> ",\"order_id\":\"" == "," + "\"" + Spell(key) + "\":\""
  {
  }

  lemma {:induction false} ShortWord(key: Key)
    ensures key == SideKey ==> ",\"side\":\"" == "," + "\"" + Spell(key) + "\":\""
    ensures key == TypeKey ==> ",\"type\":\"" == "," + "\"" + Spell(key) + "\":\""
  {
  }

  lemma {:induction false} BareWord(key: Key)
    ensures key == PriceKey ==> ",\"price\":" == "," + "\"" + Spell(key) + "\":"
    ensures key == QtyKey ==> ",\"qty\":" == "," + "\"" + Spell(key) + "\":"
  {
  }

  lemma {:induction false} FirstWord(key: Key)
    ensures key == TraderIdKey ==> "{\"trader_id\":\"" == "{" + "\"" + Spell(key) + "\":\""
    ensures key == OrderIdKey ==> "{\"order_id\":\"" == "{" + "\"" + Spell(key) + "\":\""
  {
  }

  lemma {:induction false} Tails(f: seq<Field>)
    requires |f| == 6
    ensures f[1..][1..] == f[2..] && f[2..][1..] == f[3..] && f[3..][1..] == f[4..] && f[4..][1..] == f[5..]
  {
  }

  lemma {:induction false} Tail(f: seq<Field>, k: nat)
    requires k < |f|
    ensures f[k..][0] == f[k] && f[k..][1..] == f[k + 1..]
  {
  }

  lemma {:induction false} NextText(f: seq<Field>, k: nat, word: string, end: string)
    requires k + 1 < |f| && f[k + 1].Text? && word == "," + "\"" + Spell(f[k + 1].key) + "\":\""
    ensures Wire.Rest(f[k..], end) == Quoting(word, f[k + 1].value, Wire.Rest(f[k + 1..], end))
  {
    Tail(f, k);
    RestText(f[k..], word, end);
  }

  lemma {:induction false} NextBare(f: seq<Field>, k: nat, word: string, end: string)
    requires k + 1 < |f| && f[k + 1].Bare? && word == "," + "\"" + Spell(f[k + 1].key) + "\":"
    ensures Wire.Rest(f[k..], end) == Plainly(word, f[k + 1].value, Wire.Rest(f[k + 1..], end))
  {
    Tail(f, k);
    RestBare(f[k..], word, end);
  }

  /** The hub's line. */
  lemma {:induction false} HubFormat(o: WireOrder)
    ensures HubLine(o)
         == Quoting("{\"trader_id\":\"", Escape(o.traderId),
            Quoting(",\"order_id\":\"", Escape(o.orderId),
            Quoting(",\"side\":\"", Escape(o.side),
            Quoting(",\"type\":\"", Escape(if o.kind == "" then "LIMIT" else o.kind),
            Plainly(",\"price\":", o.price.Print(),
            Plainly(",\"qty\":", o.qty.Print(), "}" + ""))))))
  {
    HubFormatOf(HubFields(TextsOf(o)));
  }

  lemma {:induction false} HubFormatOf(f: seq<Field>)
    requires |f| == 6 && f[0].Text? && f[1].Text? && f[2].Text? && f[3].Text? && f[4].Bare? && f[5].Bare?
    requires f[0].key == TraderIdKey && f[1].key == OrderIdKey && f[2].key == SideKey && f[3].key == TypeKey
    requires f[4].key == PriceKey && f[5].key == QtyKey
    ensures Line(f, "")
         == Quoting("{\"trader_id\":\"", f[0].value,
            Quoting(",\"order_id\":\"", f[1].value,
            Quoting(",\"side\":\"", f[2].value,
            Quoting(",\"type\":\"", f[3].value,
            Plainly(",\"price\":", f[4].value,
            Plainly(",\"qty\":", f[5].value, "}" + ""))))))
  {
    Tails(f);
    FirstWord(TraderIdKey);
    LineText(f, "{\"trader_id\":\"", "");
    TextWord(OrderIdKey);
    RestText(f, ",\"order_id\":\"", "");
    ShortWord(SideKey);
    RestText(f[1..], ",\"side\":\"", "");
    ShortWord(TypeKey);
    RestText(f[2..], ",\"type\":\"", "");
    BareWord(PriceKey);
    RestBare(f[3..], ",\"price\":", "");
    BareWord(QtyKey);
    RestBare(f[4..], ",\"qty\":", "");
  }

  /** The relay's line. */
  lemma {:induction false} RelayFormat(o: WireOrder)
    ensures RelayLine(o)
         == Quoting("{\"order_id\":\"", Escape(o.orderId),
            Plainly(",\"price\":", o.price.Print(),
            Plainly(",\"qty\":", o.qty.Print(),
            Quoting(",\"side\":\"", Escape(o.side),
            Quoting(",\"trader_id\":\"", Escape(o.traderId),
            Quoting(",\"type\":\"", Escape(if o.kind == "" then "LIMIT" else o.kind), "}" + ""))))))
  {
    RelayFormatOf(RelayFields(TextsOf(o)));
  }

  lemma {:induction false} RelayFormatOf(f: seq<Field>)
    requires |f| == 6 && f[0].Text? && f[1].Bare? && f[2].Bare? && f[3].Text? && f[4].Text? && f[5].Text?
    requires f[0].key == OrderIdKey && f[1].key == PriceKey && f[2].key == QtyKey
    requires f[3].key == SideKey && f[4].key == TraderIdKey && f[5].key == TypeKey
    ensures Line(f, "")
         == Quoting("{\"order_id\":\"", f[0].value,
            Plainly(",\"price\":", f[1].value,
            Plainly(",\"qty\":", f[2].value,
            Quoting(",\"side\":\"", f[3].value,
            Quoting(",\"trader_id\":\"", f[4].value,
            Quoting(",\"type\":\"", f[5].value, "}" + ""))))))
  {
    Tails(f);
    FirstWord(OrderIdKey);
    LineText(f, "{\"order_id\":\"", "");
    BareWord(PriceKey);
    RestBare(f, ",\"price\":", "");
    BareWord(QtyKey);
    RestBare(f[1..], ",\"qty\":", "");
    ShortWord(SideKey);
    RestText(f[2..], ",\"side\":\"", "");
    TextWord(TraderIdKey);
    RestText(f[3..], ",\"trader_id\":\"", "");
    ShortWord(TypeKey);
    RestText(f[4..], ",\"type\":\"", "");
  }

  // ---------------------------------------------------------------- events

  lemma {:induction false} EventWord(key: Key)
    ensures key == TypeKey ==> "{\"type\":\"" == "{" + "\"" + Spell(key) + "\":\""
    ensures key == ReasonKey ==> ",\"reason\":\"" == "," + "\"" + Spell(key) + "\":\""
    ensures key == TsKey ==> ",\"ts\":" == "," + "\"" + Spell(key) + "\":"
  {
  }

  /** The line of a fill. */
  lemma {:induction false} FillFormat(e: Event, x: Lexemes)
    requires e.FillEvent?
    ensures EventLine(e, x)
         == Quoting("{\"type\":\"", "fill",
            Quoting(",\"trader_id\":\"", e.traderId,
            Quoting(",\"order_id\":\"", e.orderId,
            Quoting(",\"side\":\"", if e.fill.side == BUY then "BUY" else "SELL",
            Plainly(",\"price\":", x.price,
            Plainly(",\"qty\":", x.qty,
            Plainly(",\"ts\":", x.ts, "}" + "\n")))))))
  {
    FillFormatOf(EventFields(e, x));
  }

  lemma {:induction false} FillFormatOf(f: seq<Field>)
    requires |f| == 7 && f[0].Text? && f[1].Text? && f[2].Text? && f[3].Text? && f[4].Bare? && f[5].Bare? && f[6].Bare?
    requires f[0].key == TypeKey && f[1].key == TraderIdKey && f[2].key == OrderIdKey && f[3].key == SideKey
    requires f[4].key == PriceKey && f[5].key == QtyKey && f[6].key == TsKey
    ensures Line(f, "\n")
         == Quoting("{\"type\":\"", f[0].value,
            Quoting(",\"trader_id\":\"", f[1].value,
            Quoting(",\"order_id\":\"", f[2].value,
            Quoting(",\"side\":\"", f[3].value,
            Plainly(",\"price\":", f[4].value,
            Plainly(",\"qty\":", f[5].value,
            Plainly(",\"ts\":", f[6].value, "}" + "\n")))))))
  {
    IdFormat(f);
    ShortWord(SideKey);
    NextText(f, 2, ",\"side\":\"", "\n");
    BareWord(PriceKey);
    NextBare(f, 3, ",\"price\":", "\n");
    BareWord(QtyKey);
    NextBare(f, 4, ",\"qty\":", "\n");
    EventWord(TsKey);
    NextBare(f, 5, ",\"ts\":", "\n");
  }

  lemma {:induction false} IdFormat(f: seq<Field>)
    requires |f| > 3 && f[0].Text? && f[1].Text? && f[2].Text?
    requires f[0].key == TypeKey && f[1].key == TraderIdKey && f[2].key == OrderIdKey
    ensures Line(f, "\n")
         == Quoting("{\"type\":\"", f[0].value,
            Quoting(",\"trader_id\":\"", f[1].value,
            Quoting(",\"order_id\":\"", f[2].value, Wire.Rest(f[2..], "\n"))))
  {
    TypeFormat(f);
    NextIds(f);
  }

  lemma {:induction false} TypeFormat(f: seq<Field>)
    requires f != [] && f[0].Text? && f[0].key == TypeKey
    ensures Line(f, "\n") == Quoting("{\"type\":\"", f[0].value, Wire.Rest(f[0..], "\n"))
  {
    EventWord(TypeKey);
    LineText(f, "{\"type\":\"", "\n");
    assert f[0..] == f;
  }

  lemma {:induction false} NextIds(f: seq<Field>)
    requires |f| > 3 && f[1].Text? && f[2].Text? && f[1].key == TraderIdKey && f[2].key == OrderIdKey
    ensures Wire.Rest(f[0..], "\n")
         == Quoting(",\"trader_id\":\"", f[1].value,
            Quoting(",\"order_id\":\"", f[2].value, Wire.Rest(f[2..], "\n")))
  {
    TextWord(TraderIdKey);
    NextText(f, 0, ",\"trader_id\":\"", "\n");
    TextWord(OrderIdKey);
    NextText(f, 1, ",\"order_id\":\"", "\n");
  }

  /** The line of a reject. */
  lemma {:induction false} RejectFormat(e: Event, x: Lexemes)
    requires e.RejectEvent?
    ensures EventLine(e, x)
         == Quoting("{\"type\":\"", "reject",
            Quoting(",\"trader_id\":\"", e.traderId,
            Quoting(",\"order_id\":\"", e.orderId,
            Quoting(",\"reason\":\"", if e.reason.InvalidQty? then "invalid_qty" else if e.reason.InvalidPrice? then "invalid_price" else "insufficient_liquidity",
            Plainly(",\"ts\":", x.ts, "}" + "\n")))))
  {
    RejectFormatOf(EventFields(e, x));
  }

  lemma {:induction false} RejectFormatOf(f: seq<Field>)
    requires |f| == 5 && f[0].Text? && f[1].Text? && f[2].Text? && f[3].Text? && f[4].Bare?
    requires f[0].key == TypeKey && f[1].key == TraderIdKey && f[2].key == OrderIdKey && f[3].key == ReasonKey && f[4].key == TsKey
    ensures Line(f, "\n")
         == Quoting("{\"type\":\"", f[0].value,
            Quoting(",\"trader_id\":\"", f[1].value,
            Quoting(",\"order_id\":\"", f[2].value,
            Quoting(",\"reason\":\"", f[3].value,
            Plainly(",\"ts\":", f[4].value, "}" + "\n")))))
  {
    IdFormat(f);
    EventWord(ReasonKey);
    NextText(f, 2, ",\"reason\":\"", "\n");
    EventWord(TsKey);
    NextBare(f, 3, ",\"ts\":", "\n");
  }
}
