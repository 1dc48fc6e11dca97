/** The wire format: flat one-line JSON objects, and substring search in them (src/Protocol.h,
    `bytes.Contains` in server/engine/runner.go). */
module Wire {
  import opened Types

  const QUOTE: string := "\""

  predicate QuoteFree(s: string) { '\"' !in s }

  // ---------------------------------------------------------------- substring search

  predicate StartsWith(s: string, pat: string) { |pat| <= |s| && s[..|pat|] == pat }

  /** What follows the first occurrence of pat (`find` and then `pos + needle.size()`). */
  function After(s: string, pat: string): Option<string> {
    if StartsWith(s, pat) then Some(s[|pat|..])
    else if s == "" then None
    else After(s[1..], pat)
  }

  /** What precedes the first quote. */
  function BeforeQuote(s: string): Option<string> {
    if s == "" then None
    else if s[0] == '\"' then Some("")
    else
      match BeforeQuote(s[1..])
      case None => None
      case Some(t) => Some([s[0]] + t)
  }

  lemma {:induction false} BeforeQuoteFree(s: string)
    ensures BeforeQuote(s).Some? ==> QuoteFree(BeforeQuote(s).value)
  {
    if s != "" && s[0] != '\"' { BeforeQuoteFree(s[1..]); }
  }

  // ---------------------------------------------------------------- lines

  datatype Key =
    | TraderIdKey | OrderIdKey | SideKey | TypeKey | PriceKey | QtyKey | ReasonKey | TsKey
    | TickKey | BidKey | AskKey | SpreadKey | BidDepthKey | AskDepthKey
    | PositionsKey | NetQtyKey | UnrealisedKey | RealisedKey

  function Spell(k: Key): string {
    match k
    case TraderIdKey => "trader_id"
    case OrderIdKey => "order_id"
    case SideKey => "side"
    case TypeKey => "type"
    case PriceKey => "price"
    case QtyKey => "qty"
    case ReasonKey => "reason"
    case TsKey => "ts"
    case TickKey => "tick"
    case BidKey => "bid"
    case AskKey => "ask"
    case SpreadKey => "spread"
    case BidDepthKey => "bid_depth"
    case AskDepthKey => "ask_depth"
    case PositionsKey => "positions"
    case NetQtyKey => "net_qty"
    case UnrealisedKey => "unrealised_pnl"
    case RealisedKey => "realised_pnl"
  }

  /** A quoted value or a bare lexeme. */
  datatype Field = Text(key: Key, value: string) | Bare(key: Key, value: string)

  /** The value as printed, followed by r. */
  function Shown(f: Field, r: string): string {
    if f.Text? then QUOTE + (f.value + (QUOTE + r)) else f.value + r
  }

  /** The quoted key, a colon and the value, followed by r. */
  function Show(f: Field, r: string): string { QUOTE + (Spell(f.key) + (QUOTE + (":" + Shown(f, r)))) }

  /** What follows field 0. */
  function Rest(fields: seq<Field>, end: string): string
    decreases |fields|, 0
  {
    if |fields| <= 1 then "}" + end else "," + Body(fields[1..], end)
  }

  /** The fields after the opening brace, and whatever follows the closing one. */
  function Body(fields: seq<Field>, end: string): string
    decreases |fields|, 1
  {
    if fields == [] then "}" + end else Show(fields[0], Rest(fields, end))
  }

  function Line(fields: seq<Field>, end: string): string { "{" + Body(fields, end) }

  /** Every quote comes right after a backslash; prev is what comes before s. */
  predicate Guarded(s: string, prev: char) {
    s == "" || ((s[0] == '\"' ==> prev == '\\') && Guarded(s[1..], s[0]))
  }

  /** A value as a JSON encoder may print it: quotes only in text, and escaped. */
  predicate Tame(f: Field) { if f.Text? then Guarded(f.value, '\"') else QuoteFree(f.value) }

  predicate AllTame(fields: seq<Field>) { forall i :: 0 <= i < |fields| ==> Tame(fields[i]) }

  predicate Clean(fields: seq<Field>) { forall i :: 0 <= i < |fields| ==> QuoteFree(fields[i].value) }

  // ---------------------------------------------------------------- the quote argument

  /** The needle for a key: its quoted spelling, then a colon and perhaps more. */
  function Needle(key: Key, more: string): string { QUOTE + (Spell(key) + (QUOTE + (":" + more))) }

  /** A quote followed by anything else cannot be the opening quote of a key. */
  predicate Starter(c: char) { c != '\"' && c != ',' && c != '}' && c != ':' }

  lemma {:induction false} SpellGood(k: Key)
    ensures QuoteFree(Spell(k)) && '\\' !in Spell(k) && Spell(k) != "" && Starter(Spell(k)[0])
  {
  }

  lemma {:induction false} SpellInjective(j: Key, k: Key)
    requires Spell(j) == Spell(k)
    ensures j == k
  {
  }

  /** Two quote-free words that agree through the next quote are the same word. */
  lemma {:induction false} QuoteAlign(t: string, u: string, key: string, v: string)
    requires QuoteFree(t) && QuoteFree(key)
    ensures StartsWith(t + (QUOTE + u), key + (QUOTE + v)) <==> t == key && StartsWith(u, v)
  {
    var a, b := t + (QUOTE + u), key + (QUOTE + v);
    if t == "" || key == "" {
      if t == key {
        assert a[1..] == u && b[1..] == v;
        Shift(a, b);
      } else {
        assert a[0] != b[0];
        Shift(a, b);
      }
    } else {
      assert a[1..] == t[1..] + (QUOTE + u) && b[1..] == key[1..] + (QUOTE + v);
      QuoteAlign(t[1..], u, key[1..], v);
      Shift(a, b);
      assert t == [t[0]] + t[1..] && key == [key[0]] + key[1..];
    }
  }

  lemma {:induction false} Shift(a: string, b: string)
    requires a != "" && b != ""
    ensures StartsWith(a, b) <==> a[0] == b[0] && StartsWith(a[1..], b[1..])
  {
  }

  lemma {:induction false} SkipWord(w: string, r: string, pat: string)
    requires QuoteFree(w) && pat != "" && pat[0] == '\"'
    ensures After(w + r, pat) == After(r, pat)
  {
    if w == "" {
      assert w + r == r;
    } else {
      SkipWord(w[1..], r, pat);
      assert (w + r)[1..] == w[1..] + r;
      Shift(w + r, pat);
    }
  }

  lemma {:induction false} SkipQuote(r: string, pat: string)
    requires pat != "" && !StartsWith(QUOTE + r, pat)
    ensures After(QUOTE + r, pat) == After(r, pat)
  {
  }

  /** Quoted text is the needle's key exactly when it is that word and a colon goes on. */
  lemma {:induction false} KeyQuote(word: string, u: string, key: Key, more: string)
    requires QuoteFree(word)
    ensures StartsWith(QUOTE + (word + (QUOTE + u)), Needle(key, more))
       <==> word == Spell(key) && StartsWith(u, ":" + more)
  {
    var a, b := QUOTE + (word + (QUOTE + u)), Needle(key, more);
    SpellGood(key);
    assert a[1..] == word + (QUOTE + u) && b[1..] == Spell(key) + (QUOTE + (":" + more));
    Shift(a, b);
    QuoteAlign(word, u, Spell(key), ":" + more);
  }

  /** Guarded text up to its closing quote is no key with its colon. */
  lemma {:induction false} NoKey(prev: char, u: string, word: string, r: string, more: string)
    requires Guarded(u, prev) && prev != '\\' && QuoteFree(word) && '\\' !in word && Delimited(r)
    ensures !StartsWith(u + (QUOTE + r), word + (QUOTE + (":" + more)))
    decreases |u|
  {
    var a, b := u + (QUOTE + r), word + (QUOTE + (":" + more));
    Shift(a, b);
    if word == "" {
      assert b[1..] == ":" + more;
      if u == "" {
        assert a[1..] == r;
        Shift(r, ":" + more);
      }
    } else if u != "" && u[0] == word[0] {
      NoKey(u[0], u[1..], word[1..], r, more);
      assert a[1..] == u[1..] + (QUOTE + r) && b[1..] == word[1..] + (QUOTE + (":" + more));
    }
  }

  /** So a quote in or before such text does not start the needle. */
  lemma {:induction false} NoNeedle(u: string, r: string, key: Key, more: string)
    requires Guarded(u, '\"') && Delimited(r)
    ensures !StartsWith(QUOTE + (u + (QUOTE + r)), Needle(key, more))
  {
    var a, b := QUOTE + (u + (QUOTE + r)), Needle(key, more);
    SpellGood(key);
    NoKey('\"', u, Spell(key), r, more);
    assert a[1..] == u + (QUOTE + r) && b[1..] == Spell(key) + (QUOTE + (":" + more));
    Shift(a, b);
  }

  /** The search passes over guarded text. */
  lemma {:induction false} SkipGuarded(u: string, prev: char, r: string, key: Key, more: string)
    requires Guarded(u, prev) && Delimited(r)
    ensures After(u + (QUOTE + r), Needle(key, more)) == After(QUOTE + r, Needle(key, more))
  {
    var pat, a := Needle(key, more), u + (QUOTE + r);
    if u == "" {
      assert a == QUOTE + r;
    } else {
      SkipGuarded(u[1..], u[0], r, key, more);
      assert a[1..] == u[1..] + (QUOTE + r);
      if u[0] == '\"' {
        NoNeedle(u[1..], r, key, more);
        assert a == QUOTE + (u[1..] + (QUOTE + r));
      } else {
        Shift(a, pat);
      }
    }
  }

  lemma {:induction false} QuoteFreeGuarded(s: string, prev: char)
    requires QuoteFree(s)
    ensures Guarded(s, prev)
  {
    if s != "" { QuoteFreeGuarded(s[1..], s[0]); }
  }

  lemma {:induction false} ColonMore(u: string, more: string)
    ensures StartsWith(":" + u, ":" + more) <==> StartsWith(u, more)
  {
    assert (":" + u)[1..] == u && (":" + more)[1..] == more;
    Shift(":" + u, ":" + more);
  }

  lemma {:induction false} ClosingQuote(u: string, key: Key, more: string)
    requires u != "" && !Starter(u[0])
    ensures !StartsWith(QUOTE + u, Needle(key, more))
  {
    var a, b := QUOTE + u, Needle(key, more);
    SpellGood(key);
    assert a[1..] == u && b[1..] == Spell(key) + (QUOTE + (":" + more));
    Shift(a, b);
    Shift(u, b[1..]);
  }

  predicate Delimited(r: string) { r != "" && (r[0] == ',' || r[0] == '}') }

  /** The search passes over a shown value. */
  lemma {:induction false} SkipShown(f: Field, r: string, key: Key, more: string)
    requires Tame(f) && Delimited(r)
    ensures After(Shown(f, r), Needle(key, more)) == After(r, Needle(key, more))
  {
    var pat := Needle(key, more);
    if f.Text? {
      NoNeedle(f.value, r, key, more);
      SkipQuote(f.value + (QUOTE + r), pat);
      SkipGuarded(f.value, '\"', r, key, more);
      ClosingQuote(r, key, more);
      SkipQuote(r, pat);
    } else {
      SkipWord(f.value, r, pat);
    }
  }

  /** The search passes over a field that is not the one sought, whatever its value spells. */
  lemma {:induction false} SkipField(f: Field, r: string, key: Key, more: string)
    requires Tame(f) && Delimited(r)
    requires f.key == key ==> !StartsWith(Shown(f, r), more)
    ensures After(Show(f, r), Needle(key, more)) == After(r, Needle(key, more))
  {
    var pat, word, sh := Needle(key, more), Spell(f.key), Shown(f, r);
    SpellGood(f.key);
    KeyQuote(word, ":" + sh, key, more);
    ColonMore(sh, more);
    if word == Spell(key) { SpellInjective(f.key, key); }
    SkipQuote(word + (QUOTE + (":" + sh)), pat);
    SkipWord(word, QUOTE + (":" + sh), pat);
    ClosingQuote(":" + sh, key, more);
    SkipQuote(":" + sh, pat);
    SkipWord(":", sh, pat);
    SkipShown(f, r, key, more);
  }

  lemma {:induction false} DropKey(word: string, sh: string)
    ensures (QUOTE + (word + (QUOTE + (":" + sh))))[|word| + 3..] == sh
  {
  }

  /** The search stops at the field that is sought. */
  lemma {:induction false} HitField(f: Field, r: string, more: string)
    requires StartsWith(Shown(f, r), more)
    ensures After(Show(f, r), Needle(f.key, more)) == Some(Shown(f, r)[|more|..])
  {
    var sh, word := Shown(f, r), Spell(f.key);
    SpellGood(f.key);
    KeyQuote(word, ":" + sh, f.key, more);
    ColonMore(sh, more);
    DropKey(word, sh);
    assert Show(f, r)[|word| + 3..][|more|..] == Show(f, r)[|word| + 3 + |more|..];
  }

  lemma {:induction false} RestDelimited(fields: seq<Field>, end: string)
    ensures Delimited(Rest(fields, end))
  {
  }

  /** No earlier field has the key of field i. */
  predicate First(fields: seq<Field>, i: nat) {
    i < |fields| && forall j :: 0 <= j < i ==> fields[j].key != fields[i].key
  }

  lemma {:induction false} TailFirst(fields: seq<Field>, i: nat)
    requires AllTame(fields) && First(fields, i) && i > 0
    ensures AllTame(fields[1..]) && First(fields[1..], i - 1) && fields[1..][i - 1] == fields[i]
    ensures fields[0].key != fields[i].key
  {
  }

  lemma {:induction false} FoundFirst(fields: seq<Field>, end: string, more: string)
    requires fields != [] && (more == "" || (more == QUOTE && fields[0].Text?))
    ensures After(Body(fields, end), Needle(fields[0].key, more)) == Some(Shown(fields[0], Rest(fields, end))[|more|..])
  {
    assert StartsWith(Shown(fields[0], Rest(fields, end)), more);
    HitField(fields[0], Rest(fields, end), more);
  }

  lemma {:induction false} SkipFirst(fields: seq<Field>, end: string, key: Key, more: string)
    requires |fields| >= 2 && Tame(fields[0]) && fields[0].key != key
    ensures After(Body(fields, end), Needle(key, more)) == After(Body(fields[1..], end), Needle(key, more))
  {
    RestDelimited(fields, end);
    SkipField(fields[0], Rest(fields, end), key, more);
    SkipWord(",", Body(fields[1..], end), Needle(key, more));
  }

  /** Searching a whole body for the first field with a key lands on it. */
  lemma {:induction false} FindField(fields: seq<Field>, i: nat, end: string, more: string) returns (r: string)
    requires AllTame(fields) && First(fields, i)
    requires more == "" || (more == QUOTE && fields[i].Text?)
    ensures Delimited(r)
    ensures After(Body(fields, end), Needle(fields[i].key, more)) == Some(Shown(fields[i], r)[|more|..])
    decreases i
  {
    if i == 0 {
      r := Rest(fields, end);
      RestDelimited(fields, end);
      FoundFirst(fields, end, more);
    } else {
      TailFirst(fields, i);
      r := FindField(fields[1..], i - 1, end, more);
      SkipFirst(fields, end, fields[i].key, more);
    }
  }

  /** Searching for a quoted value no field with that key has finds nothing. */
  lemma {:induction false} FindNothing(fields: seq<Field>, key: Key, word: string, end: string)
    requires Clean(fields) && QuoteFree(word) && QuoteFree(end)
    requires forall j :: 0 <= j < |fields| && fields[j].key == key ==> fields[j].Text? && fields[j].value != word
    ensures After(Body(fields, end), Needle(key, Quoted(word))) == None
  {
    var pat := Needle(key, Quoted(word));
    if |fields| > 0 {
      var f, r := fields[0], Rest(fields, end);
      RestDelimited(fields, end);
      if f.key == key { OtherWord(f.value, r, word); }
      QuoteFreeGuarded(f.value, '\"');
      SkipField(f, r, key, Quoted(word));
      if |fields| > 1 {
        SkipWord(",", Body(fields[1..], end), pat);
        FindNothing(fields[1..], key, word, end);
      }
    }
    if |fields| <= 1 {
      SkipWord("}" + end, "", pat);
      assert "}" + end + "" == "}" + end;
    }
  }

  function Quoted(word: string): string { QUOTE + (word + (QUOTE + "")) }

  lemma {:induction false} OtherWord(v: string, r: string, word: string)
    requires QuoteFree(v) && QuoteFree(word)
    ensures StartsWith(QUOTE + (v + (QUOTE + r)), Quoted(word)) <==> v == word
  {
    var a, b := QUOTE + (v + (QUOTE + r)), Quoted(word);
    assert a[1..] == v + (QUOTE + r) && b[1..] == word + (QUOTE + "");
    Shift(a, b);
    QuoteAlign(v, r, word, "");
  }
}
