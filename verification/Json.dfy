/** Go's `encoding/json` as the server uses it: how strings are written, and how a flat object is
    read back (RFC 8259). */
module Json {
  import opened Types
  import opened Numerals
  import opened Wire

  // ---------------------------------------------------------------- writing strings

  /** Characters the encoder copies as they are. */
  predicate Verbatim(c: char) {
    c >= ' ' && c != '\"' && c != '\\' && c != '<' && c != '>' && c != '&' && c != '\U{2028}' && c != '\U{2029}'
  }

  lemma {:induction false} VerbatimIs(c: char)
    ensures Verbatim(c) <==> ' ' <= c && c !in "\"\\<>&\U{2028}\U{2029}"
  {
  }

  function HexDigit(n: nat): char
    requires n < 16
  {
    "0123456789abcdef"[n]
  }

  /** `\u` and four hexadecimal digits. */
  function HexEscape(n: nat): string {
    "\\u" + Hex(n)
  }

  /** The last four hexadecimal digits of a number. */
  function Hex(n: nat): string {
    [HexDigit(n / 16 / 16 / 16 % 16), HexDigit(n / 16 / 16 % 16), HexDigit(n / 16 % 16), HexDigit(n % 16)]
  }

  /** One character inside a JSON string, as `encoding/json` writes it (section 7 of RFC 8259). */
  function EscapeChar(c: char): string {
    if Verbatim(c) then [c]
    else if c == '\"' || c == '\\' then ['\\', c]
    else if c == '\n' then "\\n"
    else if c == '\r' then "\\r"
    else if c == '\t' then "\\t"
    else HexEscape(c as int)
  }

  function Escape(s: string): string {
    if s == "" then "" else EscapeChar(s[0]) + Escape(s[1..])
  }

  predicate AllVerbatim(s: string) { forall i :: 0 <= i < |s| ==> Verbatim(s[i]) }

  lemma {:induction false} HexEscapeShape(n: nat)
    ensures QuoteFree(HexEscape(n)) && |HexEscape(n)| == 6 && HexEscape(n)[0] == '\\'
  {
    HexDigitBack(n / 16 / 16 / 16 % 16);
    HexDigitBack(n / 16 / 16 % 16);
    HexDigitBack(n / 16 % 16);
    HexDigitBack(n % 16);
  }

  lemma {:induction false} EscapeCharShape(c: char)
    ensures EscapeChar(c) != "" && (c != '\"' ==> QuoteFree(EscapeChar(c)))
    ensures !Verbatim(c) ==> |EscapeChar(c)| >= 2 && EscapeChar(c)[0] == '\\'
  {
    HexEscapeShape(c as int);
  }

  lemma {:induction false} EscapeGrows(s: string)
    ensures |Escape(s)| >= |s|
  {
    if s != "" {
      EscapeGrows(s[1..]);
      EscapeCharShape(s[0]);
    }
  }

  /** Escaping leaves a string alone exactly when every character is one it copies. */
  lemma {:induction false} EscapeFixed(s: string)
    ensures Escape(s) == s <==> AllVerbatim(s)
  {
    if s != "" {
      EscapeFixed(s[1..]);
      EscapeGrows(s[1..]);
      EscapeCharShape(s[0]);
      assert s == [s[0]] + s[1..];
      if Verbatim(s[0]) {
        assert Escape(s)[1..] == Escape(s[1..]);
        assert AllVerbatim(s) <==> AllVerbatim(s[1..]);
      } else {
        assert |Escape(s)| > |s|;
      }
    }
  }

  lemma {:induction false} GuardedWord(w: string, t: string, prev: char)
    requires QuoteFree(w) && w != "" && Guarded(t, w[|w| - 1])
    ensures Guarded(w + t, prev)
  {
    assert (w + t)[1..] == w[1..] + t;
    if |w| == 1 {
      assert w[1..] + t == t;
    } else {
      GuardedWord(w[1..], t, w[0]);
    }
  }

  lemma {:induction false} GuardedQuote(t: string, prev: char)
    requires Guarded(t, '\"')
    ensures Guarded("\\\"" + t, prev)
  {
    assert ("\\\"" + t)[1..] == QUOTE + t && (QUOTE + t)[1..] == t;
  }

  /** In an escaped string every quote follows a backslash. */
  lemma {:induction false} EscapeGuarded(s: string, prev: char)
    ensures Guarded(Escape(s), prev)
  {
    if s != "" {
      var w := EscapeChar(s[0]);
      EscapeCharShape(s[0]);
      EscapeGuarded(s[1..], w[|w| - 1]);
      if s[0] == '\"' {
        GuardedQuote(Escape(s[1..]), prev);
      } else {
        GuardedWord(w, Escape(s[1..]), prev);
      }
    }
  }

  // ---------------------------------------------------------------- reading strings

  predicate IsHex(c: char) { '0' <= c <= '9' || 'a' <= c <= 'f' || 'A' <= c <= 'F' }

  function HexValue(c: char): (n: nat)
    requires IsHex(c)
    ensures n < 16
  {
    if c <= '9' then (c - '0') as nat else if c <= 'F' then (c - 'A') as nat + 10 else (c - 'a') as nat + 10
  }

  /** Four hexadecimal digits at the front. */
  function Hex4(s: string): (r: Option<nat>)
    ensures r.Some? ==> |s| >= 4 && r.value < 0x10000
  {
    if |s| >= 4 && IsHex(s[0]) && IsHex(s[1]) && IsHex(s[2]) && IsHex(s[3])
    then Some(4096 * HexValue(s[0]) + 256 * HexValue(s[1]) + 16 * HexValue(s[2]) + HexValue(s[3]))
    else None
  }

  predicate Surrogate(n: nat) { 0xD800 <= n < 0xE000 }

  /** The character of a `\u` escape, given what follows `\u`, and how much it takes up: surrogate
      pairs are joined, and a lone half becomes the replacement character. */
  function HexChar(n: nat, rest: string): (r: (char, nat))
    requires n < 0x10000 && |rest| >= 4
    ensures r.1 <= |rest|
  {
    if !Surrogate(n) then (n as char, 4)
    else
      var low := if StartsWith(rest[4..], "\\u") then Hex4(rest[6..]) else None;
      if n < 0xDC00 && low.Some? && 0xDC00 <= low.value < 0xE000
      then ((0x10000 + (n - 0xD800) * 0x400 + (low.value - 0xDC00)) as char, 10)
      else ('\U{FFFD}', 4)
  }

  function Prefixed(s: string, r: Option<(string, string)>): Option<(string, string)> {
    if r.None? then None else Some((s + r.value.0, r.value.1))
  }

  /** A string after its opening quote, up to its closing one, and what follows; None where the
      grammar is broken. */
  function ReadString(s: string): (r: Option<(string, string)>)
    ensures r.Some? ==> |r.value.1| < |s|
    decreases |s|, 0
  {
    if s == "" || s[0] < ' ' then None
    else if s[0] == '\"' then Some(("", s[1..]))
    else if s[0] == '\\' then ReadEscape(s[1..])
    else Then(s[0], s[1..])
  }

  /** The rest of a string of which one character has been read. */
  function Then(c: char, s: string): (r: Option<(string, string)>)
    ensures r.Some? ==> |r.value.1| < |s|
    decreases |s|, 1
  {
    Prefixed([c], ReadString(s))
  }

  /** The rest of a string after a backslash. */
  function ReadEscape(s: string): (r: Option<(string, string)>)
    ensures r.Some? ==> |r.value.1| < |s|
    decreases |s|, 0
  {
    if s == "" then None
    else
      match s[0]
      case '\"' => Then('\"', s[1..])
      case '\\' => Then('\\', s[1..])
      case '/' => Then('/', s[1..])
      case 'b' => Then(0x8 as char, s[1..])
      case 'f' => Then(0xC as char, s[1..])
      case 'n' => Then('\n', s[1..])
      case 'r' => Then('\r', s[1..])
      case 't' => Then('\t', s[1..])
      case 'u' =>
        (match Hex4(s[1..])
         case None => None
         case Some(n) =>
           var (c, k) := HexChar(n, s[1..]);
           Then(c, s[1..][k..]))
      case _ => None
  }

  lemma {:induction false} HexBack(n: nat, r: string)
    requires n < 0x10000
    ensures Hex4(Hex(n) + r) == Some(n)
  {
    HexDigitBack(n / 16 / 16 / 16 % 16);
    HexDigitBack(n / 16 / 16 % 16);
    HexDigitBack(n / 16 % 16);
    HexDigitBack(n % 16);
    Places16(n);
  }

  lemma {:induction false} HexDigitBack(n: nat)
    requires n < 16
    ensures IsHex(HexDigit(n)) && HexValue(HexDigit(n)) == n
  {
  }

  lemma {:induction false} Places16(n: nat)
    requires n < 0x10000
    ensures 4096 * (n / 16 / 16 / 16 % 16) + 256 * (n / 16 / 16 % 16) + 16 * (n / 16 % 16) + n % 16 == n
  {
    var a := n / 16;
    var b := a / 16;
    assert n == 16 * a + n % 16 && a == 16 * b + a % 16;
  }

  lemma {:induction false} HexEscapeBack(c: char, r: string)
    requires c as int < 0x10000 && !Surrogate(c as int)
    ensures ReadEscape("u" + (Hex(c as int) + r)) == Then(c, r)
  {
    var n := c as int;
    var s := "u" + (Hex(n) + r);
    HexBack(n, r);
    assert s[1..] == Hex(n) + r && (Hex(n) + r)[4..] == r;
  }

  lemma {:induction false} ShortEscapeBack(c: char, d: char, r: string)
    requires ((c == '\"' || c == '\\') && d == c) || (c == '\n' && d == 'n') || (c == '\r' && d == 'r') || (c == '\t' && d == 't')
    ensures ReadEscape([d] + r) == Then(c, r)
  {
    assert ([d] + r)[1..] == r;
  }

  /** A character beyond the first 65536 is read from its two halves. */
  lemma {:induction false} PairBack(c: char, r: string)
    requires 0x10000 <= c as int
    ensures var n := c as int - 0x10000;
            ReadEscape("u" + (Hex(0xD800 + n / 0x400) + ("\\u" + (Hex(0xDC00 + n % 0x400) + r)))) == Then(c, r)
  {
    var n := c as int - 0x10000;
    var high, low := 0xD800 + n / 0x400, 0xDC00 + n % 0x400;
    var tail := "\\u" + (Hex(low) + r);
    HexBack(high, tail);
    HexBack(low, r);
    HalvesApart(Hex(high), Hex(low), r);
    PairChar(high, low, Hex(high) + tail, c);
    assert ("u" + (Hex(high) + tail))[1..] == Hex(high) + tail;
  }

  lemma {:induction false} HalvesApart(a: string, b: string, r: string)
    requires |a| == 4 && |b| == 4
    ensures var rest := a + ("\\u" + (b + r));
            |rest| >= 10 && StartsWith(rest[4..], "\\u") && rest[6..] == b + r && rest[10..] == r
  {
    var rest := a + ("\\u" + (b + r));
    assert rest[4..] == "\\u" + (b + r);
  }

  lemma {:induction false} PairChar(high: nat, low: nat, rest: string, c: char)
    requires 0xD800 <= high < 0xDC00 <= low < 0xE000 && |rest| >= 10
    requires StartsWith(rest[4..], "\\u") && Hex4(rest[6..]) == Some(low)
    requires c as int == 0x10000 + (high - 0xD800) * 0x400 + (low - 0xDC00)
    ensures HexChar(high, rest) == (c, 10)
  {
  }

  lemma {:induction false} ReadBackslash(e: string)
    ensures ReadString("\\" + e) == ReadEscape(e)
  {
    assert ("\\" + e)[1..] == e;
  }

  lemma {:induction false} ReadVerbatim(c: char, r: string)
    requires Verbatim(c)
    ensures ReadString([c] + r) == Then(c, r)
  {
    assert ([c] + r)[1..] == r;
  }

  lemma {:induction false} ReadCharBack(c: char, r: string)
    ensures ReadString(EscapeChar(c) + r) == Then(c, r)
  {
    if Verbatim(c) {
      ReadVerbatim(c, r);
    } else {
      var e := EscapeChar(c)[1..] + r;
      assert EscapeChar(c) + r == "\\" + e;
      ReadBackslash(e);
      EscapeTailBack(c, r);
    }
  }

  lemma {:induction false} EscapeTailBack(c: char, r: string)
    requires !Verbatim(c)
    ensures ReadEscape(EscapeChar(c)[1..] + r) == Then(c, r)
  {
    var e := EscapeChar(c)[1..] + r;
    if c == '\"' || c == '\\' || c == '\n' || c == '\r' || c == '\t' {
      assert e == [EscapeChar(c)[1]] + r;
      ShortEscapeBack(c, EscapeChar(c)[1], r);
    } else {
      assert e == "u" + (Hex(c as int) + r);
      HexEscapeBack(c, r);
    }
  }

  lemma {:induction false} PrefixedTwice(a: string, b: string, r: Option<(string, string)>)
    ensures Prefixed(a, Prefixed(b, r)) == Prefixed(a + b, r)
  {
    if r.Some? { assert a + (b + r.value.0) == a + b + r.value.0; }
  }

  lemma {:induction false} PrefixedNone(r: Option<(string, string)>)
    ensures Prefixed("", r) == r
  {
    if r.Some? { assert "" + r.value.0 == r.value.0; }
  }

  lemma {:induction false} ReadOneMore(c: char, w: string, e: string, s: string, t: string)
    requires ReadString(w + (e + t)) == Then(c, e + t) && ReadString(e + t) == Prefixed(s, ReadString(t))
    ensures ReadString(w + e + t) == Prefixed([c] + s, ReadString(t))
  {
    PrefixedTwice([c], s, ReadString(t));
    assert w + e + t == w + (e + t);
  }

  /** Reading undoes writing, for every string, and goes on with what follows. */
  lemma {:induction false} ReadEscaped(s: string, t: string)
    ensures ReadString(Escape(s) + t) == Prefixed(s, ReadString(t))
  {
    if s == "" {
      PrefixedNone(ReadString(t));
      assert Escape(s) + t == t;
    } else {
      ReadEscaped(s[1..], t);
      ReadCharBack(s[0], Escape(s[1..]) + t);
      ReadOneMore(s[0], EscapeChar(s[0]), Escape(s[1..]), s[1..], t);
      assert [s[0]] + s[1..] == s;
    }
  }

  /** The round trip of the string grammar. */
  lemma {:induction false} StringBack(s: string, r: string)
    ensures ReadString(Escape(s) + (QUOTE + r)) == Some((s, r))
  {
    ReadEscaped(s, QUOTE + r);
    assert (QUOTE + r)[1..] == r && s + "" == s;
  }

  // ---------------------------------------------------------------- reading objects

  /** A string, or any other value: only strings are looked at. */
  datatype Value = Str(text: string) | Other

  datatype Member = Member(key: string, value: Value)

  predicate JsonSpace(c: char) { c == ' ' || c == '\t' || c == '\n' || c == '\r' }

  function Trim(s: string): (r: string)
    ensures |r| <= |s|
  {
    if s != "" && JsonSpace(s[0]) then Trim(s[1..]) else s
  }

  /** What follows a literal name or a number. */
  function WordRest(s: string): (r: Option<string>)
    ensures r.Some? ==> |r.value| < |s|
  {
    if StartsWith(s, "true") || StartsWith(s, "null") then Some(s[4..])
    else if StartsWith(s, "false") then Some(s[5..])
    else
      NumberRestShorter(s);
      NumberRest(s)
  }

  /** A value and what follows. */
  function ReadValue(s: string): (r: Option<(Value, string)>)
    ensures r.Some? ==> |r.value.1| < |s|
    decreases |s|, 2
  {
    if Head(s, '\"') then
      (match ReadString(s[1..])
       case None => None
       case Some((text, rest)) => Some((Str(text), rest)))
    else if Head(s, '{') then
      (match ReadMembers(Trim(s[1..]), true)
       case None => None
       case Some((_, rest)) => Some((Other, rest)))
    else if Head(s, '[') then
      (match ReadElements(Trim(s[1..]), true)
       case None => None
       case Some(rest) => Some((Other, rest)))
    else
      match WordRest(s)
      case None => None
      case Some(rest) => Some((Other, rest))
  }

  /** The elements of an array up to its bracket, and what follows; none only at the start. */
  function ReadElements(s: string, start: bool): (r: Option<string>)
    ensures r.Some? ==> |r.value| < |s|
    decreases |s|, 3
  {
    if start && Head(s, ']') then Some(s[1..])
    else
      match ReadValue(s)
      case None => None
      case Some((_, rest)) =>
        var t := Trim(rest);
        if Head(t, ']') then Some(t[1..])
        else if Head(t, ',') then ReadElements(Trim(t[1..]), false)
        else None
  }

  /** A quoted key, a colon and a value, and what follows. */
  function ReadMember(s: string): (r: Option<(Member, string)>)
    ensures r.Some? ==> |r.value.1| < |s|
    decreases |s|, 3
  {
    if !Head(s, '\"') then None
    else
      match ReadString(s[1..])
      case None => None
      case Some((key, rest)) =>
        var t := Trim(rest);
        if !Head(t, ':') then None
        else
          match ReadValue(Trim(t[1..]))
          case None => None
          case Some((v, after)) => Some((Member(key, v), after))
  }

  function Prepended(m: Member, r: Option<(seq<Member>, string)>): Option<(seq<Member>, string)> {
    if r.None? then None else Some(([m] + r.value.0, r.value.1))
  }

  /** The members of an object up to its brace, and what follows; none only at the start. */
  function ReadMembers(s: string, start: bool): (r: Option<(seq<Member>, string)>)
    ensures r.Some? ==> |r.value.1| < |s|
    decreases |s|, 4
  {
    if start && Head(s, '}') then Some(([], s[1..]))
    else
      match ReadMember(s)
      case None => None
      case Some((m, rest)) => Continue(m, Trim(rest))
  }

  function Continue(m: Member, t: string): (r: Option<(seq<Member>, string)>)
    ensures r.Some? ==> |r.value.1| < |t|
    decreases |t|, 5
  {
    if Head(t, '}') then Some(([m], t[1..]))
    else if Head(t, ',') then Prepended(m, ReadMembers(Trim(t[1..]), false))
    else None
  }

  /** An object alone on its line. */
  function ReadObject(line: string): Option<seq<Member>> {
    var s := Trim(line);
    if !Head(s, '{') then None
    else
      match ReadMembers(Trim(s[1..]), true)
      case None => None
      case Some((members, rest)) => if Trim(rest) == "" then Some(members) else None
  }

  /** The text of the last member with a key. */
  function Lookup(members: seq<Member>, key: Key): Option<string> {
    if members == [] then None
    else
      var later := Lookup(members[1..], key);
      if later.None? && members[0].key == Spell(key) && members[0].value.Str? then Some(members[0].value.text) else later
  }

  function OrEmpty(s: Option<string>): string { if s.Some? then s.value else "" }

  /** What the relay reads out of a line: the type and the trader; None if the line is not JSON. */
  function Header(line: string): Option<(string, string)> {
    match ReadObject(line)
    case None => None
    case Some(members) => Some((OrEmpty(Lookup(members, TypeKey)), OrEmpty(Lookup(members, TraderIdKey))))
  }

  // ---------------------------------------------------------------- reading undoes writing

  ghost predicate NumberText(l: string) {
    exists n: Numeral :: n.Valid() && NoLeadingZero(n.whole) && n.Print() == l
  }

  /** Read as one value up to whatever delimiter follows. */
  predicate ReadUpTo(l: string, r: string) {
    ReadValue(l + r) == Some((Other, r)) && Trim(l + r) == l + r
  }

  ghost predicate Readable(l: string) { forall r {:trigger ReadUpTo(l, r)} :: Delimited(r) ==> ReadUpTo(l, r) }

  /** The field is the member as printed. */
  ghost predicate Encodes(f: Field, m: Member) {
    && m.key == Spell(f.key)
    && match m.value
       case Str(v) => f.Text? && f.value == Escape(v)
       case Other => f.Bare? && Readable(f.value)
  }

  ghost predicate AllEncode(fields: seq<Field>, members: seq<Member>) {
    |fields| == |members| && (fields == [] || (Encodes(fields[0], members[0]) && AllEncode(fields[1..], members[1..])))
  }

  lemma {:induction false} EncodeCons(f: Field, m: Member, fields: seq<Field>, members: seq<Member>)
    requires Encodes(f, m) && AllEncode(fields, members)
    ensures AllEncode([f] + fields, [m] + members)
  {
    assert ([f] + fields)[1..] == fields && ([m] + members)[1..] == members;
  }

  lemma {:induction false} LookupCons(m: Member, members: seq<Member>, key: Key)
    ensures Lookup([m] + members, key)
         == if Lookup(members, key).None? && m.key == Spell(key) && m.value.Str? then Some(m.value.text) else Lookup(members, key)
  {
    assert ([m] + members)[1..] == members;
  }

  lemma {:induction false} SpellPlain(k: Key)
    ensures AllVerbatim(Spell(k)) && Spell(k) != "" && 'a' <= Spell(k)[0] <= 'z'
  {
    if k.UnrealisedKey? || k.RealisedKey? || k.PositionsKey? || k.NetQtyKey? || k.BidDepthKey? || k.AskDepthKey? {
      SpellPlainLong(k);
    }
  }

  lemma {:induction false} SpellPlainLong(k: Key)
    requires k.UnrealisedKey? || k.RealisedKey? || k.PositionsKey? || k.NetQtyKey? || k.BidDepthKey? || k.AskDepthKey?
    ensures AllVerbatim(Spell(k)) && Spell(k) != "" && 'a' <= Spell(k)[0] <= 'z'
  {
  }

  lemma {:induction false} KeyBack(k: Key, r: string)
    ensures ReadString(Spell(k) + (QUOTE + r)) == Some((Spell(k), r))
  {
    SpellPlain(k);
    EscapeFixed(Spell(k));
    StringBack(Spell(k), r);
  }

  lemma {:induction false} ReadNumber(s: string, r: string)
    requires s != "" && (s[0] == '-' || Digit(s[0])) && NumberRest(s) == Some(r)
    ensures ReadValue(s) == Some((Other, r)) && Trim(s) == s
  {
    NoName(s, "true");
    NoName(s, "null");
    NoName(s, "false");
  }

  lemma {:induction false} NoName(s: string, name: string)
    requires s != "" && name != "" && s[0] != name[0]
    ensures !StartsWith(s, name)
  {
    Shift(s, name);
  }

  /** Every number can be read back. */
  lemma {:induction false} NumberBack(l: string)
    requires NumberText(l)
    ensures Readable(l)
  {
    var n: Numeral :| n.Valid() && NoLeadingZero(n.whole) && n.Print() == l;
    PrintStarts(n);
    forall r | Delimited(r) ensures ReadUpTo(l, r) {
      NumberRestBack(n, r);
      assert (l + r)[0] == l[0];
      ReadNumber(l + r, r);
    }
  }

  lemma {:induction false} ReadText(s: string, v: string, r: string)
    requires ReadString(s) == Some((v, r))
    ensures ReadValue(QUOTE + s) == Some((Str(v), r)) && Trim(QUOTE + s) == QUOTE + s
  {
    assert (QUOTE + s)[1..] == s;
  }

  lemma {:induction false} ValueBack(f: Field, m: Member, r: string)
    requires Encodes(f, m) && Delimited(r)
    ensures ReadValue(Shown(f, r)) == Some((m.value, r)) && Trim(Shown(f, r)) == Shown(f, r)
  {
    match m.value
    case Str(v) =>
      assert Shown(f, r) == QUOTE + (Escape(v) + (QUOTE + r));
      StringBack(v, r);
      ReadText(Escape(v) + (QUOTE + r), v, r);
    case Other =>
      assert Shown(f, r) == f.value + r && ReadUpTo(f.value, r);
  }

  lemma {:induction false} MemberBack(k: Key, shown: string, v: Value, r: string)
    requires Trim(shown) == shown && ReadValue(shown) == Some((v, r))
    ensures ReadMember(QUOTE + (Spell(k) + (QUOTE + (":" + shown)))) == Some((Member(Spell(k), v), r))
  {
    KeyBack(k, ":" + shown);
    assert (QUOTE + (Spell(k) + (QUOTE + (":" + shown))))[1..] == Spell(k) + (QUOTE + (":" + shown));
    assert (":" + shown)[1..] == shown;
  }

  lemma {:induction false} BodyStarts(fields: seq<Field>, end: string)
    requires fields != []
    ensures Head(Body(fields, end), '\"') && Trim(Body(fields, end)) == Body(fields, end)
  {
  }

  lemma {:induction false} ContinueComma(m: Member, t: string)
    requires Trim(t) == t
    ensures Continue(m, Trim("," + t)) == Prepended(m, ReadMembers(t, false))
  {
    assert Trim("," + t) == "," + t && ("," + t)[1..] == t;
  }

  lemma {:induction false} ContinueBrace(m: Member, end: string)
    ensures Continue(m, Trim("}" + end)) == Some(([m], end))
  {
    assert Trim("}" + end) == "}" + end && ("}" + end)[1..] == end;
  }

  lemma {:induction false} ThenContinue(s: string, start: bool, m: Member, r: string)
    requires Head(s, '\"') && ReadMember(s) == Some((m, r))
    ensures ReadMembers(s, start) == Continue(m, Trim(r))
  {
  }

  lemma {:induction false} FieldBack(f: Field, m: Member, r: string, start: bool)
    requires Encodes(f, m) && Delimited(r)
    ensures ReadMembers(Show(f, r), start) == Continue(m, Trim(r))
  {
    ValueBack(f, m, r);
    MemberBack(f.key, Shown(f, r), m.value, r);
    ThenContinue(Show(f, r), start, m, r);
  }

  /** A whole member is read, and then the others. */
  lemma {:induction false} MembersStep(fields: seq<Field>, m: Member, end: string, start: bool)
    requires |fields| >= 2 && Encodes(fields[0], m)
    ensures ReadMembers(Body(fields, end), start) == Prepended(m, ReadMembers(Body(fields[1..], end), false))
  {
    FieldBack(fields[0], m, Rest(fields, end), start);
    BodyStarts(fields[1..], end);
    ContinueComma(m, Body(fields[1..], end));
  }

  lemma {:induction false} MembersLast(fields: seq<Field>, m: Member, end: string, start: bool)
    requires |fields| == 1 && Encodes(fields[0], m)
    ensures ReadMembers(Body(fields, end), start) == Some(([m], end))
  {
    FieldBack(fields[0], m, "}" + end, start);
    ContinueBrace(m, end);
  }

  lemma {:induction false} MembersMore(fields: seq<Field>, m: Member, more: seq<Member>, end: string, start: bool)
    requires |fields| >= 2 && Encodes(fields[0], m) && ReadMembers(Body(fields[1..], end), false) == Some((more, end))
    ensures ReadMembers(Body(fields, end), start) == Some(([m] + more, end))
  {
    MembersStep(fields, m, end, start);
  }

  /** Reading a printed object gives its members. */
  lemma {:induction false} MembersBack(fields: seq<Field>, members: seq<Member>, end: string, start: bool)
    requires AllEncode(fields, members) && fields != []
    ensures ReadMembers(Body(fields, end), start) == Some((members, end))
    decreases |fields|
  {
    var m, more := members[0], members[1..];
    assert members == [m] + more;
    if |fields| == 1 {
      assert members == [m];
      MembersLast(fields, m, end, start);
    } else {
      MembersBack(fields[1..], more, end, false);
      MembersMore(fields, m, more, end, start);
    }
  }

  lemma {:induction false} LineObject(fields: seq<Field>, end: string)
    requires fields != []
    ensures ReadObject(Line(fields, end))
         == match ReadMembers(Body(fields, end), true)
            case None => None
            case Some((members, rest)) => if Trim(rest) == "" then Some(members) else None
  {
    BodyStarts(fields, end);
    assert Line(fields, end)[1..] == Body(fields, end);
  }

  // ---------------------------------------------------------------- a value that ends in a backslash

  lemma {:induction false} Regroup3(a: string, b: string, c: string)
    ensures a + b + c == a + (b + c)
  {
  }

  lemma {:induction false} ClosedAtOnce(u: string)
    ensures ReadString(QUOTE + u) == Some(("", u))
  {
    assert (QUOTE + u)[1..] == u;
  }

  lemma {:induction false} CommaThenQuote(u: string)
    ensures ReadString("," + (QUOTE + u)) == Some((",", u))
  {
    ClosedAtOnce(u);
    ReadVerbatim(',', QUOTE + u);
    assert "," + "" == ",";
  }

  /** The backslash takes the closing quote into the text, and the next key's quote ends it. */
  lemma {:induction false} Swallowed(p: string, u: string)
    ensures ReadString(Escape(p) + "\\" + (QUOTE + ("," + (QUOTE + u)))) == Some((p + "\",", u))
  {
    var c := "," + (QUOTE + u);
    Regroup3(Escape(p), "\\", QUOTE + c);
    ReadEscaped(p, "\\" + (QUOTE + c));
    ReadBackslash(QUOTE + c);
    ShortEscapeBack('\"', '\"', c);
    CommaThenQuote(u);
    assert "\"" + "," == "\",";
  }

  /** Nothing but a comma or a brace may follow a value. */
  lemma {:induction false} NoComma(m: Member, u: string)
    requires u != "" && 'a' <= u[0] <= 'z'
    ensures Continue(m, Trim(u)) == None
  {
    assert Trim(u) == u;
  }

  lemma {:induction false} Stranded(k: Key, p: string, u: string, start: bool)
    requires u != "" && 'a' <= u[0] <= 'z'
    ensures ReadMembers(Show(Text(k, Escape(p) + "\\"), "," + (QUOTE + u)), start) == None
  {
    var f, r, v := Text(k, Escape(p) + "\\"), "," + (QUOTE + u), p + "\",";
    Swallowed(p, u);
    ReadText(f.value + (QUOTE + r), v, u);
    MemberBack(k, Shown(f, r), Str(v), u);
    ThenContinue(Show(f, r), start, Member(Spell(k), Str(v)), u);
    NoComma(Member(Spell(k), Str(v)), u);
  }

  lemma {:induction false} BrokenHere(fields: seq<Field>, p: string, end: string, start: bool)
    requires 1 < |fields| && fields[0] == Text(fields[0].key, Escape(p) + "\\")
    ensures ReadMembers(Body(fields, end), start) == None
  {
    var k := fields[1].key;
    SpellPlain(k);
    var u := Spell(k) + (QUOTE + (":" + Shown(fields[1], Rest(fields[1..], end))));
    assert Body(fields[1..], end) == QUOTE + u;
    Stranded(fields[0].key, p, u, start);
  }

  /** The first fields are those members. */
  ghost predicate Leads(fields: seq<Field>, members: seq<Member>) {
    members == [] || (fields != [] && Encodes(fields[0], members[0]) && Leads(fields[1..], members[1..]))
  }

  lemma {:induction false} LeadsCons(f: Field, m: Member, fields: seq<Field>, members: seq<Member>)
    requires Encodes(f, m) && Leads(fields, members)
    ensures Leads([f] + fields, [m] + members)
  {
    assert ([f] + fields)[1..] == fields && ([m] + members)[1..] == members;
  }

  /** A line with such a value, unless it is the last, is not JSON. */
  lemma {:induction false} BrokenAt(fields: seq<Field>, members: seq<Member>, p: string, end: string, start: bool)
    requires |members| + 1 < |fields| && Leads(fields, members)
    requires fields[|members|] == Text(fields[|members|].key, Escape(p) + "\\")
    ensures ReadMembers(Body(fields, end), start) == None
    decreases |members|
  {
    if members == [] {
      BrokenHere(fields, p, end, start);
    } else {
      assert fields[1..][|members| - 1] == fields[|members|];
      BrokenAt(fields[1..], members[1..], p, end, false);
      StillBroken(fields, members[0], end, start);
    }
  }

  lemma {:induction false} StillBroken(fields: seq<Field>, m: Member, end: string, start: bool)
    requires |fields| >= 2 && Encodes(fields[0], m) && ReadMembers(Body(fields[1..], end), false) == None
    ensures ReadMembers(Body(fields, end), start) == None
  {
    MembersStep(fields, m, end, start);
  }

  // ---------------------------------------------------------------- arrays of flat objects

  /** The objects after the opening bracket, and whatever follows the closing one. */
  function Elements(objects: seq<seq<Field>>, end: string): string
    decreases |objects|, 1
  {
    if objects == [] then "]" + end else "{" + Body(objects[0], AfterObject(objects, end))
  }

  function AfterObject(objects: seq<seq<Field>>, end: string): string
    requires objects != []
    decreases |objects|, 0
  {
    if |objects| == 1 then "]" + end else "," + Elements(objects[1..], end)
  }

  function ArrayText(objects: seq<seq<Field>>, end: string): string { "[" + Elements(objects, end) }

  lemma {:induction false} ShowAppend(f: Field, a: string, r: string)
    ensures Show(f, a) + r == Show(f, a + r)
  {
    ShownAppend(f, a, r);
    Regroup4(QUOTE, Spell(f.key), QUOTE, ":", Shown(f, a), r);
  }

  lemma {:induction false} ShownAppend(f: Field, a: string, r: string)
    ensures Shown(f, a) + r == Shown(f, a + r)
  {
    if f.Text? { Regroup4(QUOTE, f.value, QUOTE, "", a, r); Regroup3(f.value, a, r); } else { Regroup3(f.value, a, r); }
    assert "" + a == a && "" + (a + r) == a + r;
  }

  lemma {:induction false} Regroup4(a: string, b: string, c: string, d: string, e: string, r: string)
    ensures a + (b + (c + (d + e))) + r == a + (b + (c + (d + (e + r))))
  {
  }

  lemma {:induction false} BodyAppend(fields: seq<Field>, end: string, r: string)
    ensures Body(fields, end) + r == Body(fields, end + r)
    decreases |fields|
  {
    Regroup3("}", end, r);
    if |fields| >= 2 {
      BodyAppend(fields[1..], end, r);
      Regroup3(",", Body(fields[1..], end), r);
    }
    if fields != [] { ShowAppend(fields[0], Rest(fields, end), r); }
  }

  lemma {:induction false} ElementsAppend(objects: seq<seq<Field>>, end: string, r: string)
    ensures Elements(objects, end) + r == Elements(objects, end + r)
    decreases |objects|
  {
    Regroup3("]", end, r);
    if objects != [] {
      if |objects| > 1 {
        ElementsAppend(objects[1..], end, r);
        Regroup3(",", Elements(objects[1..], end), r);
      }
      BodyAppend(objects[0], AfterObject(objects, end), r);
      Regroup3("{", Body(objects[0], AfterObject(objects, end)), r);
    }
  }

  lemma {:induction false} ArrayAppend(objects: seq<seq<Field>>, r: string)
    ensures ArrayText(objects, "") + r == ArrayText(objects, r)
  {
    ElementsAppend(objects, "", r);
    Regroup3("[", Elements(objects, ""), r);
    assert "" + r == r;
  }

  /** Every object has members, and they are the members given. */
  ghost predicate AllObjects(objects: seq<seq<Field>>, members: seq<seq<Member>>) {
    && |objects| == |members|
    && (objects == [] || (objects[0] != [] && AllEncode(objects[0], members[0]) && AllObjects(objects[1..], members[1..])))
  }

  lemma {:induction false} ObjectValue(fields: seq<Field>, end: string)
    requires fields != []
    ensures var s := "{" + Body(fields, end);
            ReadValue(s) == (if ReadMembers(Body(fields, end), true).None? then None
                             else Some((Other, ReadMembers(Body(fields, end), true).value.1)))
  {
    BodyStarts(fields, end);
    assert ("{" + Body(fields, end))[1..] == Body(fields, end);
  }

  lemma {:induction false} NextElement(s: string, start: bool, rest: string)
    requires Head(s, '{') && ReadValue(s) == Some((Other, rest))
    ensures ReadElements(s, start) == (if Head(Trim(rest), ']') then Some(Trim(rest)[1..])
                                       else if Head(Trim(rest), ',') then ReadElements(Trim(Trim(rest)[1..]), false)
                                       else None)
  {
  }

  lemma {:induction false} ElementsStart(objects: seq<seq<Field>>, end: string)
    ensures Trim(Elements(objects, end)) == Elements(objects, end)
    ensures objects != [] ==> Head(Elements(objects, end), '{')
  {
  }

  lemma {:induction false} TrimBracket(end: string)
    ensures Trim("]" + end) == "]" + end && ("]" + end)[1..] == end
  {
  }

  lemma {:induction false} TrimComma(t: string)
    ensures Trim("," + t) == "," + t && ("," + t)[1..] == t
  {
  }

  /** One object is read, and then the others. */
  lemma {:induction false} ElementsStep(objects: seq<seq<Field>>, members: seq<Member>, end: string, start: bool)
    requires |objects| > 1 && objects[0] != [] && AllEncode(objects[0], members)
    ensures ReadElements(Elements(objects, end), start) == ReadElements(Elements(objects[1..], end), false)
  {
    var after := AfterObject(objects, end);
    MembersBack(objects[0], members, after, true);
    ObjectValue(objects[0], after);
    NextElement(Elements(objects, end), start, after);
    TrimComma(Elements(objects[1..], end));
    ElementsStart(objects[1..], end);
  }

  lemma {:induction false} ElementsLast(objects: seq<seq<Field>>, members: seq<Member>, end: string, start: bool)
    requires |objects| == 1 && objects[0] != [] && AllEncode(objects[0], members)
    ensures ReadElements(Elements(objects, end), start) == Some(end)
  {
    var after := AfterObject(objects, end);
    TrimBracket(end);
    MembersBack(objects[0], members, after, true);
    ObjectValue(objects[0], after);
    NextElement(Elements(objects, end), start, after);
  }

  lemma {:induction false} ElementsNone(end: string)
    ensures ReadElements(Elements([], end), true) == Some(end)
  {
    TrimBracket(end);
  }

  /** An array of printed objects is read to its end. */
  lemma {:induction false} ElementsBack(objects: seq<seq<Field>>, members: seq<seq<Member>>, end: string, start: bool)
    requires AllObjects(objects, members) && (start || objects != [])
    ensures ReadElements(Elements(objects, end), start) == Some(end)
    decreases |objects|
  {
    if objects == [] {
      ElementsNone(end);
    } else if |objects| == 1 {
      ElementsLast(objects, members[0], end, start);
    } else {
      ElementsStep(objects, members[0], end, start);
      ElementsBack(objects[1..], members[1..], end, false);
    }
  }

  /** The first objects are those. */
  ghost predicate LeadObjects(objects: seq<seq<Field>>, members: seq<seq<Member>>) {
    members == [] ||
    (objects != [] && objects[0] != [] && AllEncode(objects[0], members[0]) && LeadObjects(objects[1..], members[1..]))
  }

  lemma {:induction false} ElementsStuck(objects: seq<seq<Field>>, end: string, start: bool)
    requires objects != [] && objects[0] != [] && ReadMembers(Body(objects[0], AfterObject(objects, end)), true) == None
    ensures ReadElements(Elements(objects, end), start) == None
  {
    ObjectValue(objects[0], AfterObject(objects, end));
  }

  /** An object that cannot be read spoils the array. */
  lemma {:induction false} ElementsBroken(
      objects: seq<seq<Field>>, members: seq<seq<Member>>, bad: seq<Field>, end: string, start: bool)
    requires |members| < |objects| && LeadObjects(objects, members) && objects[|members|] == bad
    requires bad != [] && NeverObject(bad)
    ensures ReadElements(Elements(objects, end), start) == None
    decreases |members|
  {
    if members == [] {
      assert NoObject(bad, AfterObject(objects, end));
      ElementsStuck(objects, end, start);
    } else {
      ElementsBroken(objects[1..], members[1..], bad, end, false);
      ElementsStep(objects, members[0], end, start);
    }
  }

  ghost predicate NeverObject(fields: seq<Field>) { forall end :: NoObject(fields, end) }

  predicate NoObject(fields: seq<Field>, end: string) { ReadMembers(Body(fields, end), true) == None }

  lemma {:induction false} ArrayValue(objects: seq<seq<Field>>, end: string)
    ensures ReadValue(ArrayText(objects, end)) == (if ReadElements(Elements(objects, end), true).None? then None
                                                   else Some((Other, ReadElements(Elements(objects, end), true).value)))
    ensures Trim(ArrayText(objects, end)) == ArrayText(objects, end)
  {
    ElementsStart(objects, end);
    assert ArrayText(objects, end)[1..] == Elements(objects, end);
  }

  lemma {:induction false} ArrayBack(objects: seq<seq<Field>>, members: seq<seq<Member>>)
    requires AllObjects(objects, members)
    ensures Readable(ArrayText(objects, ""))
  {
    forall r | Delimited(r) ensures ReadUpTo(ArrayText(objects, ""), r) {
      ArrayAppend(objects, r);
      ElementsBack(objects, members, r, true);
      ArrayValue(objects, r);
    }
  }

  /** A value that cannot be read spoils the object around it. */
  lemma {:induction false} ValueBroken(fields: seq<Field>, members: seq<Member>, bad: Field, end: string, start: bool)
    requires |members| < |fields| && Leads(fields, members) && fields[|members|] == bad && NeverReadable(bad)
    ensures ReadMembers(Body(fields, end), start) == None
    decreases |members|
  {
    if members == [] {
      assert Unreadable(bad, Rest(fields, end));
      MemberBroken(bad, Rest(fields, end), start);
    } else {
      ValueBroken(fields[1..], members[1..], bad, end, false);
      MembersStep(fields, members[0], end, start);
    }
  }

  ghost predicate NeverReadable(f: Field) { forall r :: Unreadable(f, r) }

  predicate Unreadable(f: Field, r: string) {
    Trim(Shown(f, r)) == Shown(f, r) && ReadValue(Shown(f, r)) == None
  }

  lemma {:induction false} MemberBroken(f: Field, r: string, start: bool)
    requires Unreadable(f, r)
    ensures ReadMembers(Show(f, r), start) == None
  {
    var shown := Shown(f, r);
    KeyBack(f.key, ":" + shown);
    assert Show(f, r)[1..] == Spell(f.key) + (QUOTE + (":" + shown));
    assert (":" + shown)[1..] == shown;
    assert ReadMember(Show(f, r)) == None;
  }

  lemma {:induction false} ArrayBroken(key: Key, objects: seq<seq<Field>>, members: seq<seq<Member>>, bad: seq<Field>)
    requires |members| < |objects| && LeadObjects(objects, members) && objects[|members|] == bad
    requires bad != [] && NeverObject(bad)
    ensures NeverReadable(Bare(key, ArrayText(objects, "")))
  {
    forall r ensures Unreadable(Bare(key, ArrayText(objects, "")), r) {
      ArrayAppend(objects, r);
      ElementsBroken(objects, members, bad, r, true);
      ArrayValue(objects, r);
    }
  }

  // ---------------------------------------------------------------- what a reader that stops at quotes sees

  /** The escaped text up to its first quote: a reader that knows no escapes stops there. */
  function Seen(s: string): string {
    if s == "" then "" else if s[0] == '\"' then "\\" else EscapeChar(s[0]) + Seen(s[1..])
  }

  lemma {:induction false} BeforeQuoteWord(w: string, t: string)
    requires QuoteFree(w)
    ensures BeforeQuote(w + t) == if BeforeQuote(t).None? then None else Some(w + BeforeQuote(t).value)
  {
    if w == "" {
      assert w + t == t;
      if BeforeQuote(t).Some? { assert w + BeforeQuote(t).value == BeforeQuote(t).value; }
    } else {
      BeforeQuoteWord(w[1..], t);
      assert (w + t)[1..] == w[1..] + t;
      if BeforeQuote(t).Some? { assert [w[0]] + (w[1..] + BeforeQuote(t).value) == w + BeforeQuote(t).value; }
    }
  }

  lemma {:induction false} SeenIs(s: string, r: string)
    ensures BeforeQuote(Escape(s) + (QUOTE + r)) == Some(Seen(s))
  {
    var t := Escape(s) + (QUOTE + r);
    if s == "" {
      assert t == QUOTE + r;
    } else {
      var u := Escape(s[1..]) + (QUOTE + r);
      assert t == EscapeChar(s[0]) + u;
      if s[0] == '\"' {
        assert t[0] == '\\' && t[1..][0] == '\"';
        assert BeforeQuote(t[1..]) == Some("") && ['\\'] + "" == "\\";
      } else {
        SeenIs(s[1..], r);
        EscapeCharShape(s[0]);
        BeforeQuoteWord(EscapeChar(s[0]), u);
      }
    }
  }

  /** A string without quotes is seen whole, escapes and all. */
  lemma {:induction false} SeenWhole(s: string)
    requires QuoteFree(s)
    ensures Seen(s) == Escape(s)
  {
    if s != "" { SeenWhole(s[1..]); }
  }

  lemma {:induction false} EscapeCons(c: char, s: string)
    ensures Escape([c] + s) == EscapeChar(c) + Escape(s)
  {
    assert ([c] + s)[1..] == s;
  }

  /** One with a quote is cut short after a backslash. */
  lemma {:induction false} SeenCut(s: string) returns (p: string)
    requires !QuoteFree(s)
    ensures Seen(s) == Escape(p) + "\\"
  {
    if s[0] == '\"' {
      p := "";
      assert Escape(p) + "\\" == "\\";
    } else {
      var q := SeenCut(s[1..]);
      p := [s[0]] + q;
      EscapeCons(s[0], q);
      assert EscapeChar(s[0]) + (Escape(q) + "\\") == EscapeChar(s[0]) + Escape(q) + "\\";
    }
  }

  lemma {:induction false} SeenEmpty(s: string)
    ensures Seen(s) == "" <==> s == ""
  {
    if s != "" { EscapeCharShape(s[0]); }
  }

  lemma {:induction false} VerbatimOnly(a: string, b: string)
    ensures AllVerbatim(a + b) <==> AllVerbatim(a) && AllVerbatim(b)
  {
    if AllVerbatim(a + b) {
      forall i | 0 <= i < |a| ensures Verbatim(a[i]) { assert (a + b)[i] == a[i]; }
      forall i | 0 <= i < |b| ensures Verbatim(b[i]) { assert (a + b)[|a| + i] == b[i]; }
    }
  }

  /** What is seen is verbatim text only if it is the string itself. */
  lemma {:induction false} SeenVerbatim(s: string)
    ensures AllVerbatim(Seen(s)) <==> AllVerbatim(s)
    ensures AllVerbatim(s) ==> Seen(s) == s
  {
    if s != "" {
      SeenVerbatim(s[1..]);
      EscapeCharShape(s[0]);
      assert s == [s[0]] + s[1..];
      VerbatimOnly([s[0]], s[1..]);
      if s[0] != '\"' { VerbatimOnly(EscapeChar(s[0]), Seen(s[1..])); }
      if !Verbatim(s[0]) { assert !Verbatim(Seen(s)[0]); }
    }
  }

  /** A string is seen as itself exactly when every character is copied verbatim. */
  lemma {:induction false} SeenFixed(s: string)
    ensures Seen(s) == s <==> AllVerbatim(s)
  {
    SeenVerbatim(s);
    if Seen(s) == s {
      if QuoteFree(s) {
        SeenWhole(s);
        EscapeFixed(s);
      } else {
        SeenIs(s, "");
        BeforeQuoteFree(Escape(s) + (QUOTE + ""));
      }
    }
  }

  /** A verbatim word is seen exactly where it was sent. */
  lemma {:induction false} SeenWord(s: string, word: string)
    requires AllVerbatim(word)
    ensures Seen(s) == word <==> s == word
  {
    SeenVerbatim(s);
  }
}
