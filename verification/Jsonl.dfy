/** Files of JSON objects, one a line, as `json.dumps` writes them, with a reader for such text that
    follows section 7 of RFC 8259 for strings; and the text of input.jsonl. */
module Jsonl {
  import opened Wrappers
  import opened Text

  /** One line of input.jsonl: a submitted prompt under its number. */
  datatype InputRow = InputRow(id: string, prompt: string)

  /** The rows a list of prompts is numbered into, in order. */
  function NumberRows(prompts: seq<string>): (rows: seq<InputRow>)
    ensures |rows| == |prompts|
  {
    seq(|prompts|, i requires 0 <= i < |prompts| => InputRow(Decimal(i), prompts[i]))
  }

  // ---- Writing ----

  const HEX: string := "0123456789abcdef"

  function Hex4(n: nat): string
    requires n < 0x10000
  {
    [HEX[n / 0x1000], HEX[n / 0x100 % 0x10], HEX[n / 0x10 % 0x10], HEX[n % 0x10]]
  }

  function UnicodeEscape(n: nat): string
    requires n < 0x10000
  {
    "\\u" + Hex4(n)
  }

  /** The letter of a two-character escape. */
  function ShortEscape(c: char): Option<char> {
    if c == '"' || c == '\\' then Some(c)
    else if c == '\n' then Some('n')
    else if c == '\r' then Some('r')
    else if c == '\t' then Some('t')
    else if c as int == 0x08 then Some('b')
    else if c as int == 0x0C then Some('f')
    else None
  }

  function HighSurrogate(n: nat): nat
    requires 0x10000 <= n < 0x110000
  {
    0xD800 + (n - 0x10000) / 0x400
  }

  function LowSurrogate(n: nat): nat
    requires 0x10000 <= n < 0x110000
  {
    0xDC00 + (n - 0x10000) % 0x400
  }

  /** The `\u` form, with a surrogate pair beyond U+FFFF. */
  function LongEscape(n: nat): string
    requires n < 0x110000
  {
    if n < 0x10000 then UnicodeEscape(n) else UnicodeEscape(HighSurrogate(n)) + UnicodeEscape(LowSurrogate(n))
  }

  /** How `json.dumps` writes one character: printable ASCII as itself, the rest escaped. */
  function EscapeChar(c: char): string {
    if ShortEscape(c).Some? then ['\\', ShortEscape(c).value]
    else if ' ' <= c <= '~' then [c]
    else LongEscape(c as int)
  }

  /** The escaped text of a string, with `rest` after it. */
  function EscapeOnto(s: string, rest: string): string {
    if s == [] then rest else EscapeChar(s[0]) + EscapeOnto(s[1..], rest)
  }

  function QuoteOnto(s: string, rest: string): string {
    ['"'] + EscapeOnto(s, ['"'] + rest)
  }

  /** The values that members of the system's objects have. */
  datatype Value = Text(text: string) | Number(number: int) | Null

  type Members = seq<(string, Value)>

  function Numeral(n: int): string {
    if n < 0 then ['-'] + Decimal(-n) else Decimal(n)
  }

  function ValueOnto(value: Value, rest: string): string {
    match value
    case Text(text) => QuoteOnto(text, rest)
    case Number(n) => Numeral(n) + rest
    case Null => "null" + rest
  }

  function MemberOnto(member: (string, Value), rest: string): string {
    QuoteOnto(member.0, [':', ' '] + ValueOnto(member.1, rest))
  }

  function MembersOnto(members: Members, rest: string): string
    requires members != []
  {
    if |members| == 1 then MemberOnto(members[0], ['}'] + rest)
    else MemberOnto(members[0], [','] + ([' '] + MembersOnto(members[1..], rest)))
  }

  /** `json.dumps` of a nonempty dict, with `rest` after it. */
  function ObjectOnto(members: Members, rest: string): string
    requires members != []
  {
    ['{'] + MembersOnto(members, rest)
  }

  function RowMembers(row: InputRow): Members {
    [("id", Text(row.id)), ("prompt", Text(row.prompt))]
  }

  /** `json.dumps({"id": str(idx), "prompt": prompt})`. */
  function EncodeRow(row: InputRow): string {
    ObjectOnto(RowMembers(row), [])
  }

  /** The whole text of a file holding these rows. */
  function EncodeRows(rows: seq<InputRow>): string {
    if rows == [] then [] else EncodeRow(rows[0]) + ['\n'] + EncodeRows(rows[1..])
  }

  function EncodeFile(prompts: seq<string>): string {
    EncodeRows(NumberRows(prompts))
  }

  // ---- Reading ----

  function HexValue(c: char): (r: Option<nat>)
    ensures r.Some? ==> r.value < 16
  {
    if '0' <= c <= '9' then Some(c as int - '0' as int)
    else if 'a' <= c <= 'f' then Some(c as int - 'a' as int + 10)
    else if 'A' <= c <= 'F' then Some(c as int - 'A' as int + 10)
    else None
  }

  function ParseHex4(s: string): (r: Option<nat>)
    ensures r.Some? ==> |s| >= 4 && r.value < 0x10000
  {
    if |s| < 4 then None else HexUnit(HexValue(s[0]), HexValue(s[1]), HexValue(s[2]), HexValue(s[3]))
  }

  function HexUnit(a: Option<nat>, b: Option<nat>, c: Option<nat>, d: Option<nat>): (r: Option<nat>)
    requires forall x | x in [a, b, c, d] :: x.Some? ==> x.value < 16
    ensures r.Some? ==> r.value < 0x10000
  {
    if a.Some? && b.Some? && c.Some? && d.Some?
    then Some(a.value * 0x1000 + b.value * 0x100 + c.value * 0x10 + d.value)
    else None
  }

  /** What follows a backslash: the character it stands for and the text after it. */
  function ParseEscape(s: string): (r: Option<(char, string)>)
    ensures r.Some? ==> |r.value.1| < |s|
  {
    if s == [] then None
    else if s[0] == '"' || s[0] == '\\' || s[0] == '/' then Some((s[0], s[1..]))
    else if s[0] == 'n' then Some(('\n', s[1..]))
    else if s[0] == 'r' then Some(('\r', s[1..]))
    else if s[0] == 't' then Some(('\t', s[1..]))
    else if s[0] == 'b' then Some((0x08 as char, s[1..]))
    else if s[0] == 'f' then Some((0x0C as char, s[1..]))
    else if s[0] == 'u' then
      match ParseHex4(s[1..])
      case None => None
      case Some(unit) =>
        if unit < 0xD800 || 0xE000 <= unit then Some((unit as char, s[5..]))
        else if unit < 0xDC00 && |s| >= 7 && s[5] == '\\' && s[6] == 'u' then
          match ParseHex4(s[7..])
          case None => None
          case Some(low) =>
            if 0xDC00 <= low < 0xE000
            then Some(((0x10000 + (unit - 0xD800) * 0x400 + (low - 0xDC00)) as char, s[11..]))
            else None
        else None
    else None
  }

  /** The rest of a string literal: its characters, and the text after its closing quote. */
  function ParseChars(s: string): (r: Option<(string, string)>)
    ensures r.Some? ==> |r.value.1| < |s|
    decreases |s|
  {
    if s == [] then None
    else if s[0] == '"' then Some(([], s[1..]))
    else if s[0] == '\\' then
      match ParseEscape(s[1..])
      case None => None
      case Some((c, rest)) => Prepend(c, ParseChars(rest))
    else if s[0] < ' ' then None
    else Prepend(s[0], ParseChars(s[1..]))
  }

  function Prepend(c: char, r: Option<(string, string)>): Option<(string, string)> {
    if r.None? then None else Some(([c] + r.value.0, r.value.1))
  }

  function SkipSpace(s: string): (r: string)
    ensures |r| <= |s|
  {
    if s != [] && s[0] in " \t\r\n" then SkipSpace(s[1..]) else s
  }

  /** After optional space, the character `c`: the text after it. */
  function Expect(c: char, s: string): (r: Option<string>)
    ensures r.Some? ==> |r.value| < |s|
  {
    var t := SkipSpace(s);
    if t != [] && t[0] == c then Some(t[1..]) else None
  }

  function ParseLiteral(s: string): (r: Option<(string, string)>)
    ensures r.Some? ==> |r.value.1| < |s|
  {
    match Expect('"', s)
    case None => None
    case Some(t) => ParseChars(t)
  }

  predicate IsDigit(c: char) {
    '0' <= c <= '9'
  }

  function DigitsEnd(s: string): (n: nat)
    ensures n <= |s|
  {
    if s == [] || !IsDigit(s[0]) then 0 else 1 + DigitsEnd(s[1..])
  }

  /** A number without a sign; like JSON it takes no leading zeros. */
  function ParseNatural(s: string): (r: Option<(nat, string)>)
    ensures r.Some? ==> |r.value.1| < |s|
  {
    var n := DigitsEnd(s);
    if n == 0 || (n > 1 && s[0] == '0') then None else Some((NumberOf(s[..n]), s[n..]))
  }

  function ParseInteger(s: string): (r: Option<(int, string)>)
    ensures r.Some? ==> |r.value.1| < |s|
  {
    if s != [] && s[0] == '-' then Signed(-1, ParseNatural(s[1..])) else Signed(1, ParseNatural(s))
  }

  function Signed(sign: int, r: Option<(nat, string)>): Option<(int, string)> {
    if r.None? then None else Some((sign * r.value.0, r.value.1))
  }

  function ParseBare(s: string): (r: Option<(Value, string)>)
    ensures r.Some? ==> |r.value.1| < |s|
  {
    if "null" <= s then Some((Null, s[4..]))
    else
      match ParseInteger(s)
      case None => None
      case Some((n, rest)) => Some((Number(n), rest))
  }

  function ParseValue(s: string): (r: Option<(Value, string)>)
    ensures r.Some? ==> |r.value.1| < |s|
  {
    if Expect('"', s).Some? then
      match ParseLiteral(s)
      case None => None
      case Some((text, rest)) => Some((Text(text), rest))
    else ParseBare(SkipSpace(s))
  }

  function ParseMember(s: string): (r: Option<((string, Value), string)>)
    ensures r.Some? ==> |r.value.1| < |s|
  {
    match ParseLiteral(s)
    case None => None
    case Some((key, t)) =>
      match Expect(':', t)
      case None => None
      case Some(u) =>
        match ParseValue(u)
        case None => None
        case Some((value, rest)) => Some(((key, value), rest))
  }

  function ParseMembers(s: string): Option<Members>
    decreases |s|
  {
    match ParseMember(s)
    case None => None
    case Some((member, rest)) =>
      if Expect('}', rest).Some? then
        (if SkipSpace(Expect('}', rest).value) == [] then Some([member]) else None)
      else
        match Expect(',', rest)
        case None => None
        case Some(more) =>
          var others := ParseMembers(more);
          if others.None? then None else Some([member] + others.value)
  }

  /** `json.loads` of a line that is one flat object. */
  function ParseObject(line: string): Option<Members> {
    match Expect('{', line)
    case None => None
    case Some(body) => ParseMembers(body)
  }

  /** The last member wins, as in a Python dict. */
  function Lookup(members: Members, key: string): Option<Value> {
    if members == [] then None
    else
      var last := members[|members| - 1];
      if last.0 == key then Some(last.1) else Lookup(members[..|members| - 1], key)
  }

  function RowOf(members: Members): Option<InputRow> {
    match (Lookup(members, "id"), Lookup(members, "prompt"))
    case (Some(Text(id)), Some(Text(prompt))) => Some(InputRow(id, prompt))
    case _ => None
  }

  /** One line as an input row. */
  function ParseRow(line: string): Option<InputRow> {
    match ParseObject(line)
    case None => None
    case Some(members) => RowOf(members)
  }

  /** Every character Python's `str.splitlines` ends a line at. */
  predicate IsLineBoundary(c: char) {
    var n := c as int;
    0x0A <= n <= 0x0D || 0x1C <= n <= 0x1E || n == 0x85 || n == 0x2028 || n == 0x2029
  }

  /** A carriage return and the newline after it are one boundary. */
  function BoundaryLength(s: string): (n: nat)
    requires s != []
    ensures 1 <= n <= |s|
  {
    if s[0] == '\r' && |s| > 1 && s[1] == '\n' then 2 else 1
  }

  function LineEnd(s: string): (n: nat)
    ensures n <= |s|
  {
    if s == [] || IsLineBoundary(s[0]) then 0 else 1 + LineEnd(s[1..])
  }

  function Lines(s: string): seq<string>
    decreases |s|
  {
    if s == [] then []
    else if LineEnd(s) == |s| then [s]
    else [s[..LineEnd(s)]] + Lines(s[LineEnd(s) + BoundaryLength(s[LineEnd(s)..])..])
  }

  function ParseRows(lines: seq<string>): Option<seq<InputRow>> {
    if lines == [] then Some([])
    else
      match (ParseRow(lines[0]), ParseRows(lines[1..]))
      case (Some(row), Some(rows)) => Some([row] + rows)
      case _ => None
  }

  /** The rows of a JSONL text; none when some line is malformed. */
  function DecodeFile(text: string): Option<seq<InputRow>> {
    ParseRows(Lines(text))
  }

  // ---- Round trip ----

  lemma HexRoundTrip(n: nat, rest: string)
    requires n < 0x10000
    ensures ParseHex4(Hex4(n) + rest) == Some(n)
  {
    var a, b, c, d := n / 0x1000, n / 0x100 % 0x10, n / 0x10 % 0x10, n % 0x10;
    HexDigit(a);
    HexDigit(b);
    HexDigit(c);
    HexDigit(d);
    var s := Hex4(n) + rest;
    assert s[0] == HEX[a] && s[1] == HEX[b] && s[2] == HEX[c] && s[3] == HEX[d];
    HexSplit(n);
  }

  lemma HexSplit(n: nat)
    ensures n == n / 0x1000 * 0x1000 + n / 0x100 % 0x10 * 0x100 + n / 0x10 % 0x10 * 0x10 + n % 0x10
  {
    assert n / 0x100 / 0x10 == n / 0x1000;
    assert n / 0x10 / 0x10 == n / 0x100;
  }

  lemma HexDigit(d: nat)
    requires d < 16
    ensures HexValue(HEX[d]) == Some(d)
    ensures ' ' <= HEX[d] <= '~'
  {
  }

  /** A `\u` escape outside the surrogate range reads back as its character. */
  lemma UnicodeEscapeRoundTrip(n: nat, rest: string)
    requires n < 0xD800 || 0xE000 <= n < 0x10000
    ensures ParseEscape(UnicodeEscape(n)[1..] + rest) == Some((n as char, rest))
  {
    HexRoundTrip(n, rest);
    UnitParses(n, Hex4(n), rest);
    assert UnicodeEscape(n)[1..] == ['u'] + Hex4(n);
  }

  lemma UnitParses(n: nat, hex: string, rest: string)
    requires n < 0xD800 || 0xE000 <= n < 0x10000
    requires |hex| == 4 && ParseHex4(hex + rest) == Some(n)
    ensures ParseEscape((['u'] + hex) + rest) == Some((n as char, rest))
  {
    var t := (['u'] + hex) + rest;
    assert t[1..] == hex + rest;
    assert t[5..] == rest;
  }

  /** A surrogate pair reads back as the character it was made from. */
  lemma SurrogatesRoundTrip(high: nat, low: nat, rest: string)
    requires 0xD800 <= high < 0xDC00 && 0xDC00 <= low < 0xE000
    ensures ParseEscape(UnicodeEscape(high)[1..] + UnicodeEscape(low) + rest)
         == Some(((0x10000 + (high - 0xD800) * 0x400 + (low - 0xDC00)) as char, rest))
  {
    var t := UnicodeEscape(high)[1..] + UnicodeEscape(low) + rest;
    HexRoundTrip(high, UnicodeEscape(low) + rest);
    HexRoundTrip(low, rest);
    SurrogateSlices(high, low, rest);
  }

  lemma SurrogateSlices(high: nat, low: nat, rest: string)
    requires high < 0x10000 && low < 0x10000
    ensures var t := UnicodeEscape(high)[1..] + UnicodeEscape(low) + rest;
            && |t| >= 11 && t[0] == 'u' && t[5] == '\\' && t[6] == 'u'
            && t[1..] == Hex4(high) + (UnicodeEscape(low) + rest)
            && t[7..] == Hex4(low) + rest
            && t[11..] == rest
  {
  }

  lemma SurrogatesMean(n: nat)
    requires 0x10000 <= n < 0x110000
    ensures 0xD800 <= HighSurrogate(n) < 0xDC00 && 0xDC00 <= LowSurrogate(n) < 0xE000
    ensures 0x10000 + (HighSurrogate(n) - 0xD800) * 0x400 + (LowSurrogate(n) - 0xDC00) == n
  {
  }

  lemma TailOfConcat(a: string, b: string)
    requires a != []
    ensures (a + b)[1..] == a[1..] + b
  {
  }

  lemma PairParses(c: char, high: nat, low: nat, rest: string)
    requires 0xD800 <= high < 0xDC00 && 0xDC00 <= low < 0xE000
    requires c as int == 0x10000 + (high - 0xD800) * 0x400 + (low - 0xDC00)
    ensures ParseEscape(UnicodeEscape(high)[1..] + UnicodeEscape(low) + rest) == Some((c, rest))
  {
    SurrogatesRoundTrip(high, low, rest);
  }

  lemma SupplementaryParses(c: char, rest: string)
    requires c as int >= 0x10000
    ensures ParseEscape(LongEscape(c as int)[1..] + rest) == Some((c, rest))
  {
    var n := c as int;
    var high, low := HighSurrogate(n), LowSurrogate(n);
    SurrogatesMean(n);
    TailOfConcat(UnicodeEscape(high), UnicodeEscape(low));
    PairParses(c, high, low, rest);
  }

  lemma LongEscapeParses(c: char, rest: string)
    ensures ParseEscape(LongEscape(c as int)[1..] + rest) == Some((c, rest))
    ensures LongEscape(c as int)[0] == '\\'
  {
    if c as int < 0x10000 {
      UnicodeEscapeRoundTrip(c as int, rest);
    } else {
      SupplementaryParses(c, rest);
    }
  }

  lemma ShortEscapeParses(c: char, rest: string)
    requires ShortEscape(c).Some?
    ensures ParseEscape([ShortEscape(c).value] + rest) == Some((c, rest))
  {
    assert ([ShortEscape(c).value] + rest)[1..] == rest;
  }

  /** A character's escape reads back as the character, whatever text follows. */
  lemma EscapeCharRoundTrip(c: char, rest: string)
    ensures ParseChars(EscapeChar(c) + rest) == Prepend(c, ParseChars(rest))
  {
    var e := EscapeChar(c);
    assert (e + rest)[1..] == e[1..] + rest;
    if ShortEscape(c).Some? {
      ShortEscapeParses(c, rest);
      assert e[1..] == [ShortEscape(c).value];
    } else if ' ' <= c <= '~' {
      assert e[1..] + rest == rest;
    } else {
      LongEscapeParses(c, rest);
    }
  }

  lemma {:induction false} EscapeRoundTrip(s: string, rest: string)
    ensures ParseChars(EscapeOnto(s, ['"'] + rest)) == Some((s, rest))
  {
    if s == [] {
      assert (['"'] + rest)[1..] == rest;
    } else {
      EscapeRoundTrip(s[1..], rest);
      EscapeCharRoundTrip(s[0], EscapeOnto(s[1..], ['"'] + rest));
      assert s == [s[0]] + s[1..];
    }
  }

  lemma ExpectHead(c: char, rest: string)
    requires c !in " \t\r\n"
    ensures Expect(c, [c] + rest) == Some(rest)
    ensures Expect(c, [' '] + ([c] + rest)) == Some(rest)
    ensures forall d | d != c :: Expect(d, [c] + rest) == None
  {
    assert ([c] + rest)[1..] == rest;
    assert ([' '] + ([c] + rest))[1..] == [c] + rest;
  }

  lemma LiteralRoundTrip(s: string, rest: string)
    ensures ParseLiteral(QuoteOnto(s, rest)) == Some((s, rest))
    ensures ParseLiteral([' '] + QuoteOnto(s, rest)) == Some((s, rest))
  {
    ExpectHead('"', EscapeOnto(s, ['"'] + rest));
    EscapeRoundTrip(s, rest);
  }

  lemma {:induction false} DigitsEndAt(digits: string, rest: string)
    requires forall c | c in digits :: IsDigit(c)
    requires rest == [] || !IsDigit(rest[0])
    ensures DigitsEnd(digits + rest) == |digits|
  {
    if digits == [] {
      assert digits + rest == rest;
    } else {
      DigitsEndAt(digits[1..], rest);
      assert (digits + rest)[1..] == digits[1..] + rest;
    }
  }

  lemma NaturalRoundTrip(n: nat, rest: string)
    requires rest == [] || !IsDigit(rest[0])
    ensures ParseNatural(Decimal(n) + rest) == Some((n, rest))
  {
    var s := Decimal(n) + rest;
    DecimalRoundTrip(n);
    DigitsEndAt(Decimal(n), rest);
    assert s[..|Decimal(n)|] == Decimal(n) && s[|Decimal(n)|..] == rest;
  }

  lemma NumeralStart(n: int)
    ensures Numeral(n) != [] && (IsDigit(Numeral(n)[0]) || Numeral(n)[0] == '-')
  {
    if n >= 0 {
      DecimalRoundTrip(n);
      assert Decimal(n)[0] in Decimal(n);
    }
  }

  lemma PlainNatural(digits: string, rest: string)
    requires digits != [] && digits[0] != '-'
    ensures ParseInteger(digits + rest) == Signed(1, ParseNatural(digits + rest))
    ensures ParseInteger((['-'] + digits) + rest) == Signed(-1, ParseNatural(digits + rest))
  {
    assert ((['-'] + digits) + rest)[1..] == digits + rest;
  }

  lemma IntegerRoundTrip(n: int, rest: string)
    requires rest == [] || !IsDigit(rest[0])
    ensures ParseInteger(Numeral(n) + rest) == Some((n, rest))
  {
    var size := if n < 0 then -n else n;
    NaturalRoundTrip(size, rest);
    DecimalStart(size);
    PlainNatural(Decimal(size), rest);
  }

  lemma DecimalStart(n: nat)
    ensures Decimal(n) != [] && Decimal(n)[0] != '-'
  {
    DecimalRoundTrip(n);
    assert Decimal(n)[0] in Decimal(n);
  }

  /** After a value comes a comma or a closing brace. */
  predicate EndsValue(rest: string) {
    rest != [] && (rest[0] == ',' || rest[0] == '}')
  }

  lemma BareRoundTrip(value: Value, rest: string)
    requires !value.Text? && EndsValue(rest)
    ensures ParseBare(ValueOnto(value, rest)) == Some((value, rest))
    ensures ValueOnto(value, rest) != [] && ValueOnto(value, rest)[0] !in " \t\r\n\""
  {
    if value.Null? {
      assert "null" <= "null" + rest && ("null" + rest)[4..] == rest;
    } else {
      IntegerRoundTrip(value.number, rest);
      NumeralStart(value.number);
    }
  }

  lemma SkipOneSpace(s: string)
    requires s != [] && s[0] !in " \t\r\n"
    ensures SkipSpace(s) == s && SkipSpace([' '] + s) == s
  {
    assert ([' '] + s)[1..] == s;
  }

  lemma ValueRoundTrip(value: Value, rest: string)
    requires EndsValue(rest)
    ensures ParseValue([' '] + ValueOnto(value, rest)) == Some((value, rest))
  {
    if value.Text? {
      LiteralRoundTrip(value.text, rest);
    } else {
      BareRoundTrip(value, rest);
      SkipOneSpace(ValueOnto(value, rest));
    }
  }

  lemma MemberRoundTrip(member: (string, Value), rest: string)
    requires EndsValue(rest)
    ensures ParseMember(MemberOnto(member, rest)) == Some((member, rest))
    ensures ParseMember([' '] + MemberOnto(member, rest)) == Some((member, rest))
  {
    var tail := [' '] + ValueOnto(member.1, rest);
    assert [':', ' '] + ValueOnto(member.1, rest) == [':'] + tail;
    LiteralRoundTrip(member.0, [':'] + tail);
    ExpectHead(':', tail);
    ValueRoundTrip(member.1, rest);
  }

  lemma LastMemberParses(member: (string, Value), rest: string)
    requires SkipSpace(rest) == []
    ensures ParseMembers(MemberOnto(member, ['}'] + rest)) == Some([member])
    ensures ParseMembers([' '] + MemberOnto(member, ['}'] + rest)) == Some([member])
  {
    MemberRoundTrip(member, ['}'] + rest);
    ExpectHead('}', rest);
  }

  lemma MemberThenMore(s: string, member: (string, Value), more: string)
    requires ParseMember(s) == Some((member, [','] + more)) && ParseMembers(more).Some?
    ensures ParseMembers(s) == Some([member] + ParseMembers(more).value)
  {
    ExpectHead(',', more);
  }

  lemma FirstMemberParses(member: (string, Value), more: string)
    requires ParseMembers(more).Some?
    ensures ParseMembers(MemberOnto(member, [','] + more)) == Some([member] + ParseMembers(more).value)
    ensures ParseMembers([' '] + MemberOnto(member, [','] + more)) == Some([member] + ParseMembers(more).value)
  {
    MemberRoundTrip(member, [','] + more);
    MemberThenMore(MemberOnto(member, [','] + more), member, more);
    MemberThenMore([' '] + MemberOnto(member, [','] + more), member, more);
  }

  lemma MoreMembersParse(members: Members, more: string)
    requires members != [] && ParseMembers(more) == Some(members[1..])
    ensures ParseMembers(MemberOnto(members[0], [','] + more)) == Some(members)
    ensures ParseMembers([' '] + MemberOnto(members[0], [','] + more)) == Some(members)
  {
    FirstMemberParses(members[0], more);
    HeadAndRest(members);
  }

  lemma HeadAndRest<T>(xs: seq<T>)
    requires xs != []
    ensures [xs[0]] + xs[1..] == xs
  {
  }

  lemma {:induction false} MembersRoundTrip(members: Members, rest: string)
    requires members != [] && SkipSpace(rest) == []
    ensures ParseMembers(MembersOnto(members, rest)) == Some(members)
    ensures ParseMembers([' '] + MembersOnto(members, rest)) == Some(members)
  {
    if |members| == 1 {
      LastMemberParses(members[0], rest);
      assert members == [members[0]];
    } else {
      MembersRoundTrip(members[1..], rest);
      MoreMembersParse(members, [' '] + MembersOnto(members[1..], rest));
    }
  }

  lemma Regroup(a: string, b: string, c: string)
    ensures a + b + c == a + (b + c)
  {
  }

  lemma {:induction false} EscapeThen(s: string, rest: string, more: string)
    ensures EscapeOnto(s, rest) + more == EscapeOnto(s, rest + more)
  {
    if s != [] {
      EscapeThen(s[1..], rest, more);
      Regroup(EscapeChar(s[0]), EscapeOnto(s[1..], rest), more);
    }
  }

  lemma QuoteThen(s: string, rest: string, more: string)
    ensures QuoteOnto(s, rest) + more == QuoteOnto(s, rest + more)
  {
    EscapeThen(s, ['"'] + rest, more);
    Regroup(['"'], rest, more);
    Regroup(['"'], EscapeOnto(s, ['"'] + rest), more);
  }

  lemma ValueThen(value: Value, rest: string, more: string)
    ensures ValueOnto(value, rest) + more == ValueOnto(value, rest + more)
  {
    match value
    case Text(text) => QuoteThen(text, rest, more);
    case Number(n) => Regroup(Numeral(n), rest, more);
    case Null => Regroup("null", rest, more);
  }

  lemma MemberThen(member: (string, Value), rest: string, more: string)
    ensures MemberOnto(member, rest) + more == MemberOnto(member, rest + more)
  {
    ValueThen(member.1, rest, more);
    Regroup([':', ' '], ValueOnto(member.1, rest), more);
    QuoteThen(member.0, [':', ' '] + ValueOnto(member.1, rest), more);
  }

  lemma {:induction false} MembersThen(members: Members, rest: string, more: string)
    requires members != []
    ensures MembersOnto(members, rest) + more == MembersOnto(members, rest + more)
  {
    if |members| == 1 {
      Regroup(['}'], rest, more);
      MemberThen(members[0], ['}'] + rest, more);
    } else {
      var tail := MembersOnto(members[1..], rest);
      MembersThen(members[1..], rest, more);
      Regroup([' '], tail, more);
      Regroup([','], [' '] + tail, more);
      MemberThen(members[0], [','] + ([' '] + tail), more);
    }
  }

  /** Text after an encoded object is the object encoded onto it. */
  lemma ObjectThen(members: Members, more: string)
    requires members != []
    ensures ObjectOnto(members, []) + more == ObjectOnto(members, more)
  {
    MembersThen(members, [], more);
    Regroup(['{'], MembersOnto(members, []), more);
    assert [] + more == more;
  }

  /** Any object reads back as its members, with white space after it or not. */
  lemma ObjectRoundTrip(members: Members, rest: string)
    requires members != [] && SkipSpace(rest) == []
    ensures ParseObject(ObjectOnto(members, rest)) == Some(members)
  {
    ExpectHead('{', MembersOnto(members, rest));
    MembersRoundTrip(members, rest);
  }

  lemma LookupLast(members: Members, key: string, value: Value, wanted: string)
    ensures Lookup(members + [(key, value)], wanted) == if key == wanted then Some(value) else Lookup(members, wanted)
  {
    assert (members + [(key, value)])[..|members|] == members;
  }

  lemma RowMembersRoundTrip(row: InputRow)
    ensures RowOf(RowMembers(row)) == Some(row)
  {
    var first := [("id", Text(row.id))];
    assert RowMembers(row) == first + [("prompt", Text(row.prompt))] && first == [] + first;
    LookupLast(first, "prompt", Text(row.prompt), "id");
    LookupLast(first, "prompt", Text(row.prompt), "prompt");
    LookupLast([], "id", Text(row.id), "id");
  }

  lemma RowRoundTrip(row: InputRow)
    ensures ParseRow(EncodeRow(row)) == Some(row)
  {
    ObjectRoundTrip(RowMembers(row), []);
    RowMembersRoundTrip(row);
  }

  // ---- What is written ----

  /** The number that four hexadecimal digits stand for. */
  function UnitOf(hex: string): int
    requires |hex| == 4 && forall i | 0 <= i < 4 :: HexValue(hex[i]).Some?
  {
    0x1000 * HexValue(hex[0]).value + 0x100 * HexValue(hex[1]).value + 0x10 * HexValue(hex[2]).value
    + HexValue(hex[3]).value
  }

  predicate IsUnit(s: string, n: int) {
    |s| == 6 && s[..2] == "\\u" && (forall i | 2 <= i < 6 :: HexValue(s[i]).Some?) && UnitOf(s[2..]) == n
  }

  lemma UnicodeEscapeIs(n: nat)
    requires n < 0x10000
    ensures IsUnit(UnicodeEscape(n), n)
  {
    HexDigit(n / 0x1000);
    HexDigit(n / 0x100 % 0x10);
    HexDigit(n / 0x10 % 0x10);
    HexDigit(n % 0x10);
    HexSplit(n);
    assert UnicodeEscape(n)[2..] == Hex4(n);
  }

  /** `json.dumps`, character by character: seven short escapes, printable ASCII as it is, the `\u` form of
      every other character, as the pair of surrogates that means it beyond U+FFFF. */
  lemma EscapeCharIs(c: char)
    ensures var n, e := c as int, EscapeChar(c);
            if c == '"' then e == "\\\""
            else if c == '\\' then e == "\\\\"
            else if n == 0x0A then e == "\\n"
            else if n == 0x0D then e == "\\r"
            else if n == 0x09 then e == "\\t"
            else if n == 0x08 then e == "\\b"
            else if n == 0x0C then e == "\\f"
            else if 0x20 <= n <= 0x7E then e == [c]
            else if n < 0x10000 then IsUnit(e, n)
            else exists high, low |
                   0xD800 <= high < 0xDC00 && 0xDC00 <= low < 0xE000 ::
                   n == 0x10000 + (high - 0xD800) * 0x400 + (low - 0xDC00)
                   && |e| == 12 && IsUnit(e[..6], high) && IsUnit(e[6..], low)
  {
    var n := c as int;
    if n >= 0x10000 {
      SurrogatesMean(n);
      UnicodeEscapeIs(HighSurrogate(n));
      UnicodeEscapeIs(LowSurrogate(n));
      assert EscapeChar(c)[..6] == UnicodeEscape(HighSurrogate(n));
      assert EscapeChar(c)[6..] == UnicodeEscape(LowSurrogate(n));
    } else if ShortEscape(c).None? && !(' ' <= c <= '~') {
      UnicodeEscapeIs(n);
    }
  }

  /** Nulls and integers, as they stand in the file. */
  lemma BareValuesAre(n: nat)
    ensures ValueOnto(Null, []) == "null"
    ensures ValueOnto(Number(n), []) == Decimal(n)
    ensures n > 0 ==> ValueOnto(Number(0 - n), []) == "-" + Decimal(n)
  {
  }

  /** A text that needs no escapes. */
  predicate Plain(s: string) {
    forall i | 0 <= i < |s| :: ' ' <= s[i] <= '~' && s[i] != '"' && s[i] != '\\'
  }

  lemma {:induction false} PlainStays(s: string, rest: string)
    requires Plain(s)
    ensures EscapeOnto(s, rest) == s + rest
  {
    if s == [] {
      assert s + rest == rest;
    } else {
      PlainStays(s[1..], rest);
      Regroup([s[0]], s[1..], rest);
      assert s == [s[0]] + s[1..];
    }
  }

  /** A member whose key and value are plain, as it stands in the file. */
  function PlainMember(key: string, text: string): string {
    "\"" + (key + ("\": \"" + (text + "\"")))
  }

  lemma QuotePlain(s: string, rest: string)
    requires Plain(s)
    ensures QuoteOnto(s, rest) == ['"'] + (s + (['"'] + rest))
  {
    PlainStays(s, ['"'] + rest);
  }

  lemma FiveParts(a: string, b: string, c: string, d: string, e: string, rest: string)
    ensures (a + (b + (c + (d + e)))) + rest == a + (b + (c + (d + (e + rest))))
  {
    Regroup(a, b + (c + (d + e)), rest);
    Regroup(b, c + (d + e), rest);
    Regroup(c, d + e, rest);
    Regroup(d, e, rest);
  }

  lemma MemberPlain(key: string, text: string, rest: string)
    requires Plain(key) && Plain(text)
    ensures MemberOnto((key, Text(text)), rest) == PlainMember(key, text) + rest
  {
    var value := text + (['"'] + rest);
    QuotePlain(text, rest);
    QuotePlain(key, [':', ' '] + (['"'] + value));
    FiveParts(['"'], key, "\": \"", text, ['"'], rest);
    assert ['"'] + ([':', ' '] + (['"'] + value)) == "\": \"" + value;
  }

  /** The line of a prompt without special characters, as it stands in the file. */
  lemma EncodedRowIs(id: string, prompt: string)
    requires Plain(id) && Plain(prompt)
    ensures EncodeRow(InputRow(id, prompt))
         == "{" + (PlainMember("id", id) + (", " + (PlainMember("prompt", prompt) + "}")))
  {
    var members := RowMembers(InputRow(id, prompt));
    var second := PlainMember("prompt", prompt) + "}";
    MemberPlain("prompt", prompt, ['}'] + []);
    assert ['}'] + [] == "}";
    assert members[1..] == [("prompt", Text(prompt))];
    assert MembersOnto(members[1..], []) == second;
    MemberPlain("id", id, [','] + ([' '] + second));
    assert [','] + ([' '] + second) == ", " + second;
  }

  predicate Printable(s: string) {
    forall c | c in s :: ' ' <= c <= '~'
  }

  lemma EscapeCharIsPrintable(c: char)
    ensures Printable(EscapeChar(c))
  {
    var n := c as int;
    if ShortEscape(c).None? && !(' ' <= c <= '~') {
      if n < 0x10000 {
        UnicodeEscapeIsPrintable(n);
      } else {
        UnicodeEscapeIsPrintable(HighSurrogate(n));
        UnicodeEscapeIsPrintable(LowSurrogate(n));
      }
    }
  }

  lemma UnicodeEscapeIsPrintable(n: nat)
    requires n < 0x10000
    ensures Printable(UnicodeEscape(n))
  {
    HexDigit(n / 0x1000);
    HexDigit(n / 0x100 % 0x10);
    HexDigit(n / 0x10 % 0x10);
    HexDigit(n % 0x10);
  }

  lemma {:induction false} EscapeIsPrintable(s: string, rest: string)
    requires Printable(rest)
    ensures Printable(EscapeOnto(s, rest))
  {
    if s != [] {
      EscapeIsPrintable(s[1..], rest);
      EscapeCharIsPrintable(s[0]);
    }
  }

  lemma NumeralIsPrintable(n: int)
    ensures Printable(Numeral(n))
  {
    DecimalRoundTrip(if n < 0 then -n else n);
  }

  lemma ValueIsPrintable(value: Value, rest: string)
    requires Printable(rest)
    ensures Printable(ValueOnto(value, rest))
  {
    match value
    case Text(text) => EscapeIsPrintable(text, ['"'] + rest);
    case Number(n) => NumeralIsPrintable(n);
    case Null => assert Printable("null");
  }

  lemma MemberIsPrintable(member: (string, Value), rest: string)
    requires Printable(rest)
    ensures Printable(MemberOnto(member, rest))
  {
    ValueIsPrintable(member.1, rest);
    EscapeIsPrintable(member.0, ['"'] + ([':', ' '] + ValueOnto(member.1, rest)));
  }

  lemma {:induction false} MembersArePrintable(members: Members, rest: string)
    requires members != [] && Printable(rest)
    ensures Printable(MembersOnto(members, rest))
  {
    if |members| == 1 {
      MemberIsPrintable(members[0], ['}'] + rest);
    } else {
      MembersArePrintable(members[1..], rest);
      MemberIsPrintable(members[0], [','] + ([' '] + MembersOnto(members[1..], rest)));
    }
  }

  /** No encoded object contains a line boundary of any kind. */
  lemma EncodedObjectIsOneLine(members: Members)
    requires members != []
    ensures Printable(ObjectOnto(members, []))
    ensures forall c | c in ObjectOnto(members, []) :: !IsLineBoundary(c)
  {
    MembersArePrintable(members, []);
  }

  lemma {:induction false} LineEndBefore(line: string, rest: string)
    requires forall c | c in line :: !IsLineBoundary(c)
    requires rest != [] && IsLineBoundary(rest[0])
    ensures LineEnd(line + rest) == |line|
  {
    if line == [] {
      assert line + rest == rest;
    } else {
      assert line[0] in line;
      LineEndBefore(line[1..], rest);
      TailOfConcat(line, rest);
    }
  }

  lemma LinesOfBoundary(line: string, end: string, rest: string)
    requires forall c | c in line :: !IsLineBoundary(c)
    requires end != [] && IsLineBoundary(end[0]) && BoundaryLength(end + rest) == |end|
    ensures Lines(line + (end + rest)) == [line] + Lines(rest)
  {
    var text := line + (end + rest);
    LineEndBefore(line, end + rest);
    assert text[..|line|] == line && text[|line|..] == end + rest;
    assert text[|line| + |end|..] == rest;
  }

  lemma LinesOfFirst(line: string, rest: string)
    requires forall c | c in line :: !IsLineBoundary(c)
    ensures Lines(line + ['\n'] + rest) == [line] + Lines(rest)
  {
    LinesOfBoundary(line, ['\n'], rest);
    Regroup(line, ['\n'], rest);
  }

  /** The ends of lines that `str.splitlines` knows. */
  predicate EndsLine(end: string) {
    || end == "\r\n"
    || (|end| == 1 && end[0] as int in {0x0A, 0x0B, 0x0C, 0x0D, 0x1C, 0x1D, 0x1E, 0x85, 0x2028, 0x2029})
  }

  /** At each of these ends, and at no other character, a text is cut. */
  lemma LinesAre(line: string, end: string, rest: string)
    requires forall i | 0 <= i < |line| :: !EndsLine([line[i]])
    requires EndsLine(end) && (end == "\r" && rest != [] ==> rest[0] != '\n')
    ensures Lines(line + (end + rest)) == [line] + Lines(rest)
    ensures line != [] ==> Lines(line) == [line]
  {
    forall c ensures EndsLine([c]) <==> IsLineBoundary(c) { EndsAre(c); }
    assert IsLineBoundary(end[0]) by { if |end| == 1 { EndsAre(end[0]); assert end == [end[0]]; } }
    assert rest != [] ==> (end + rest)[|end|] == rest[0];
    LinesOfBoundary(line, end, rest);
    NoEnd(line);
  }

  lemma EndsAre(c: char)
    ensures EndsLine([c]) <==> IsLineBoundary(c)
  {
  }

  lemma {:induction false} NoEnd(line: string)
    requires forall i | 0 <= i < |line| :: !IsLineBoundary(line[i])
    ensures LineEnd(line) == |line|
  {
    if line != [] {
      NoEnd(line[1..]);
    }
  }

  lemma FirstRowDecodes(row: InputRow, rest: string, others: seq<InputRow>)
    requires ParseRows(Lines(rest)) == Some(others) && |Lines(rest)| == |others|
    ensures var lines := Lines(EncodeRow(row) + ['\n'] + rest);
            ParseRows(lines) == Some([row] + others) && |lines| == 1 + |others|
  {
    var line, lines := EncodeRow(row), Lines(rest);
    EncodedObjectIsOneLine(RowMembers(row));
    LinesOfFirst(line, rest);
    RowRoundTrip(row);
    assert ([line] + lines)[1..] == lines;
  }

  lemma {:induction false} RowsRoundTrip(rows: seq<InputRow>)
    ensures ParseRows(Lines(EncodeRows(rows))) == Some(rows)
    ensures |Lines(EncodeRows(rows))| == |rows|
  {
    if rows != [] {
      RowsRoundTrip(rows[1..]);
      FirstRowDecodes(rows[0], EncodeRows(rows[1..]), rows[1..]);
      assert rows == [rows[0]] + rows[1..];
    }
  }

  /** Numbering, encoding, joining, splitting and decoding give back every prompt under its number. */
  lemma FileRoundTrip(prompts: seq<string>)
    ensures DecodeFile(EncodeFile(prompts)) == Some(NumberRows(prompts))
    ensures |Lines(EncodeFile(prompts))| == |prompts|
    ensures forall i | 0 <= i < |prompts| ::
              NumberRows(prompts)[i].prompt == prompts[i] && NumberOf(NumberRows(prompts)[i].id) == i
  {
    RowsRoundTrip(NumberRows(prompts));
    forall i | 0 <= i < |prompts| ensures NumberOf(NumberRows(prompts)[i].id) == i {
      DecimalRoundTrip(i);
    }
  }

  /** Different prompt lists never share a file text. */
  lemma EncodeFileInjective(left: seq<string>, right: seq<string>)
    requires EncodeFile(left) == EncodeFile(right)
    ensures left == right
  {
    FileRoundTrip(left);
    FileRoundTrip(right);
    assert |left| == |right|;
    forall i | 0 <= i < |left| ensures left[i] == right[i] {
      assert NumberRows(left)[i].prompt == NumberRows(right)[i].prompt;
    }
  }
}
