/** The text forms the store writes into browser storage, and the readers that turn
    them back into values.

    Structured fields are written as JSON in the form `JSON.stringify` produces for
    them (keys in declaration order, no whitespace, the standard string escapes), and
    read back by a strict reader that accepts that form and, inside strings, also
    `\/`, upper-case hex digits and any `\u00XX` escape. The discount is
    written as a decimal numeral, as `Number.prototype.toString` writes an integer,
    and read back as `Number` reads it. Every encoder here is proved to round-trip. */
module Codec {
  import opened PickupTypes

  // ---------------------------------------------------------------------------
  // Hexadecimal digits, used by the `\u00XX` escape
  // ---------------------------------------------------------------------------

  function HexDigit(n: int): char
    requires 0 <= n < 16
  {
    if n < 10 then ('0' as int + n) as char else ('a' as int + n - 10) as char
  }

  /** The value of a hexadecimal digit in either case, as `JSON.parse` accepts it. */
  function HexValue(c: char): Option<int>
  {
    if '0' <= c <= '9' then Some(c as int - '0' as int)
    else if 'a' <= c <= 'f' then Some(c as int - 'a' as int + 10)
    else if 'A' <= c <= 'F' then Some(c as int - 'A' as int + 10)
    else None
  }

  lemma HexRoundTrip(n: int)
    requires 0 <= n < 16
    ensures HexValue(HexDigit(n)) == Some(n)
  {
  }

  // ---------------------------------------------------------------------------
  // JSON strings
  // ---------------------------------------------------------------------------

  /** The letter that follows the backslash in the two-character escape of `c`, if
      `c` has one: quote, backslash, backspace, tab, line feed, form feed, return. */
  function ShortEscape(c: char): Option<char>
  {
    if c == '"' then Some('"')
    else if c == '\\' then Some('\\')
    else if c == '\U{8}' then Some('b')
    else if c == '\t' then Some('t')
    else if c == '\n' then Some('n')
    else if c == '\U{C}' then Some('f')
    else if c == '\r' then Some('r')
    else None
  }

  /** The character a two-character escape `\e` stands for when read back. */
  function ShortUnescape(e: char): Option<char>
  {
    if e == '"' then Some('"')
    else if e == '\\' then Some('\\')
    else if e == '/' then Some('/')
    else if e == 'b' then Some('\U{8}')
    else if e == 't' then Some('\t')
    else if e == 'n' then Some('\n')
    else if e == 'f' then Some('\U{C}')
    else if e == 'r' then Some('\r')
    else None
  }

  /** How one character appears inside a JSON string literal. */
  function EscapeChar(c: char): string
  {
    match ShortEscape(c)
    case Some(e) => ['\\', e]
    case None =>
      if c < ' ' then ['\\', 'u', '0', '0', HexDigit(c as int / 16), HexDigit(c as int % 16)]
      else [c]
  }

  function Escape(s: string): string
  {
    if s == [] then [] else EscapeChar(s[0]) + Escape(s[1..])
  }

  /** A string as a JSON string literal. */
  function Quote(s: string): string
  {
    "\"" + Escape(s) + "\""
  }

  /** Reads the body of a JSON string literal up to and including its closing quote;
      yields the string and the text after the quote. Raw control characters and
      unknown escapes are rejected, as `JSON.parse` rejects them. */
  function ParseStringBody(s: string): (r: Option<(string, string)>)
    ensures r.Some? ==> |r.value.1| < |s|
    decreases |s|
  {
    if s == [] then None
    else if s[0] == '"' then Some(([], s[1..]))
    else if s[0] == '\\' then
      if |s| >= 2 && ShortUnescape(s[1]).Some? then
        match ParseStringBody(s[2..])
        case Some((body, rest)) => Some(([ShortUnescape(s[1]).value] + body, rest))
        case None => None
      else if |s| >= 6 && s[1] == 'u' && s[2] == '0' && s[3] == '0'
              && HexValue(s[4]).Some? && HexValue(s[5]).Some? then
        match ParseStringBody(s[6..])
        case Some((body, rest)) =>
          Some(([(16 * HexValue(s[4]).value + HexValue(s[5]).value) as char] + body, rest))
        case None => None
      else None
    else if s[0] < ' ' then None
    else
      match ParseStringBody(s[1..])
      case Some((body, rest)) => Some(([s[0]] + body, rest))
      case None => None
  }

  /** Reads a JSON string literal at the start of `s`. */
  function ParseString(s: string): (r: Option<(string, string)>)
    ensures r.Some? ==> |r.value.1| < |s|
  {
    if s != [] && s[0] == '"' then ParseStringBody(s[1..]) else None
  }

  lemma {:induction false} EscapeCharRoundTrip(c: char, tail: string)
    ensures ParseStringBody(EscapeChar(c) + tail).Some? <==> ParseStringBody(tail).Some?
    ensures ParseStringBody(tail).Some? ==>
      ParseStringBody(EscapeChar(c) + tail)
        == Some(([c] + ParseStringBody(tail).value.0, ParseStringBody(tail).value.1))
  {
    var s := EscapeChar(c) + tail;
    match ShortEscape(c)
    case Some(e) =>
      assert s[0] == '\\' && s[1] == e && s[2..] == tail;
      assert ShortUnescape(e) == Some(c);
    case None =>
      if c < ' ' {
        var hi, lo := c as int / 16, c as int % 16;
        HexRoundTrip(hi);
        HexRoundTrip(lo);
        assert s[0] == '\\' && s[1] == 'u' && s[2] == '0' && s[3] == '0';
        assert s[4] == HexDigit(hi) && s[5] == HexDigit(lo) && s[6..] == tail;
        assert ShortUnescape('u') == None;
        assert (16 * hi + lo) as char == c;
      } else {
        assert s[0] == c && s[1..] == tail;
      }
  }

  lemma {:induction false} EscapeRoundTrip(x: string, rest: string)
    ensures ParseStringBody(Escape(x) + ("\"" + rest)) == Some((x, rest))
    decreases |x|
  {
    if x == [] {
      assert Escape(x) + ("\"" + rest) == "\"" + rest;
    } else {
      var tail := Escape(x[1..]) + ("\"" + rest);
      assert Escape(x) + ("\"" + rest) == EscapeChar(x[0]) + tail;
      EscapeRoundTrip(x[1..], rest);
      EscapeCharRoundTrip(x[0], tail);
      assert [x[0]] + x[1..] == x;
    }
  }

  /** Reading back a quoted string yields the string and leaves what follows it. */
  lemma StringRoundTrip(x: string, rest: string)
    ensures ParseString(Quote(x) + rest) == Some((x, rest))
  {
    var s := Quote(x) + rest;
    assert s[0] == '"';
    assert s[1..] == Escape(x) + ("\"" + rest);
    EscapeRoundTrip(x, rest);
  }

  // ---------------------------------------------------------------------------
  // JSON arrays of strings
  // ---------------------------------------------------------------------------

  function EncodeItems(xs: seq<string>): string
    decreases |xs|
  {
    if xs == [] then []
    else if |xs| == 1 then Quote(xs[0])
    else Quote(xs[0]) + ("," + EncodeItems(xs[1..]))
  }

  /** A sequence of strings as a JSON array. */
  function EncodeStrings(xs: seq<string>): string
  {
    "[" + (EncodeItems(xs) + "]")
  }

  /** Reads the comma-separated elements of a non-empty array up to its `]`. */
  function ParseItems(s: string): (r: Option<(seq<string>, string)>)
    ensures r.Some? ==> |r.value.1| < |s|
    decreases |s|
  {
    match ParseString(s)
    case None => None
    case Some((x, rest)) =>
      if rest != [] && rest[0] == ']' then Some(([x], rest[1..]))
      else if rest != [] && rest[0] == ',' then
        match ParseItems(rest[1..])
        case Some((xs, rest')) => Some(([x] + xs, rest'))
        case None => None
      else None
  }

  /** Reads a JSON array of strings at the start of `s`. */
  function ParseStrings(s: string): (r: Option<(seq<string>, string)>)
    ensures r.Some? ==> |r.value.1| < |s|
  {
    if |s| >= 2 && s[0] == '[' && s[1] == ']' then Some(([], s[2..]))
    else if s != [] && s[0] == '[' then ParseItems(s[1..])
    else None
  }

  lemma {:induction false} ItemsRoundTrip(xs: seq<string>, rest: string)
    requires xs != []
    ensures ParseItems(EncodeItems(xs) + ("]" + rest)) == Some((xs, rest))
    decreases |xs|
  {
    if |xs| == 1 {
      StringRoundTrip(xs[0], "]" + rest);
      assert EncodeItems(xs) + ("]" + rest) == Quote(xs[0]) + ("]" + rest);
      assert ("]" + rest)[1..] == rest;
      assert [xs[0]] == xs;
    } else {
      var after := "," + (EncodeItems(xs[1..]) + ("]" + rest));
      assert EncodeItems(xs) + ("]" + rest) == Quote(xs[0]) + after;
      StringRoundTrip(xs[0], after);
      assert after[1..] == EncodeItems(xs[1..]) + ("]" + rest);
      ItemsRoundTrip(xs[1..], rest);
      assert [xs[0]] + xs[1..] == xs;
    }
  }

  /** Reading back an encoded array yields the same strings in the same order. */
  lemma ArrayRoundTrip(xs: seq<string>, rest: string)
    ensures ParseStrings(EncodeStrings(xs) + rest) == Some((xs, rest))
  {
    var s := EncodeStrings(xs) + rest;
    if xs == [] {
      assert s == "[]" + rest;
      assert s[2..] == rest;
    } else {
      assert s[1..] == EncodeItems(xs) + ("]" + rest);
      assert EncodeItems(xs) == Quote(xs[0]) || EncodeItems(xs) == Quote(xs[0]) + ("," + EncodeItems(xs[1..]));
      assert s[1] == '"';
      ItemsRoundTrip(xs, rest);
    }
  }

  // ---------------------------------------------------------------------------
  // JSON objects: sneaker details and pickup slot
  // ---------------------------------------------------------------------------

  const DetailsOpen := "{\"sneakerType\":"
  const ConditionLabel := ",\"condition\":"
  const IssueLabel := ",\"issue\":"
  const NotesLabel := ",\"notes\":"
  const ImagesLabel := ",\"images\":"
  const SlotOpen := "{\"date\":"
  const TimeLabel := ",\"time\":"
  const ObjectClose := "}"

  /** The text after `lit` when `s` starts with it. */
  function ExpectPrefix(lit: string, s: string): (r: Option<string>)
    ensures r.Some? ==> lit + r.value == s
  {
    if lit <= s then Some(s[|lit|..]) else None
  }

  lemma PrefixRoundTrip(lit: string, rest: string)
    ensures ExpectPrefix(lit, lit + rest) == Some(rest)
  {
    assert (lit + rest)[|lit|..] == rest;
  }

  /** A key label followed by a string literal: the string and what follows it. */
  function ParseField(key: string, s: string): Option<(string, string)>
  {
    var s1 :- ExpectPrefix(key, s);
    ParseString(s1)
  }

  lemma FieldRoundTrip(key: string, x: string, rest: string)
    ensures ParseField(key, key + (Quote(x) + rest)) == Some((x, rest))
  {
    PrefixRoundTrip(key, Quote(x) + rest);
    StringRoundTrip(x, rest);
  }

  /** `JSON.stringify` of a details object. */
  function EncodeDetails(d: SneakerDetails): string
  {
    DetailsOpen + (Quote(d.sneakerType) +
    (ConditionLabel + (Quote(d.condition) +
    (IssueLabel + (Quote(d.issue) +
    (NotesLabel + (Quote(d.notes) +
    (ImagesLabel + (EncodeStrings(d.images) + ObjectClose)))))))))
  }

  function ParseDetails(s: string): Option<(SneakerDetails, string)>
  {
    var t :- ParseField(DetailsOpen, s);
    var c :- ParseField(ConditionLabel, t.1);
    var i :- ParseField(IssueLabel, c.1);
    var n :- ParseField(NotesLabel, i.1);
    var s5 :- ExpectPrefix(ImagesLabel, n.1);
    var im :- ParseStrings(s5);
    var s6 :- ExpectPrefix(ObjectClose, im.1);
    Some((SneakerDetails(t.0, c.0, i.0, n.0, im.0), s6))
  }

  /** `JSON.parse` of a stored details object: None where the source would throw. */
  function DecodeDetails(s: string): Option<SneakerDetails>
  {
    match ParseDetails(s)
    case Some((d, rest)) => if rest == [] then Some(d) else None
    case None => None
  }

  /** Details written by the encoder read back as the same details. */
  lemma DetailsRoundTrip(d: SneakerDetails)
    ensures DecodeDetails(EncodeDetails(d)) == Some(d)
  {
    var t5 := ImagesLabel + (EncodeStrings(d.images) + ObjectClose);
    var q4 := Quote(d.notes) + t5;
    var t4 := NotesLabel + q4;
    var q3 := Quote(d.issue) + t4;
    var t3 := IssueLabel + q3;
    var q2 := Quote(d.condition) + t3;
    var t2 := ConditionLabel + q2;
    var q1 := Quote(d.sneakerType) + t2;
    assert EncodeDetails(d) == DetailsOpen + q1;
    FieldRoundTrip(DetailsOpen, d.sneakerType, t2);
    FieldRoundTrip(ConditionLabel, d.condition, t3);
    FieldRoundTrip(IssueLabel, d.issue, t4);
    FieldRoundTrip(NotesLabel, d.notes, t5);
    PrefixRoundTrip(ImagesLabel, EncodeStrings(d.images) + ObjectClose);
    ArrayRoundTrip(d.images, ObjectClose);
    PrefixRoundTrip(ObjectClose, []);
    assert ObjectClose + [] == ObjectClose;
  }

  /** `JSON.stringify` of a slot object. */
  function EncodeSlot(p: PickupSlot): string
  {
    SlotOpen + (Quote(p.date) + (TimeLabel + (Quote(p.time) + ObjectClose)))
  }

  function ParseSlot(s: string): Option<(PickupSlot, string)>
  {
    var s1 :- ExpectPrefix(SlotOpen, s);
    var d :- ParseString(s1);
    var s2 :- ExpectPrefix(TimeLabel, d.1);
    var t :- ParseString(s2);
    var s3 :- ExpectPrefix(ObjectClose, t.1);
    Some((PickupSlot(d.0, t.0), s3))
  }

  /** `JSON.parse` of a stored slot object: None where the source would throw. */
  function DecodeSlot(s: string): Option<PickupSlot>
  {
    match ParseSlot(s)
    case Some((p, rest)) => if rest == [] then Some(p) else None
    case None => None
  }

  /** A slot written by the encoder reads back as the same slot. */
  lemma SlotRoundTrip(p: PickupSlot)
    ensures DecodeSlot(EncodeSlot(p)) == Some(p)
  {
    var q2 := Quote(p.time) + ObjectClose;
    var t2 := TimeLabel + q2;
    var q1 := Quote(p.date) + t2;
    PrefixRoundTrip(SlotOpen, q1);
    StringRoundTrip(p.date, t2);
    PrefixRoundTrip(TimeLabel, q2);
    StringRoundTrip(p.time, ObjectClose);
    PrefixRoundTrip(ObjectClose, []);
    assert ObjectClose + [] == ObjectClose;
  }

  // ---------------------------------------------------------------------------
  // Decimal numerals
  // ---------------------------------------------------------------------------

  predicate IsDigit(c: char) { '0' <= c <= '9' }

  predicate AllDigits(s: string) { forall i :: 0 <= i < |s| ==> IsDigit(s[i]) }

  function DigitChar(d: int): char
    requires 0 <= d < 10
  {
    ('0' as int + d) as char
  }

  /** The shortest decimal numeral of `n`, most significant digit first. */
  function NatToDecimal(n: nat): (s: string)
    ensures s != [] && AllDigits(s)
    decreases n
  {
    if n < 10 then [DigitChar(n)] else NatToDecimal(n / 10) + [DigitChar(n % 10)]
  }

  /** `n.toString()` for an integer. */
  function IntToDecimal(n: int): string
  {
    if n < 0 then "-" + NatToDecimal(-n) else NatToDecimal(n)
  }

  function DecimalValue(s: string): nat
    requires AllDigits(s)
    decreases |s|
  {
    if s == [] then 0 else 10 * DecimalValue(s[..|s| - 1]) + (s[|s| - 1] as int - '0' as int)
  }

  /** An optionally negative run of decimal digits, as `Number` reads it. */
  function ParseInteger(s: string): Option<int>
  {
    if s != [] && AllDigits(s) then Some(DecimalValue(s))
    else if |s| > 1 && s[0] == '-' && AllDigits(s[1..]) then Some(-(DecimalValue(s[1..]) as int))
    else None
  }

  lemma {:induction false} NatDecimalRoundTrip(n: nat)
    ensures DecimalValue(NatToDecimal(n)) == n
    decreases n
  {
    var s := NatToDecimal(n);
    if n >= 10 {
      NatDecimalRoundTrip(n / 10);
      assert s[..|s| - 1] == NatToDecimal(n / 10);
    }
  }

  /** Every integer's numeral reads back as that integer. */
  lemma IntDecimalRoundTrip(n: int)
    ensures ParseInteger(IntToDecimal(n)) == Some(n)
  {
    if n < 0 {
      NatDecimalRoundTrip(-n);
      var s := IntToDecimal(n);
      assert s[1..] == NatToDecimal(-n);
      assert !IsDigit(s[0]);
    } else {
      NatDecimalRoundTrip(n);
    }
  }

  // ---------------------------------------------------------------------------
  // Numbers (the stored discount)
  // ---------------------------------------------------------------------------

  /** `toString` of a number. */
  function EncodeNum(x: Num): string
  {
    match x
    case Finite(n) => IntToDecimal(n)
    case NaN => "NaN"
  }

  /** `Number(s)`: never throws; text that is not a numeral gives NaN. */
  function DecodeNum(s: string): Num
  {
    match ParseInteger(s)
    case Some(n) => Finite(n)
    case None => NaN
  }

  /** A number written by `EncodeNum` reads back as the same number, and its text is
      never empty (so the store's truthiness test on the stored text passes). */
  lemma NumRoundTrip(x: Num)
    ensures DecodeNum(EncodeNum(x)) == x
    ensures EncodeNum(x) != ""
  {
    match x
    case Finite(n) => IntDecimalRoundTrip(n);
    case NaN => assert !IsDigit('N');
  }
}
