/** The reversible codec for typed scalars stored in string facets. */
module FacetCodec {
  import opened Sequences
  import opened Texts
  import Unicode

  /** A float is named by the JSON text of its canonical serialisation. */
  datatype Scalar = Null | Boolean(flag: bool) | Integer(value: int) | Float(text: string) | Text(text: string)

  // ------------------------------------------------------------------ UTF-8

  type Bytes = seq<int>

  function EncodeChar(c: char): (b: Bytes)
    ensures 1 <= |b| <= 4
  {
    var u := c as int;
    if u < 0x80 then [u]
    else if u < 0x800 then [0xC0 + u / 0x40, 0x80 + u % 0x40]
    else if u < 0x1_0000 then [0xE0 + u / 0x1000, 0x80 + u / 0x40 % 0x40, 0x80 + u % 0x40]
    else [0xF0 + u / 0x4_0000, 0x80 + u / 0x1000 % 0x40, 0x80 + u / 0x40 % 0x40, 0x80 + u % 0x40]
  }

  function EncodeUtf8(text: string): Bytes {
    if text == [] then [] else EncodeChar(text[0]) + EncodeUtf8(text[1..])
  }

  predicate Continuation(b: int) { 0x80 <= b < 0xC0 }

  /** A code point that is a Unicode scalar value, as a character. */
  function Scalar16(u: int): Option<char> {
    if 0 <= u < 0xD800 || 0xE000 <= u < 0x11_0000 then Some(u as char) else None
  }

  /** Strict decoding of the first character (section 3 of RFC 3629): its value and its length. Over-long
      forms, surrogates and values beyond U+10FFFF are refused. */
  function DecodeFirst(b: Bytes): (r: Option<(char, nat)>)
    requires b != []
    ensures r.Some? ==> 1 <= r.value.1 <= |b|
  {
    if 0 <= b[0] < 0x80 then Some((b[0] as char, 1))
    else if 0xC0 <= b[0] < 0xE0 && |b| >= 2 && Continuation(b[1]) then
      var u := (b[0] - 0xC0) * 0x40 + (b[1] - 0x80);
      if u >= 0x80 then Some((u as char, 2)) else None
    else if 0xE0 <= b[0] < 0xF0 && |b| >= 3 && Continuation(b[1]) && Continuation(b[2]) then
      var u := (b[0] - 0xE0) * 0x1000 + (b[1] - 0x80) * 0x40 + (b[2] - 0x80);
      if u >= 0x800 && Scalar16(u).Some? then Some((Scalar16(u).value, 3)) else None
    else if 0xF0 <= b[0] < 0xF8 && |b| >= 4 && Continuation(b[1]) && Continuation(b[2]) && Continuation(b[3]) then
      var u := (b[0] - 0xF0) * 0x4_0000 + (b[1] - 0x80) * 0x1000 + (b[2] - 0x80) * 0x40 + (b[3] - 0x80);
      if u >= 0x1_0000 && Scalar16(u).Some? then Some((Scalar16(u).value, 4)) else None
    else None
  }

  function DecodeUtf8(b: Bytes): Option<string> {
    if b == [] then Some([])
    else
      var first := DecodeFirst(b);
      if first.None? then None
      else
        var rest := DecodeUtf8(b[first.value.1..]);
        if rest.None? then None else Some([first.value.0] + rest.value)
  }

  /** Splitting a code point into groups of six bits. */
  lemma SixBits(u: int)
    requires 0 <= u
    ensures u == u / 0x40 * 0x40 + u % 0x40
    ensures u / 0x1000 == u / 0x40 / 0x40 && u / 0x4_0000 == u / 0x1000 / 0x40
    ensures u / 0x40 == u / 0x1000 * 0x40 + u / 0x40 % 0x40
    ensures u / 0x1000 == u / 0x4_0000 * 0x40 + u / 0x1000 % 0x40
  {
  }

  lemma FirstOfEncoded(c: char, rest: Bytes)
    ensures DecodeFirst(EncodeChar(c) + rest) == Some((c, |EncodeChar(c)|))
  {
    var u := c as int;
    var e := EncodeChar(c);
    var b := e + rest;
    SixBits(u);
    if u < 0x80 {
      assert b[0] == u;
    } else if u < 0x800 {
      assert b[0] == e[0] && b[1] == e[1];
    } else if u < 0x1_0000 {
      assert b[0] == e[0] && b[1] == e[1] && b[2] == e[2];
    } else {
      assert b[0] == e[0] && b[1] == e[1] && b[2] == e[2] && b[3] == e[3];
    }
  }

  /** Decoding inverts encoding. */
  lemma {:induction false} Utf8RoundTrip(text: string)
    ensures DecodeUtf8(EncodeUtf8(text)) == Some(text)
  {
    hide EncodeChar, DecodeFirst;
    if text != [] {
      var b := EncodeUtf8(text);
      FirstOfEncoded(text[0], EncodeUtf8(text[1..]));
      assert b == EncodeChar(text[0]) + EncodeUtf8(text[1..]) && b != [];
      assert b[|EncodeChar(text[0])|..] == EncodeUtf8(text[1..]);
      Utf8RoundTrip(text[1..]);
      assert text == [text[0]] + text[1..];
    }
  }

  lemma Compose(high: int, low: int)
    requires 0 <= high && 0 <= low < 0x40
    ensures (high * 0x40 + low) / 0x40 == high && (high * 0x40 + low) % 0x40 == low
  {
  }

  lemma Compose3(x: int, y: int, z: int)
    requires 0 <= x && 0 <= y < 0x40 && 0 <= z < 0x40
    ensures var u := x * 0x1000 + y * 0x40 + z; u / 0x1000 == x && u / 0x40 % 0x40 == y && u % 0x40 == z
  {
    Compose(x, y);
    Compose(x * 0x40 + y, z);
    SixBits(x * 0x1000 + y * 0x40 + z);
  }

  lemma Compose4(w: int, x: int, y: int, z: int)
    requires 0 <= w && 0 <= x < 0x40 && 0 <= y < 0x40 && 0 <= z < 0x40
    ensures var u := w * 0x4_0000 + x * 0x1000 + y * 0x40 + z;
            u / 0x4_0000 == w && u / 0x1000 % 0x40 == x && u / 0x40 % 0x40 == y && u % 0x40 == z
  {
    Compose3(w, x, y);
    Compose(w * 0x1000 + x * 0x40 + y, z);
    SixBits(w * 0x4_0000 + x * 0x1000 + y * 0x40 + z);
  }

  lemma EncodedFirst(b: Bytes)
    requires b != [] && DecodeFirst(b).Some?
    ensures var (c, n) := DecodeFirst(b).value; EncodeChar(c) == b[..n]
  {
    var (c, n) := DecodeFirst(b).value;
    if n == 2 {
      Compose(b[0] - 0xC0, b[1] - 0x80);
    } else if n == 3 {
      Compose3(b[0] - 0xE0, b[1] - 0x80, b[2] - 0x80);
    } else if n == 4 {
      Compose4(b[0] - 0xF0, b[1] - 0x80, b[2] - 0x80, b[3] - 0x80);
    }
  }

  /** Encoding inverts decoding: only canonical byte sequences are accepted. */
  lemma {:induction false} Utf8Strict(b: Bytes)
    requires DecodeUtf8(b).Some?
    ensures EncodeUtf8(DecodeUtf8(b).value) == b
    decreases |b|
  {
    hide EncodeChar, DecodeFirst;
    if b != [] {
      var (c, n) := DecodeFirst(b).value;
      EncodedFirst(b);
      Utf8Strict(b[n..]);
      var rest := DecodeUtf8(b[n..]).value;
      assert ([c] + rest)[1..] == rest;
      assert b == b[..n] + b[n..];
    }
  }

  // -------------------------------------------------------- percent-encoding

  /** Characters never escaped (section 2.3 of RFC 3986). */
  predicate Unreserved(b: int) {
    0x41 <= b <= 0x5A || 0x61 <= b <= 0x7A || 0x30 <= b <= 0x39 || b == 0x2D || b == 0x2E || b == 0x5F || b == 0x7E
  }

  predicate IsByte(b: int) { 0 <= b < 256 }

  function HexDigit(n: int): char
    requires 0 <= n < 16
  {
    if n < 10 then (0x30 + n) as char else (0x37 + n) as char
  }

  function HexValue(c: char): Option<int> {
    if '0' <= c <= '9' then Some(c as int - 0x30)
    else if 'A' <= c <= 'F' then Some(c as int - 0x37)
    else if 'a' <= c <= 'f' then Some(c as int - 0x57)
    else None
  }

  function QuoteByte(b: int): string
    requires IsByte(b)
  {
    if Unreserved(b) then [b as char] else ['%', HexDigit(b / 16), HexDigit(b % 16)]
  }

  predicate AllBytes(b: Bytes) { forall i :: 0 <= i < |b| ==> IsByte(b[i]) }

  /** `quote_from_bytes(.., safe="")` (section 2.1 of RFC 3986). */
  function QuoteBytes(b: Bytes): string
    requires AllBytes(b)
  {
    if b == [] then [] else QuoteByte(b[0]) + QuoteBytes(b[1..])
  }

  predicate IsAscii(c: char) { c < '\U{80}' }

  predicate AllAscii(s: string) { forall i :: 0 <= i < |s| ==> IsAscii(s[i]) }

  /** `unquote_to_bytes` on ASCII text: an escape that is not two hexadecimal digits stays as it is. */
  function UnquoteBytes(s: string): Bytes {
    if s == [] then []
    else if s[0] == '%' && |s| >= 3 && HexValue(s[1]).Some? && HexValue(s[2]).Some? then
      [HexValue(s[1]).value * 16 + HexValue(s[2]).value] + UnquoteBytes(s[3..])
    else [s[0] as int] + UnquoteBytes(s[1..])
  }

  function AsciiRun(s: string): (n: nat)
    ensures n <= |s| && AllAscii(s[..n]) && (n < |s| ==> !IsAscii(s[n]))
  {
    if s == [] || !IsAscii(s[0]) then 0
    else
      var n := AsciiRun(s[1..]);
      assert s[..n + 1] == [s[0]] + s[1..][..n];
      n + 1
  }

  /** `unquote(.., errors="strict")`: each maximal ASCII run is unescaped and decoded on its own. */
  function Unquote(s: string): Option<string>
    decreases |s|
  {
    if s == [] then Some([])
    else if !IsAscii(s[0]) then
      var rest := Unquote(s[1..]);
      if rest.None? then None else Some([s[0]] + rest.value)
    else
      var n := AsciiRun(s);
      var run, rest := DecodeUtf8(UnquoteBytes(s[..n])), Unquote(s[n..]);
      if run.None? || rest.None? then None else Some(run.value + rest.value)
  }

  lemma {:induction false} EncodedBytes(text: string)
    ensures AllBytes(EncodeUtf8(text))
  {
    if text != [] {
      EncodedBytes(text[1..]);
      var u := text[0] as int;
      assert AllBytes(EncodeChar(text[0]));
    }
  }

  lemma HexRoundTrip(n: int)
    requires 0 <= n < 16
    ensures HexValue(HexDigit(n)) == Some(n) && IsAscii(HexDigit(n))
  {
  }

  lemma {:induction false} QuoteAscii(b: Bytes)
    requires AllBytes(b)
    ensures AllAscii(QuoteBytes(b)) && (b != [] ==> QuoteBytes(b) != [])
  {
    if b != [] {
      QuoteAscii(b[1..]);
      HexRoundTrip(b[0] / 16);
      HexRoundTrip(b[0] % 16);
    }
  }

  lemma {:induction false} QuoteRoundTrip(b: Bytes)
    requires AllBytes(b)
    ensures UnquoteBytes(QuoteBytes(b)) == b
  {
    if b != [] {
      QuoteRoundTrip(b[1..]);
      var q, rest := QuoteByte(b[0]), QuoteBytes(b[1..]);
      var s := q + rest;
      if Unreserved(b[0]) {
        assert s[0] != '%' && s[1..] == rest;
      } else {
        HexRoundTrip(b[0] / 16);
        HexRoundTrip(b[0] % 16);
        assert s[1] == q[1] && s[2] == q[2] && s[3..] == rest;
      }
    }
  }

  function Quote(text: string): string {
    EncodedBytes(text);
    QuoteBytes(EncodeUtf8(text))
  }

  lemma UnquoteQuote(text: string)
    ensures Unquote(Quote(text)) == Some(text)
  {
    var b := EncodeUtf8(text);
    EncodedBytes(text);
    QuoteAscii(b);
    QuoteRoundTrip(b);
    Utf8RoundTrip(text);
    var s := Quote(text);
    if s == [] {
      assert b == [];
      assert text == [] by { assert DecodeUtf8([]) == Some([]); }
    } else {
      assert s[..AsciiRun(s)] == s;
      assert s[AsciiRun(s)..] == [] && text + [] == text;
    }
  }

  // ---------------------------------------------------------------- decimals

  /** `str(n)` */
  function Decimal(n: int): string {
    if n < 0 then ['-'] + Digits(-n) else Digits(n)
  }

  function ParseDigits(s: string): Option<nat> {
    if s == [] then None
    else
      var last := s[|s| - 1];
      if !('0' <= last <= '9') then None
      else if |s| == 1 then Some(last as int - 0x30)
      else
        var front := ParseDigits(s[..|s| - 1]);
        if front.None? then None else Some(front.value * 10 + (last as int - 0x30))
  }

  /** `int(s)`, for an optional sign and ASCII digits; other spellings are never canonical. */
  function ParseInteger(s: string): Option<int> {
    if s == [] then None
    else if s[0] == '-' || s[0] == '+' then
      var n := ParseDigits(s[1..]);
      if n.None? then None
      else
        var value: int := n.value;
        Some(if s[0] == '-' then -value else value)
    else if ParseDigits(s).None? then None
    else Some(ParseDigits(s).value)
  }

  lemma {:induction false} DigitsRoundTrip(n: nat)
    ensures ParseDigits(Digits(n)) == Some(n)
  {
    if n >= 10 {
      DigitsRoundTrip(n / 10);
      var s := Digits(n);
      assert s[..|s| - 1] == Digits(n / 10);
    }
  }

  lemma DecimalRoundTrip(n: int)
    ensures ParseInteger(Decimal(n)) == Some(n)
  {
    DigitsRoundTrip(if n < 0 then -n else n);
    if n < 0 {
      assert Decimal(n)[1..] == Digits(-n);
    }
  }

  // ------------------------------------------------------------------- codec

  /** Texts that canonical serialisation of a finite float can produce. */
  type FloatTexts = string -> bool

  predicate Encodable(floats: FloatTexts, v: Scalar) {
    v.Float? ==> floats(v.text)
  }

  /** `FacetScalarCodec.encode` */
  function Encode(v: Scalar): string {
    match v
    case Null => "z:null"
    case Boolean(flag) => if flag then "b:true" else "b:false"
    case Integer(n) => "i:" + Decimal(n)
    case Float(text) => "f:" + text
    case Text(text) => "s:" + Quote(text)
  }

  /** `FacetScalarCodec.decode` */
  function Decode(floats: FloatTexts, encoded: string): Option<Scalar> {
    if |encoded| < 2 || encoded[1] != ':' then None
    else
      var prefix, payload := encoded[0], encoded[2..];
      if prefix == 'z' then if payload == "null" then Some(Null) else None
      else if prefix == 'b' then
        if payload == "true" then Some(Boolean(true)) else if payload == "false" then Some(Boolean(false)) else None
      else if prefix == 'i' then
        var n := ParseInteger(payload);
        if n.None? || Decimal(n.value) != payload then None else Some(Integer(n.value))
      else if prefix == 'f' then if floats(payload) then Some(Float(payload)) else None
      else if prefix == 's' then
        var text := Unquote(payload);
        if text.None? || Encode(Text(text.value)) != encoded then None else Some(Text(text.value))
      else None
  }

  /** Every scalar comes back from its encoding, with its type. */
  lemma DecodeEncode(floats: FloatTexts, v: Scalar)
    requires Encodable(floats, v)
    ensures Decode(floats, Encode(v)) == Some(v)
  {
    match v
    case Null =>
    case Boolean(_) =>
    case Integer(n) =>
      DecimalRoundTrip(n);
      assert Encode(v)[2..] == Decimal(n);
    case Float(text) =>
      assert Encode(v)[2..] == text;
    case Text(text) =>
      UnquoteQuote(text);
      assert Encode(v)[2..] == Quote(text);
  }

  /** `decode` accepts exactly the strings `encode` produces. */
  lemma DecodeAcceptsOnlyEncodings(floats: FloatTexts, encoded: string)
    ensures Decode(floats, encoded).Some? <==> exists v :: Encodable(floats, v) && Encode(v) == encoded
    ensures Decode(floats, encoded).Some? ==> Encode(Decode(floats, encoded).value) == encoded
  {
    var r := Decode(floats, encoded);
    if r.Some? {
      assert encoded == [encoded[0], encoded[1]] + encoded[2..];
      assert Encodable(floats, r.value) && Encode(r.value) == encoded;
    }
    if v :| Encodable(floats, v) && Encode(v) == encoded {
      DecodeEncode(floats, v);
    }
  }

  /** Different values, of the same or of different types, never share an encoding. */
  lemma EncodeInjective(floats: FloatTexts, v: Scalar, w: Scalar)
    requires Encodable(floats, v) && Encodable(floats, w) && Encode(v) == Encode(w)
    ensures v == w
  {
    DecodeEncode(floats, v);
    DecodeEncode(floats, w);
  }

  /** A payload accepted as text is strictly valid: what it decodes to is unescaped byte for byte. */
  lemma AcceptedTextIsStrict(floats: FloatTexts, encoded: string)
    requires Decode(floats, encoded).Some? && Decode(floats, encoded).value.Text?
    ensures AllAscii(encoded[2..]) && UnquoteBytes(encoded[2..]) == EncodeUtf8(Decode(floats, encoded).value.text)
  {
    var text := Decode(floats, encoded).value.text;
    EncodedBytes(text);
    QuoteAscii(EncodeUtf8(text));
    QuoteRoundTrip(EncodeUtf8(text));
    assert Encode(Text(text))[2..] == Quote(text);
  }

  // ---------------------------------------------------------------- spelling

  /** The size the chunker counts with is the length of this encoding. */
  lemma {:induction false} Utf8Size(text: string)
    ensures Unicode.Bytes(text) == |EncodeUtf8(text)|
  {
    if text != [] {
      Utf8Size(text[1..]);
    }
  }

  const HEX := "0123456789ABCDEF"

  /** Letters, digits and four marks stand for themselves. */
  predicate Plain(c: char) {
    'A' <= c <= 'Z' || 'a' <= c <= 'z' || '0' <= c <= '9' || c == '-' || c == '.' || c == '_' || c == '~'
  }

  /** Two digits in upper case after a percent sign. */
  function Escaped(b: int): string
    requires IsByte(b)
  {
    ['%', HEX[b / 16], HEX[b % 16]]
  }

  lemma ByteSpelling(b: int)
    requires IsByte(b)
    ensures QuoteByte(b) == if b < 0x80 && Plain(b as char) then [b as char] else Escaped(b)
  {
    DigitSpelling(b / 16);
    DigitSpelling(b % 16);
  }

  lemma DigitSpelling(n: int)
    requires 0 <= n < 16
    ensures HexDigit(n) == HEX[n]
  {
  }

  lemma {:induction false} QuoteBytesConcat(a: Bytes, b: Bytes)
    requires AllBytes(a) && AllBytes(b)
    ensures AllBytes(a + b) && QuoteBytes(a + b) == QuoteBytes(a) + QuoteBytes(b)
  {
    hide QuoteByte;
    if a == [] {
      assert a + b == b;
    } else {
      assert (a + b)[1..] == a[1..] + b;
      QuoteBytesConcat(a[1..], b);
    }
  }

  /** The bytes of a character that is not plain, escaped one by one. */
  function EscapedAll(b: Bytes): string
    requires AllBytes(b)
  {
    if b == [] then [] else EscapedAll(b[..|b| - 1]) + Escaped(b[|b| - 1])
  }

  lemma {:induction false} AllEscaped(b: Bytes)
    requires AllBytes(b) && forall i :: 0 <= i < |b| ==> !(b[i] < 0x80 && Plain(b[i] as char))
    ensures QuoteBytes(b) == EscapedAll(b)
    decreases |b|
  {
    if b != [] {
      var n := |b| - 1;
      AllEscaped(b[..n]);
      assert b == b[..n] + [b[n]];
      QuoteBytesConcat(b[..n], [b[n]]);
      ByteSpelling(b[n]);
      assert QuoteBytes([b[n]]) == QuoteByte(b[n]) + [];
    }
  }

  lemma CharSpelling(c: char)
    ensures AllBytes(EncodeChar(c))
    ensures QuoteBytes(EncodeChar(c)) == if Plain(c) then [c] else EscapedAll(EncodeChar(c))
  {
    if Plain(c) {
      ByteSpelling(c as int);
      assert QuoteBytes([c as int]) == QuoteByte(c as int) + [];
    } else {
      AllEscaped(EncodeChar(c));
    }
  }

  /** A text is spelled character by character, plain ones as they are and the others by their bytes. */
  lemma QuoteSpelling(text: string, c: char)
    ensures AllBytes(EncodeChar(c)) && Quote("") == ""
    ensures Quote([c] + text) == (if Plain(c) then [c] else EscapedAll(EncodeChar(c))) + Quote(text)
  {
    CharSpelling(c);
    EncodedBytes(text);
    var all := [c] + text;
    assert all[1..] == text && all[0] == c;
    EncodedBytes(all);
    QuoteBytesConcat(EncodeChar(c), EncodeUtf8(text));
  }

  lemma {:induction false} NoLeadingZero(n: nat)
    requires n > 0
    ensures Digits(n)[0] != '0'
  {
    if n >= 10 {
      NoLeadingZero(n / 10);
    }
  }

  /** An integer is spelled in decimal without leading zeros. */
  lemma IntegerSpelling(n: int)
    ensures Encode(Integer(0)) == "i:0"
    ensures n > 0 ==> && Encode(Integer(n)) == "i:" + Digits(n) && Encode(Integer(-n)) == "i:" + (['-'] + Digits(n))
                      && Digits(n)[0] != '0' && ParseDigits(Digits(n)) == Some(n)
  {
    assert Digits(0) == "0";
    assert "i:" + "0" == "i:0";
    if n > 0 {
      hide Digits;
      NoLeadingZero(n);
      DigitsRoundTrip(n);
    }
  }

  /** Every other scalar is spelled by its type letter and a colon, then null, true, false, the JSON text of a float,
      or a percent-encoded text. */
  lemma EncodeSpelling(text: string)
    ensures Encode(Null) == "z:null" && Encode(Boolean(true)) == "b:true" && Encode(Boolean(false)) == "b:false"
    ensures Encode(Float(text)) == "f:" + text && Encode(Text(text)) == "s:" + Quote(text)
  {
    hide Quote, Decimal;
  }
}
