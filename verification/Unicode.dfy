/** Character classes and UTF-8 sizes shared by the text code. */
module Unicode {

  /** Python's `str.isspace` class, which is also what the regex class `\s` matches. */
  predicate IsSpace(c: char) {
    || '\t' <= c <= '\r'
    || '\U{1C}' <= c <= ' '
    || c == '\U{85}' || c == '\U{A0}' || c == '\U{1680}'
    || '\U{2000}' <= c <= '\U{200A}'
    || c == '\U{2028}' || c == '\U{2029}' || c == '\U{202F}' || c == '\U{205F}' || c == '\U{3000}'
  }

  /** `not text.strip()` */
  predicate Blank(text: string) {
    forall i :: 0 <= i < |text| ==> IsSpace(text[i])
  }

  /** Bytes one character takes in UTF-8 (section 3 of RFC 3629). */
  function CharBytes(c: char): (n: nat)
    ensures 1 <= n <= 4
  {
    if c < '\U{80}' then 1 else if c < '\U{800}' then 2 else if c < '\U{10000}' then 3 else 4
  }

  /** `len(text.encode("utf-8"))` */
  function Bytes(text: string): nat {
    if text == [] then 0 else CharBytes(text[0]) + Bytes(text[1..])
  }

  lemma {:induction false} BytesConcat(a: string, b: string)
    ensures Bytes(a + b) == Bytes(a) + Bytes(b)
  {
    if a == [] {
      assert a + b == b;
    } else {
      assert (a + b)[1..] == a[1..] + b;
      BytesConcat(a[1..], b);
    }
  }

  /** A slice of a slice never needs more bytes. */
  lemma BytesSlice(text: string, lo: nat, from: nat, to: nat, hi: nat)
    requires lo <= from <= to <= hi <= |text|
    ensures Bytes(text[from..to]) <= Bytes(text[lo..hi])
  {
    assert text[lo..hi] == text[lo..from] + (text[from..to] + text[to..hi]);
    BytesConcat(text[lo..from], text[from..to] + text[to..hi]);
    BytesConcat(text[from..to], text[to..hi]);
  }
}
