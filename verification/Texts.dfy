/** Small pieces of text shared by the chunker and the codec. */
module Texts {

  /** `separator.join(parts)` */
  function Join(parts: seq<string>, separator: string): string {
    if parts == [] then ""
    else if |parts| == 1 then parts[0]
    else parts[0] + separator + Join(parts[1..], separator)
  }

  /** Joining more parts extends what is there. */
  lemma {:induction false} JoinExtends(a: seq<string>, b: seq<string>, separator: string)
    requires a != []
    ensures Join(a, separator) <= Join(a + b, separator)
    decreases |a|
  {
    if |a| == 1 {
      assert b == [] ==> a + b == a;
      assert b != [] ==> (a + b)[1..] == b;
    } else {
      assert (a + b)[1..] == a[1..] + b;
      JoinExtends(a[1..], b, separator);
      assert a[0] + separator + Join(a[1..], separator) <= a[0] + separator + Join(a[1..] + b, separator);
    }
  }

  /** The parts in order with the separator between any two, read from the end. */
  ghost predicate IsJoined(parts: seq<string>, separator: string, text: string)
    decreases |parts|
  {
    if parts == [] then text == ""
    else if |parts| == 1 then text == parts[0]
    else
      var n := |parts| - 1;
      exists front :: IsJoined(parts[..n], separator, front) && text == front + separator + parts[n]
  }

  lemma {:induction false} JoinSnoc(parts: seq<string>, last: string, separator: string)
    requires parts != []
    ensures Join(parts + [last], separator) == Join(parts, separator) + separator + last
    decreases |parts|
  {
    var all := parts + [last];
    assert all[1..] == parts[1..] + [last];
    if |parts| > 1 {
      JoinSnoc(parts[1..], last, separator);
    }
  }

  /** Joining gives that text and no other. */
  lemma {:induction false} JoinIsJoined(parts: seq<string>, separator: string, text: string)
    ensures IsJoined(parts, separator, text) <==> text == Join(parts, separator)
    decreases |parts|
  {
    if |parts| > 1 {
      var n := |parts| - 1;
      JoinIsJoined(parts[..n], separator, Join(parts[..n], separator));
      JoinSnoc(parts[..n], parts[n], separator);
      assert parts[..n] + [parts[n]] == parts;
      if IsJoined(parts, separator, text) {
        var front :| IsJoined(parts[..n], separator, front) && text == front + separator + parts[n];
        JoinIsJoined(parts[..n], separator, front);
      }
    }
  }

  /** `str(n)` of a natural number. */
  function Digits(n: nat): (s: string)
    ensures s != [] && (forall i :: 0 <= i < |s| ==> '0' <= s[i] <= '9')
  {
    if n < 10 then [(0x30 + n) as char] else Digits(n / 10) + [(0x30 + n % 10) as char]
  }
}
