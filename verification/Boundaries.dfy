/** What the text scanners find, stated on the characters. */
module Boundaries {
  import opened Sequences
  import opened Unicode
  import opened Splitting
  import opened Lines

  // ------------------------------------------------------------------ lines

  /** The ten characters that end a line. */
  predicate Breaks(c: char) {
    c in ['\n', '\U{0B}', '\U{0C}', '\r', '\U{1C}', '\U{1D}', '\U{1E}', '\U{85}', '\U{2028}', '\U{2029}']
  }

  /** A line holds no break; it ends with one, a carriage return together with a newline after it, unless the text ends
      there. */
  predicate IsLine(text: string, line: Line) {
    && line.start <= line.stop <= line.end <= |text|
    && (forall p :: line.start <= p < line.stop ==> !Breaks(text[p]))
    && (line.stop == |text| ==> line.end == line.stop)
    && (line.stop < |text| ==>
          && Breaks(text[line.stop])
          && line.end - line.stop == if "\r\n" <= text[line.stop..] then 2 else 1)
  }

  /** Splitting into lines gives such lines only. */
  lemma {:induction false} LinesMean(text: string, i: nat)
    requires i <= |text|
    ensures forall k :: 0 <= k < |LinesFrom(text, i)| ==> IsLine(text, LinesFrom(text, i)[k])
    decreases |text| - i
  {
    if i < |text| {
      var lines := LinesFrom(text, i);
      var rest := LinesFrom(text, lines[0].end);
      FirstLine(text, i);
      LinesMean(text, lines[0].end);
      assert lines == [lines[0]] + rest;
    }
  }

  lemma FirstLine(text: string, i: nat)
    requires i < |text|
    ensures IsLine(text, LinesFrom(text, i)[0])
  {
    var stop := RunEnd(text, NotLineBreak, i, |text|);
    if stop < |text| {
      CrLf(text, stop);
    }
  }

  lemma CrLf(text: string, i: nat)
    requires i < |text|
    ensures "\r\n" <= text[i..] <==> text[i] == '\r' && i + 1 < |text| && text[i + 1] == '\n'
  {
    var rest := text[i..];
    assert rest[0] == text[i] && (|rest| > 1 ==> rest[1] == text[i + 1]);
    if |rest| > 1 {
      assert rest[..2] == [rest[0], rest[1]];
    }
  }

  // ------------------------------------------------------- boundaries of prose

  predicate All(text: string, from: nat, to: nat, inClass: char -> bool)
    requires from <= to <= |text|
  {
    forall k :: from <= k < to ==> inClass(text[k])
  }

  /** A newline, spaces and tabs, then newlines as far as they go. */
  ghost predicate BlankLineAt(text: string, i: nat, end: nat, e: nat)
    requires i < end <= |text|
  {
    && text[i] == '\n' && i < e <= end && (e < end ==> text[e] != '\n')
    && exists j: nat :: i < j < e && BlanksThenNewlines(text, i, j, e)
  }

  predicate BlanksThenNewlines(text: string, i: nat, middle: nat, to: nat)
    requires i < middle <= to <= |text|
  {
    && (forall k :: i < k < middle ==> text[k] == ' ' || text[k] == '\t')
    && (forall k :: middle <= k < to ==> text[k] == '\n')
  }

  /** Space as far as it goes, after a character that ends a sentence. */
  predicate SentenceEndAt(text: string, i: nat, end: nat, e: nat)
    requires i < end <= |text|
  {
    && i > 0 && text[i - 1] in ['.', '!', '?', '\U{2026}'] && i < e <= end
    && All(text, i, e, IsSpace) && (e < end ==> !IsSpace(text[e]))
  }

  /** Space, then at least one other character, as many as there are. */
  ghost predicate WordAt(text: string, i: nat, end: nat, e: nat)
    requires i < end <= |text|
  {
    && i < e <= end && (e < end ==> IsSpace(text[e]))
    && exists j: nat :: i <= j < e && All(text, i, j, IsSpace) && All(text, j, e, c => !IsSpace(c))
  }

  /** The patterns of the three levels match just there. */
  lemma MatchMeans(text: string, i: nat, end: nat, e: nat)
    requires i < end <= |text|
    ensures MatchAt(text, 0, i, end) == Some(e) <==> BlankLineAt(text, i, end, e)
    ensures MatchAt(text, 1, i, end) == Some(e) <==> SentenceEndAt(text, i, end, e)
    ensures MatchAt(text, 2, i, end) == Some(e) <==> WordAt(text, i, end, e)
  {
    BlankLineMeans(text, i, end, e);
    SentenceEndMeans(text, i, end, e);
    WordMeans(text, i, end, e);
  }

  lemma BlankLineMeans(text: string, i: nat, end: nat, e: nat)
    requires i < end <= |text|
    ensures MatchAt(text, 0, i, end) == Some(e) <==> BlankLineAt(text, i, end, e)
  {
    if text[i] == '\n' {
      var j := RunEnd(text, IsBlank, i + 1, end);
      if j < end && text[j] == '\n' {
        var n := RunEnd(text, IsNewline, j, end);
        if e == n {
          assert BlanksThenNewlines(text, i, j, e);
        }
      }
      if BlankLineAt(text, i, end, e) {
        var k: nat :| i < k < e && BlanksThenNewlines(text, i, k, e);
        assert text[k] == '\n';
        assert !IsBlank(text[k]);
        assert j <= k;
      }
    }
  }

  lemma SentenceEndMeans(text: string, i: nat, end: nat, e: nat)
    requires i < end <= |text|
    ensures MatchAt(text, 1, i, end) == Some(e) <==> SentenceEndAt(text, i, end, e)
  {
    var n := RunEnd(text, IsSpace, i, end);
    if SentenceEndAt(text, i, end, e) {
      assert text[i] == text[i] && IsSpace(text[i]);
    }
  }

  lemma WordMeans(text: string, i: nat, end: nat, e: nat)
    requires i < end <= |text|
    ensures MatchAt(text, 2, i, end) == Some(e) <==> WordAt(text, i, end, e)
  {
    var j := RunEnd(text, IsSpace, i, end);
    if j < end && e == RunEnd(text, IsWord, j, end) {
      assert All(text, i, j, IsSpace) && All(text, j, e, c => !IsSpace(c));
    }
    if WordAt(text, i, end, e) {
      var k: nat :| i <= k < e && All(text, i, k, IsSpace) && All(text, k, e, c => !IsSpace(c));
      assert !IsSpace(text[k]);
      assert k == j;
    }
  }
}
