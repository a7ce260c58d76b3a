/** The budgeted text splitter: paragraphs, then sentences, then words, then characters. */
module Splitting {
  import opened Sequences
  import opened Unicode

  type Range = (nat, nat)

  // ---------------------------------------------------------------- budgets

  /** `_within_budget`: at most so many characters and so many UTF-8 bytes. */
  predicate WithinBudget(text: string, maxChars: nat, maxBytes: nat) {
    |text| <= maxChars && Bytes(text) <= maxBytes
  }

  lemma SliceWithin(text: string, lo: nat, from: nat, to: nat, hi: nat, maxChars: nat, maxBytes: nat)
    requires lo <= from <= to <= hi <= |text| && WithinBudget(text[lo..hi], maxChars, maxBytes)
    ensures WithinBudget(text[from..to], maxChars, maxBytes)
  {
    BytesSlice(text, lo, from, to, hi);
  }

  /** A character that no piece can hold. */
  ghost predicate TooWide(text: string, lo: nat, hi: nat, maxBytes: nat)
    requires lo <= hi <= |text|
  {
    exists i :: lo <= i < hi && CharBytes(text[i]) > maxBytes
  }

  lemma TooWideExceeds(text: string, lo: nat, hi: nat, maxBytes: nat)
    requires lo <= hi <= |text| && TooWide(text, lo, hi, maxBytes)
    ensures Bytes(text[lo..hi]) > maxBytes
  {
    var i :| lo <= i < hi && CharBytes(text[i]) > maxBytes;
    BytesSlice(text, lo, i, i + 1, hi);
    assert text[i..i + 1] == [text[i]];
  }

  lemma TooWideSplit(text: string, lo: nat, mid: nat, hi: nat, maxBytes: nat)
    requires lo <= mid <= hi <= |text|
    ensures TooWide(text, lo, hi, maxBytes) <==> TooWide(text, lo, mid, maxBytes) || TooWide(text, mid, hi, maxBytes)
    ensures !TooWide(text, lo, lo, maxBytes)
  {
  }

  lemma NoneTooWide(text: string, lo: nat, hi: nat, maxChars: nat, maxBytes: nat)
    requires lo <= hi <= |text| && WithinBudget(text[lo..hi], maxChars, maxBytes)
    ensures !TooWide(text, lo, hi, maxBytes)
  {
    if TooWide(text, lo, hi, maxBytes) {
      TooWideExceeds(text, lo, hi, maxBytes);
    }
  }

  // ---------------------------------------------------------------- tilings

  /** Non-empty ranges that follow each other without gap from `lo` to `hi`. */
  ghost predicate Tiles(ranges: seq<Range>, lo: nat, hi: nat) {
    && (forall i :: 0 <= i < |ranges| ==> ranges[i].0 < ranges[i].1)
    && (forall i :: 0 <= i < |ranges| - 1 ==> ranges[i].1 == ranges[i + 1].0)
    && (if ranges == [] then lo == hi else ranges[0].0 == lo && ranges[|ranges| - 1].1 == hi)
  }

  lemma TilesConcat(a: seq<Range>, b: seq<Range>, lo: nat, mid: nat, hi: nat)
    requires Tiles(a, lo, mid) && Tiles(b, mid, hi)
    ensures Tiles(a + b, lo, hi)
  {
    var c := a + b;
    forall i | 0 <= i < |c| - 1 ensures c[i].1 == c[i + 1].0 {
    }
  }

  lemma OneTile(lo: nat, hi: nat)
    requires lo < hi
    ensures Tiles([(lo, hi)], lo, hi) && Tiles([], lo, lo)
  {
  }

  lemma {:induction false} TilesOrdered(ranges: seq<Range>, lo: nat, hi: nat)
    requires Tiles(ranges, lo, hi)
    ensures lo <= hi && forall i :: 0 <= i < |ranges| ==> lo <= ranges[i].0 && ranges[i].1 <= hi
    decreases |ranges|
  {
    if ranges != [] {
      assert Tiles(ranges[1..], ranges[0].1, hi);
      TilesOrdered(ranges[1..], ranges[0].1, hi);
      forall i | 0 <= i < |ranges| ensures lo <= ranges[i].0 && ranges[i].1 <= hi {
        if i > 0 { assert ranges[i] == ranges[1..][i - 1]; }
      }
    }
  }

  /** Laid end to end, the pieces of a tiling are the text. */
  function Pieces(text: string, ranges: seq<Range>): string
    requires forall i :: 0 <= i < |ranges| ==> ranges[i].0 <= ranges[i].1 <= |text|
  {
    if ranges == [] then "" else text[ranges[0].0..ranges[0].1] + Pieces(text, ranges[1..])
  }

  lemma {:induction false} TilingLosesNothing(text: string, ranges: seq<Range>, lo: nat, hi: nat)
    requires Tiles(ranges, lo, hi) && hi <= |text|
    ensures lo <= hi && forall i :: 0 <= i < |ranges| ==> ranges[i].0 <= ranges[i].1 <= |text|
    ensures Pieces(text, ranges) == text[lo..hi]
    decreases |ranges|
  {
    TilesOrdered(ranges, lo, hi);
    if ranges != [] {
      assert Tiles(ranges[1..], ranges[0].1, hi);
      TilingLosesNothing(text, ranges[1..], ranges[0].1, hi);
    }
  }

  // --------------------------------------------------------------- scanners

  /** End of the run of characters of a class that starts at `i`. */
  function RunEnd(text: string, inClass: char -> bool, i: nat, end: nat): (r: nat)
    requires i <= end <= |text|
    ensures i <= r <= end && (forall k :: i <= k < r ==> inClass(text[k])) && (r == end || !inClass(text[r]))
    decreases end - i
  {
    if i == end || !inClass(text[i]) then i else RunEnd(text, inClass, i + 1, end)
  }

  predicate IsBlank(c: char) { c == ' ' || c == '\t' }
  predicate IsNewline(c: char) { c == '\n' }
  predicate IsWord(c: char) { !IsSpace(c) }
  predicate EndsSentence(c: char) { c == '.' || c == '!' || c == '?' || c == '\U{2026}' }

  /** End of the match of the level's pattern at `i`, if it matches there: a blank line, the space after
      a sentence, or a word with the space before it. */
  function MatchAt(text: string, level: nat, i: nat, end: nat): (r: Option<nat>)
    requires i < end <= |text|
    ensures r.Some? ==> i < r.value <= end
  {
    if level == 0 then
      if text[i] != '\n' then None
      else
        var j := RunEnd(text, IsBlank, i + 1, end);
        if j < end && text[j] == '\n' then Some(RunEnd(text, IsNewline, j, end)) else None
    else if level == 1 then
      if i > 0 && EndsSentence(text[i - 1]) && IsSpace(text[i]) then Some(RunEnd(text, IsSpace, i, end)) else None
    else
      var j := RunEnd(text, IsSpace, i, end);
      if j < end then Some(RunEnd(text, IsWord, j, end)) else None
  }

  /** The leftmost match at or after `i`. */
  function Find(text: string, level: nat, i: nat, end: nat): (r: Option<Range>)
    requires i <= end <= |text|
    ensures r.Some? ==> i <= r.value.0 < r.value.1 <= end && MatchAt(text, level, r.value.0, end) == Some(r.value.1)
    ensures forall k :: i <= k < (if r.Some? then r.value.0 else end) ==> MatchAt(text, level, k, end).None?
    decreases end - i
  {
    if i == end then None
    else if MatchAt(text, level, i, end).Some? then Some((i, MatchAt(text, level, i, end).value))
    else Find(text, level, i + 1, end)
  }

  /** Words follow each other without gap: if one matches later, one matches here. */
  lemma WordsAdjoin(text: string, i: nat, end: nat)
    requires i < end <= |text|
    ensures Find(text, 2, i, end).Some? ==> Find(text, 2, i, end).value.0 == i
  {
    var m := Find(text, 2, i, end);
    if m.Some? {
      var j := RunEnd(text, IsSpace, m.value.0, end);
      assert MatchAt(text, 2, i, end).Some?;
    }
  }

  /** The range from `i` cut after every match. */
  function CutsFrom(text: string, level: nat, i: nat, end: nat): seq<Range>
    requires i <= end <= |text|
    decreases end - i
  {
    var m := Find(text, level, i, end);
    if m.Some? then [(i, m.value.1)] + CutsFrom(text, level, m.value.1, end)
    else if level < 2 && i < end then [(i, end)]
    else []
  }

  /** The units of a level; among words, what follows the last one belongs to it. */
  function UnitsOf(text: string, level: nat, start: nat, end: nat): seq<Range>
    requires start <= end <= |text|
  {
    var cuts := CutsFrom(text, level, start, end);
    if level == 2 && cuts != [] then cuts[|cuts| - 1 := (cuts[|cuts| - 1].0, end)] else cuts
  }

  /** Cutting after every match leaves no gap. */
  lemma {:induction false} CutsTile(text: string, level: nat, i: nat, end: nat)
    requires i <= end <= |text|
    ensures var cuts := CutsFrom(text, level, i, end);
            && (cuts != [] ==> cuts[|cuts| - 1].1 <= end && Tiles(cuts, i, cuts[|cuts| - 1].1))
            && (level < 2 ==> Tiles(cuts, i, end))
    decreases end - i
  {
    hide Find;
    var m := Find(text, level, i, end);
    if m.Some? {
      var rest := CutsFrom(text, level, m.value.1, end);
      CutsTile(text, level, m.value.1, end);
      OneTile(i, m.value.1);
      if rest != [] {
        TilesConcat([(i, m.value.1)], rest, i, m.value.1, rest[|rest| - 1].1);
      }
    }
  }

  /** The units are a tiling, except that blank text has no words. */
  lemma UnitsTile(text: string, level: nat, start: nat, end: nat)
    requires start <= end <= |text| && level < 3
    ensures Tiles(UnitsOf(text, level, start, end), start, end) || (level == 2
            && UnitsOf(text, level, start, end) == [])
  {
    CutsTile(text, level, start, end);
    var cuts := CutsFrom(text, level, start, end);
    if level == 2 && cuts != [] {
      var n := |cuts| - 1;
      assert cuts == cuts[..n] + [cuts[n]] && UnitsOf(text, level, start, end) == cuts[..n] + [(cuts[n].0, end)];
      TilesWiden(cuts[..n], cuts[n], start, cuts[n].1, end);
    }
  }

  lemma CutOnce(text: string, level: nat, units: seq<Range>, i: nat, end: nat)
    requires i <= end <= |text|
    ensures var m := Find(text, level, i, end);
            units + CutsFrom(text, level, i, end) ==
            if m.Some? then units + [(i, m.value.1)] + CutsFrom(text, level, m.value.1, end)
            else if level < 2 && i < end then units + [(i, end)]
            else units
  {
    hide Find;
    var m := Find(text, level, i, end);
    var cuts := CutsFrom(text, level, i, end);
    if m.Some? {
      var rest := CutsFrom(text, level, m.value.1, end);
      assert cuts == [(i, m.value.1)] + rest;
      assert units + cuts == units + [(i, m.value.1)] + rest;
    }
  }

  /** `_units`: the range cut at every match; for words possibly nothing at all. */
  method Units(text: string, start: nat, end: nat, level: nat) returns (units: seq<Range>)
    requires start < end <= |text| && level < 3
    ensures units == UnitsOf(text, level, start, end)
    ensures Tiles(units, start, end) || (level == 2 && units == [])
  {
    hide Find, Tiles, CutsFrom;
    units := [];
    assert units + CutsFrom(text, level, start, end) == CutsFrom(text, level, start, end);
    var cursor := start;
    var m := Find(text, level, cursor, end);
    while m.Some?
      invariant start <= cursor <= end && m == Find(text, level, cursor, end)
      invariant units + CutsFrom(text, level, cursor, end) == CutsFrom(text, level, start, end)
      invariant units != [] ==> units[|units| - 1].1 == cursor
      decreases end - cursor
    {
      CutOnce(text, level, units, cursor, end);
      if level == 2 {
        WordsAdjoin(text, cursor, end);
        units := units + [m.value];
      } else {
        units := units + [(cursor, m.value.1)];
      }
      cursor := m.value.1;
      m := Find(text, level, cursor, end);
    }
    CutOnce(text, level, units, cursor, end);
    if level == 2 {
      if units != [] && cursor < end {
        var last := |units| - 1;
        units := units[last := (units[last].0, end)];
      }
    } else if cursor < end {
      units := units + [(cursor, end)];
    }
    UnitsTile(text, level, start, end);
  }

  // --------------------------------------------------------------- splitting

  ghost predicate AllWithin(text: string, ranges: seq<Range>, maxChars: nat, maxBytes: nat) {
    forall i :: 0 <= i < |ranges| ==> ranges[i].0 <= ranges[i].1 <= |text|
                                      && WithinBudget(text[ranges[i].0..ranges[i].1], maxChars, maxBytes)
  }

  /** Every piece but the last is as long as the budget allows. */
  ghost predicate Maximal(text: string, ranges: seq<Range>, end: nat, maxChars: nat, maxBytes: nat) {
    forall i :: 0 <= i < |ranges| && ranges[i].1 < end ==>
      ranges[i].0 <= ranges[i].1 < |text| && !WithinBudget(text[ranges[i].0..ranges[i].1 + 1], maxChars, maxBytes)
  }

  /** The longest prefix of a range that fits, found by shrinking from the character limit. */
  method LongestPrefix(text: string, cursor: nat, end: nat, maxChars: nat, maxBytes: nat) returns (pieceEnd: nat)
    requires cursor < end <= |text| && 1 <= maxChars
    ensures cursor <= pieceEnd <= end && WithinBudget(text[cursor..pieceEnd], maxChars, maxBytes)
    ensures pieceEnd < end ==> !WithinBudget(text[cursor..pieceEnd + 1], maxChars, maxBytes)
    ensures pieceEnd == cursor <==> CharBytes(text[cursor]) > maxBytes
  {
    pieceEnd := if end < cursor + maxChars then end else cursor + maxChars;
    while pieceEnd > cursor && Bytes(text[cursor..pieceEnd]) > maxBytes
      invariant cursor <= pieceEnd <= end && pieceEnd <= cursor + maxChars
      invariant pieceEnd < end ==> !WithinBudget(text[cursor..pieceEnd + 1], maxChars, maxBytes)
      invariant cursor < pieceEnd || CharBytes(text[cursor]) > maxBytes
    {
      pieceEnd := pieceEnd - 1;
      OneCharacter(text, cursor);
    }
    assert text[cursor..cursor] == [];
    OneCharacter(text, cursor);
    if pieceEnd > cursor {
      BytesSlice(text, cursor, cursor, cursor + 1, pieceEnd);
    }
  }

  lemma OneCharacter(text: string, i: nat)
    requires i < |text|
    ensures Bytes(text[i..i + 1]) == CharBytes(text[i])
  {
    assert text[i..i + 1] == [text[i]];
    assert Bytes([text[i]]) == CharBytes(text[i]) + Bytes([]);
  }

  /** The character level of `_split_range`. */
  method SplitCharacters(text: string, start: nat, end: nat, maxChars: nat, maxBytes: nat)
    returns (r: Result<seq<Range>>)
    requires start <= end <= |text| && 1 <= maxChars
    ensures r.Ok? ==> && Tiles(r.value, start, end) && AllWithin(text, r.value, maxChars, maxBytes)
                      && Maximal(text, r.value, end, maxChars, maxBytes)
    ensures r.Err? <==> TooWide(text, start, end, maxBytes)
  {
    hide Tiles, TooWide, WithinBudget;
    var pieces: seq<Range> := [];
    var cursor := start;
    TooWideSplit(text, start, start, end, maxBytes);
    if start < end { OneTile(start, end); }
    while cursor < end
      invariant start <= cursor <= end && (pieces != [] ==>
                    Tiles(pieces, start, cursor)) && (pieces == [] ==> cursor == start)
      invariant AllWithin(text, pieces, maxChars, maxBytes) && Maximal(text, pieces, end, maxChars, maxBytes)
      invariant !TooWide(text, start, cursor, maxBytes)
    {
      var pieceEnd := LongestPrefix(text, cursor, end, maxChars, maxBytes);
      if pieceEnd == cursor {
        WideHere(text, start, cursor, end, maxBytes);
        return Err(Invalid);
      }
      NoneTooWide(text, cursor, pieceEnd, maxChars, maxBytes);
      TooWideSplit(text, start, cursor, pieceEnd, maxBytes);
      OneTile(cursor, pieceEnd);
      OneTile(start, end);
      TilesConcat(pieces, [(cursor, pieceEnd)], start, cursor, pieceEnd);
      pieces := pieces + [(cursor, pieceEnd)];
      cursor := pieceEnd;
    }
    NoTiles(start);
    return Ok(pieces);
  }

  lemma NoTiles(lo: nat)
    ensures Tiles([], lo, lo)
  {
  }

  lemma WideHere(text: string, start: nat, i: nat, end: nat, maxBytes: nat)
    requires start <= i < end <= |text| && CharBytes(text[i]) > maxBytes
    ensures TooWide(text, start, end, maxBytes)
  {
  }

  /** The pieces that lie inside a unit. */
  function Inside(pieces: seq<Range>, u: Range): seq<Range> {
    if pieces == [] then []
    else (if u.0 <= pieces[0].0 && pieces[0].1 <= u.1 then [pieces[0]] else []) + Inside(pieces[1..], u)
  }

  /** What a split must be, by level: a range that fits stays whole; otherwise its units are packed
      greedily, and a range with a single unit is left to the next level. The last level cuts pieces as
      long as possible. */
  ghost predicate Split(text: string, start: nat, end: nat, maxChars: nat, maxBytes: nat, level: nat,
                        pieces: seq<Range>)
    requires start <= end <= |text| && level <= 3
    decreases 3 - level, 0
  {
    if WithinBudget(text[start..end], maxChars, maxBytes) then pieces == [(start, end)]
    else
      && Tiles(pieces, start, end) && AllWithin(text, pieces, maxChars, maxBytes)
      && if level == 3 then Maximal(text, pieces, end, maxChars, maxBytes)
         else if |UnitsOf(text, level, start, end)| <= 1 then Split(text, start, end, maxChars, maxBytes, level + 1,
             pieces)
         else Packing(text, UnitsOf(text, level, start, end), maxChars, maxBytes, level + 1, pieces)
  }

  /** Units that fit are packed greedily and never broken; each of the others is split at the next level. */
  ghost predicate Packing(text: string, units: seq<Range>, maxChars: nat, maxBytes: nat, nextLevel: nat,
                          pieces: seq<Range>)
    requires nextLevel <= 3
    decreases 3 - nextLevel, 1
  {
    Greedy(text, units, pieces, maxChars, maxBytes) && OthersSplit(text, units, |units|, maxChars, maxBytes,
        nextLevel, pieces)
  }

  ghost predicate OthersSplit(text: string, units: seq<Range>, upTo: nat, maxChars: nat, maxBytes: nat, nextLevel: nat,
                              pieces: seq<Range>)
    requires nextLevel <= 3 && upTo <= |units|
    decreases 3 - nextLevel, 1, 0
  {
    forall k :: 0 <= k < upTo && !Fits(text, units[k], maxChars, maxBytes) ==>
      && units[k].0 <= units[k].1 <= |text|
      && Split(text, units[k].0, units[k].1, maxChars, maxBytes, nextLevel, Inside(pieces, units[k]))
  }

  lemma LastLevelIsMaximal(text: string, start: nat, end: nat, maxChars: nat, maxBytes: nat, pieces: seq<Range>)
    requires start <= end <= |text| && Split(text, start, end, maxChars, maxBytes, 3, pieces)
    ensures Maximal(text, pieces, end, maxChars, maxBytes)
  {
    hide WithinBudget;
  }

  /** `_split_range`: an ordered, gap-free partition into pieces within both budgets, made the way the
      levels prescribe. It fails exactly when some character alone exceeds the byte budget. */
  method SplitRange(text: string, start: nat, end: nat, maxChars: nat, maxBytes: nat, level: nat)
    returns (r: Result<seq<Range>>)
    requires start <= end <= |text| && 1 <= maxChars && level <= 3
    ensures r.Ok? ==> AllWithin(text, r.value, maxChars, maxBytes)
    ensures r.Ok? ==> if start == end then r.value == [(start, end)] else Tiles(r.value, start, end)
    ensures r.Err? <==> TooWide(text, start, end, maxBytes)
    ensures r.Ok? ==> Split(text, start, end, maxChars, maxBytes, level, r.value)
    decreases 3 - level, 1
  {
    hide TooWide, WithinBudget, Split, UnitsOf;
    if WithinBudget(text[start..end], maxChars, maxBytes) {
      NoneTooWide(text, start, end, maxChars, maxBytes);
      StaysWhole(text, start, end, maxChars, maxBytes, level);
      return Ok([(start, end)]);
    }
    EmptyFits(text, start, maxChars, maxBytes);
    if level < 3 {
      var units := Units(text, start, end, level);
      if |units| > 1 {
        r := PackUnits(text, units, start, end, maxChars, maxBytes, level + 1);
      } else {
        r := SplitRange(text, start, end, maxChars, maxBytes, level + 1);
      }
    } else {
      r := SplitCharacters(text, start, end, maxChars, maxBytes);
    }
    if r.Ok? {
      SplitStep(text, start, end, maxChars, maxBytes, level, r.value);
    }
  }

  lemma EmptyFits(text: string, start: nat, maxChars: nat, maxBytes: nat)
    requires start <= |text|
    ensures WithinBudget(text[start..start], maxChars, maxBytes)
  {
  }

  lemma StaysWhole(text: string, start: nat, end: nat, maxChars: nat, maxBytes: nat, level: nat)
    requires start <= end <= |text| && level <= 3 && WithinBudget(text[start..end], maxChars, maxBytes)
    ensures Split(text, start, end, maxChars, maxBytes, level, [(start, end)])
  {
  }

  lemma SplitStep(text: string, start: nat, end: nat, maxChars: nat, maxBytes: nat, level: nat, pieces: seq<Range>)
    requires start <= end <= |text| && level <= 3 && !WithinBudget(text[start..end], maxChars, maxBytes)
    requires Tiles(pieces, start, end) && AllWithin(text, pieces, maxChars, maxBytes)
    requires if level == 3 then Maximal(text, pieces, end, maxChars, maxBytes)
             else if |UnitsOf(text, level, start, end)| <= 1
               then Split(text, start, end, maxChars, maxBytes, level + 1, pieces)
             else Packing(text, UnitsOf(text, level, start, end), maxChars, maxBytes, level + 1, pieces)
    ensures Split(text, start, end, maxChars, maxBytes, level, pieces)
  {
    hide Tiles, AllWithin, WithinBudget, Maximal, UnitsOf, Packing;
  }

  predicate Fits(text: string, u: Range, maxChars: nat, maxBytes: nat) {
    u.0 <= u.1 <= |text| && WithinBudget(text[u.0..u.1], maxChars, maxBytes)
  }

  /** No piece starts within a unit that fits; and a unit that fits, after one that fits, starts a piece
      only if the piece before could not take it. */
  ghost predicate Greedy(text: string, units: seq<Range>, pieces: seq<Range>, maxChars: nat, maxBytes: nat) {
    && Unbroken(text, units, pieces, maxChars, maxBytes)
    && (forall j, k :: && 0 < j < |pieces| && 0 < k < |units| && pieces[j].0 == units[k].0
                       && Fits(text, units[k - 1], maxChars, maxBytes) && Fits(text, units[k], maxChars, maxBytes) ==>
          !Fits(text, (pieces[j - 1].0, units[k].1), maxChars, maxBytes))
  }

  ghost predicate Unbroken(text: string, units: seq<Range>, pieces: seq<Range>, maxChars: nat, maxBytes: nat) {
    forall j, k :: 0 <= j < |pieces| && 0 <= k < |units| && Fits(text, units[k], maxChars, maxBytes) ==>
      !(units[k].0 < pieces[j].0 < units[k].1)
  }

  lemma {:induction false} TilesIncrease(units: seq<Range>, lo: nat, hi: nat, i: nat, j: nat)
    requires Tiles(units, lo, hi) && i < j < |units|
    ensures units[i].1 <= units[j].0
    decreases j - i
  {
    assert units[i].1 == units[i + 1].0;
    if i + 1 < j {
      TilesIncrease(units, lo, hi, i + 1, j);
    }
  }

  /** A position belongs to one unit only. */
  lemma StartInside(units: seq<Range>, lo: nat, hi: nat, k: nat, p: nat)
    requires Tiles(units, lo, hi) && k < |units| && units[k].0 <= p < units[k].1
    ensures forall i :: 0 <= i < |units| && units[i].0 <= p < units[i].1 ==> i == k
  {
    forall i | 0 <= i < |units| && units[i].0 <= p < units[i].1 ensures i == k {
      if i < k {
        TilesIncrease(units, lo, hi, i, k);
      } else if k < i {
        TilesIncrease(units, lo, hi, k, i);
      }
    }
  }

  /** Appending a piece that starts at the unit in hand, when the piece before could not take it. */
  lemma GreedyStart(text: string, units: seq<Range>, lo: nat, hi: nat, pieces: seq<Range>, k: nat,
                    maxChars: nat, maxBytes: nat)
    requires Tiles(units, lo, hi) && k < |units| && Greedy(text, units, pieces, maxChars, maxBytes)
    requires || pieces == [] || (k > 0 && !Fits(text, units[k - 1], maxChars, maxBytes))
             || !Fits(text, (pieces[|pieces| - 1].0, units[k].1), maxChars, maxBytes)
    ensures Greedy(text, units, pieces + [units[k]], maxChars, maxBytes)
  {
    hide Fits;
    StartInside(units, lo, hi, k, units[k].0);
    UnitsNonEmpty(units, lo, hi);
  }

  /** Appending the pieces of a unit that does not fit. */
  lemma GreedySplit(text: string, units: seq<Range>, lo: nat, hi: nat, pieces: seq<Range>, k: nat, more: seq<Range>,
                    maxChars: nat, maxBytes: nat)
    requires Tiles(units, lo, hi) && k < |units| && Greedy(text, units, pieces, maxChars, maxBytes)
    requires Tiles(more, units[k].0, units[k].1) && !Fits(text, units[k], maxChars, maxBytes)
    ensures Greedy(text, units, pieces + more, maxChars, maxBytes)
  {
    hide Fits;
    TilesOrdered(more, units[k].0, units[k].1);
    UnitsNonEmpty(units, lo, hi);
    UnitsNonEmpty(more, units[k].0, units[k].1);
    forall j, i | |pieces| <= j < |pieces + more| && 0 <= i < |units| && units[i].0 <= (pieces + more)[j].0 < units[i].1
      ensures i == k
    {
      StartInside(units, lo, hi, k, (pieces + more)[j].0);
    }
  }

  /** Only the starts of pieces matter. */
  lemma GreedyExtend(text: string, units: seq<Range>, pieces: seq<Range>, a: Range, b: Range, maxChars: nat,
                     maxBytes: nat)
    requires Greedy(text, units, pieces + [a], maxChars, maxBytes) && a.0 == b.0
    ensures Greedy(text, units, pieces + [b], maxChars, maxBytes)
  {
    hide Fits;
    var x, y := pieces + [a], pieces + [b];
    forall j | 0 <= j < |y| ensures y[j].0 == x[j].0 {
    }
  }

  function Open(current: Option<Range>): seq<Range> {
    if current.Some? then [current.value] else []
  }

  lemma AllWithinConcat(text: string, a: seq<Range>, b: seq<Range>, maxChars: nat, maxBytes: nat)
    requires AllWithin(text, a, maxChars, maxBytes) && AllWithin(text, b, maxChars, maxBytes)
    ensures AllWithin(text, a + b, maxChars, maxBytes)
  {
    hide WithinBudget;
  }

  /** What is packed so far: closed pieces and the one still open cover everything seen. */
  ghost predicate Packed(text: string, units: seq<Range>, pieces: seq<Range>, current: Option<Range>, start: nat,
                         done: nat,
                         maxChars: nat, maxBytes: nat)
  {
    && start <= done <= |text| && Tiles(pieces + Open(current), start, done)
    && AllWithin(text, pieces + Open(current), maxChars, maxBytes)
    && Greedy(text, units, pieces + Open(current), maxChars, maxBytes)
    && (current.Some? ==> current.value.0 < current.value.1 == done) && !TooWide(text, start, done, maxBytes)
  }

  /** Appending the unit in hand, which fits, as a piece of its own. */
  lemma PackStart(text: string, units: seq<Range>, start: nat, end: nat, k: nat, all: seq<Range>, maxChars: nat,
                  maxBytes: nat)
    requires Tiles(units, start, end) && end <= |text| && k < |units|
    requires Packed(text, units, all, None, start, units[k].0, maxChars, maxBytes)
             && Fits(text, units[k], maxChars, maxBytes)
    requires || all == [] || (k > 0 && !Fits(text, units[k - 1], maxChars, maxBytes))
             || !Fits(text, (all[|all| - 1].0, units[k].1), maxChars, maxBytes)
    ensures Packed(text, units, all, Some(units[k]), start, units[k].1, maxChars, maxBytes)
  {
    hide WithinBudget, TooWide, Greedy, Tiles, AllWithin;
    var u := units[k];
    UnitNonEmpty(units, start, end, k);
    assert all + Open(None) == all && all + Open(Some(u)) == all + [u];
    OneTile(u.0, u.1);
    assert [u] == [(u.0, u.1)];
    TilesConcat(all, [u], start, u.0, u.1);
    NoneTooWide(text, u.0, u.1, maxChars, maxBytes);
    TooWideSplit(text, start, u.0, u.1, maxBytes);
    OneWithin(text, u, maxChars, maxBytes);
    AllWithinConcat(text, all, [u], maxChars, maxBytes);
    GreedyStart(text, units, start, end, all, k, maxChars, maxBytes);
  }

  lemma OneWithin(text: string, u: Range, maxChars: nat, maxBytes: nat)
    requires Fits(text, u, maxChars, maxBytes)
    ensures AllWithin(text, [u], maxChars, maxBytes)
  {
  }

  /** The unit in hand joins the open piece. */
  lemma PackJoin(text: string, units: seq<Range>, start: nat, end: nat, k: nat, pieces: seq<Range>, last: Range,
                 maxChars: nat, maxBytes: nat)
    requires Tiles(units, start, end) && end <= |text| && k < |units|
    requires Packed(text, units, pieces, Some(last), start, units[k].0, maxChars, maxBytes)
    requires Fits(text, units[k], maxChars, maxBytes) && Fits(text, (last.0, units[k].1), maxChars, maxBytes)
    ensures Packed(text, units, pieces, Some((last.0, units[k].1)), start, units[k].1, maxChars, maxBytes)
  {
    hide WithinBudget, TooWide, Greedy, Tiles, AllWithin;
    var u := units[k];
    UnitNonEmpty(units, start, end, k);
    assert pieces + Open(Some(last)) == pieces + [last];
    TilesWiden(pieces, last, start, u.0, u.1);
    NoneTooWide(text, u.0, u.1, maxChars, maxBytes);
    TooWideSplit(text, start, u.0, u.1, maxBytes);
    FrontWithin(text, pieces, last, maxChars, maxBytes);
    OneWithin(text, (last.0, u.1), maxChars, maxBytes);
    AllWithinConcat(text, pieces, [(last.0, u.1)], maxChars, maxBytes);
    GreedyExtend(text, units, pieces, last, (last.0, u.1), maxChars, maxBytes);
  }

  lemma FrontWithin(text: string, pieces: seq<Range>, last: Range, maxChars: nat, maxBytes: nat)
    requires AllWithin(text, pieces + [last], maxChars, maxBytes)
    ensures AllWithin(text, pieces, maxChars, maxBytes)
  {
    hide WithinBudget;
    assert forall i :: 0 <= i < |pieces| ==> pieces[i] == (pieces + [last])[i];
  }

  /** A closed piece is a piece like the others. */
  lemma PackClosed(text: string, units: seq<Range>, pieces: seq<Range>, last: Range, start: nat, done: nat,
                   maxChars: nat, maxBytes: nat)
    requires Packed(text, units, pieces, Some(last), start, done, maxChars, maxBytes)
    ensures Packed(text, units, pieces + [last], None, start, done, maxChars, maxBytes)
  {
    hide TooWide, Greedy, Tiles, AllWithin;
    assert pieces + [last] + Open(None) == pieces + Open(Some(last));
  }

  /** A unit that fits: it joins the open piece, or opens the next. */
  lemma PackFitting(text: string, units: seq<Range>, start: nat, end: nat, k: nat, pieces: seq<Range>,
                    current: Option<Range>, maxChars: nat, maxBytes: nat)
    requires Tiles(units, start, end) && end <= |text| && k < |units|
    requires Packed(text, units, pieces, current, start, units[k].0, maxChars, maxBytes)
    requires Fits(text, units[k], maxChars, maxBytes)
    requires current.None? ==> pieces == [] || (k > 0 && !Fits(text, units[k - 1], maxChars, maxBytes))
    ensures current.None? ==> Packed(text, units, pieces, Some(units[k]), start, units[k].1, maxChars, maxBytes)
    ensures current.Some? && Fits(text, (current.value.0, units[k].1), maxChars, maxBytes) ==>
              Packed(text, units, pieces, Some((current.value.0, units[k].1)), start, units[k].1, maxChars, maxBytes)
    ensures current.Some? && !Fits(text, (current.value.0, units[k].1), maxChars, maxBytes) ==>
              Packed(text, units, pieces + [current.value], Some(units[k]), start, units[k].1, maxChars, maxBytes)
  {
    hide Packed, Fits, Tiles;
    if current.None? {
      PackStart(text, units, start, end, k, pieces, maxChars, maxBytes);
    } else if Fits(text, (current.value.0, units[k].1), maxChars, maxBytes) {
      PackJoin(text, units, start, end, k, pieces, current.value, maxChars, maxBytes);
    } else {
      PackClosed(text, units, pieces, current.value, start, units[k].0, maxChars, maxBytes);
      assert (pieces + [current.value])[|pieces|] == current.value;
      PackStart(text, units, start, end, k, pieces + [current.value], maxChars, maxBytes);
    }
  }

  lemma UnitsNonEmpty(units: seq<Range>, start: nat, end: nat)
    requires Tiles(units, start, end)
    ensures forall k :: 0 <= k < |units| ==> units[k].0 < units[k].1
  {
  }

  lemma UnitNonEmpty(units: seq<Range>, start: nat, end: nat, k: nat)
    requires Tiles(units, start, end) && k < |units|
    ensures units[k].0 < units[k].1 && (k + 1 < |units| ==> units[k].1 == units[k + 1].0)
    ensures k + 1 == |units| ==> units[k].1 == end
  {
  }

  lemma TilesWiden(pieces: seq<Range>, last: Range, lo: nat, mid: nat, hi: nat)
    requires Tiles(pieces + [last], lo, mid) && mid <= hi
    ensures Tiles(pieces + [(last.0, hi)], lo, hi)
  {
    var x, y := pieces + [last], pieces + [(last.0, hi)];
    assert x[|pieces|] == last;
    forall i | 0 <= i < |y| ensures y[i].0 == x[i].0 && (i < |pieces| ==> y[i] == x[i]) {
    }
    forall i | 0 <= i < |y| - 1 ensures y[i].1 == y[i + 1].0 {
      assert x[i].1 == x[i + 1].0;
    }
  }

  /** A unit that does not fit: the open piece is closed and the unit's own pieces follow. */
  lemma PackSplit(text: string, units: seq<Range>, start: nat, end: nat, k: nat, pieces: seq<Range>,
                  current: Option<Range>, more: seq<Range>, maxChars: nat, maxBytes: nat)
    requires Tiles(units, start, end) && end <= |text| && k < |units|
    requires Packed(text, units, pieces, current, start, units[k].0, maxChars, maxBytes)
    requires !Fits(text, units[k], maxChars, maxBytes) && Tiles(more, units[k].0, units[k].1)
    requires AllWithin(text, more, maxChars, maxBytes) && units[k].0 <= units[k].1 <= |text|
    requires !TooWide(text, units[k].0, units[k].1, maxBytes)
    ensures Packed(text, units, pieces + Open(current) + more, None, start, units[k].1, maxChars, maxBytes)
  {
    hide WithinBudget, TooWide, Greedy, Tiles, AllWithin, Fits;
    var all := pieces + Open(current);
    TooWideSplit(text, start, units[k].0, units[k].1, maxBytes);
    TilesConcat(all, more, start, units[k].0, units[k].1);
    AllWithinConcat(text, all, more, maxChars, maxBytes);
    GreedySplit(text, units, start, end, all, k, more, maxChars, maxBytes);
    assert all + more + Open(None) == all + more;
  }

  /** `_pack_units`: neighbouring units that fit together share a piece, greedily; an oversized unit is
      split at the next level. */
  method PackUnits(text: string, units: seq<Range>, ghost start: nat, ghost end: nat, maxChars: nat, maxBytes: nat,
                   nextLevel: nat)
    returns (r: Result<seq<Range>>)
    requires start <= end && Tiles(units, start, end) && end <= |text| && 1 <= maxChars && 1 <= nextLevel <= 3
    ensures r.Ok? ==> && Tiles(r.value, start, end) && AllWithin(text, r.value, maxChars, maxBytes)
                      && Packing(text, units, maxChars, maxBytes, nextLevel, r.value)
    ensures r.Err? <==> TooWide(text, start, end, maxBytes)
    decreases 3 - nextLevel, 2
  {
    hide WithinBudget, TooWide, Greedy, Tiles, AllWithin, Split, OthersSplit;
    NoneSplit(text, units, maxChars, maxBytes, nextLevel);
    TilesOrdered(units, start, end);
    var pieces: seq<Range> := [];
    var current: Option<Range> := None;
    PackNothing(text, units, start, maxChars, maxBytes);
    if units == [] {
      NoUnits(start, end);
    } else {
      FirstUnit(units, start, end);
    }
    for k := 0 to |units|
      invariant Packed(text, units, pieces, current, start, if k < |units| then units[k].0 else end, maxChars, maxBytes)
      invariant current.None? ==> pieces == [] || (k > 0 && !Fits(text, units[k - 1], maxChars, maxBytes))
      invariant current.Some? ==> k > 0 && Fits(text, units[k - 1], maxChars, maxBytes)
      invariant OthersSplit(text, units, k, maxChars, maxBytes, nextLevel, pieces)
    {
      ClosingKeeps(text, units, start, end, k, pieces, current, maxChars, maxBytes, nextLevel);
      var unit := units[k];
      UnitNonEmpty(units, start, end, k);
      if !WithinBudget(text[unit.0..unit.1], maxChars, maxBytes) {
        var split := SplitRange(text, unit.0, unit.1, maxChars, maxBytes, nextLevel);
        TooWideSplit(text, start, unit.0, unit.1, maxBytes);
        TooWideSplit(text, start, unit.1, end, maxBytes);
        if split.Err? {
          return split;
        }
        PackSplit(text, units, start, end, k, pieces, current, split.value, maxChars, maxBytes);
        OneMoreSplit(text, units, start, end, k, pieces + Open(current), split.value, maxChars, maxBytes, nextLevel);
        pieces := pieces + Open(current) + split.value;
        current := None;
      } else {
        PackFitting(text, units, start, end, k, pieces, current, maxChars, maxBytes);
        NoneMoreSplit(text, units, k, maxChars, maxBytes, nextLevel);
        if current.Some? && !WithinBudget(text[current.value.0..unit.1], maxChars, maxBytes) {
          pieces := pieces + [current.value];
          current := Some(unit);
        } else if current.None? {
          current := Some(unit);
        } else {
          current := Some((current.value.0, unit.1));
        }
      }
    }
    ClosingKeeps(text, units, start, end, |units|, pieces, current, maxChars, maxBytes, nextLevel);
    if current.Some? {
      pieces := pieces + [current.value];
    } else {
      assert pieces + Open(current) == pieces;
    }
    return Ok(pieces);
  }

  lemma {:induction false} InsideConcat(a: seq<Range>, b: seq<Range>, u: Range)
    ensures Inside(a + b, u) == Inside(a, u) + Inside(b, u)
  {
    if a == [] {
      assert a + b == b;
    } else {
      assert (a + b)[1..] == a[1..] + b;
      InsideConcat(a[1..], b, u);
    }
  }

  lemma {:induction false} InsideAllOrNone(pieces: seq<Range>, u: Range)
    ensures (forall j :: 0 <= j < |pieces| ==> u.0 <= pieces[j].0 && pieces[j].1 <= u.1) ==> Inside(pieces, u) == pieces
    ensures (forall j :: 0 <= j < |pieces| ==> pieces[j].0 < u.0 || pieces[j].1 > u.1) ==> Inside(pieces, u) == []
  {
    if pieces != [] {
      InsideAllOrNone(pieces[1..], u);
    }
  }

  lemma NoneSplit(text: string, units: seq<Range>, maxChars: nat, maxBytes: nat, nextLevel: nat)
    requires nextLevel <= 3
    ensures OthersSplit(text, units, 0, maxChars, maxBytes, nextLevel, [])
  {
  }

  /** Pieces that end after the units split so far leave those splits alone. */
  lemma LaterPieces(text: string, units: seq<Range>, k: nat, pieces: seq<Range>, more: seq<Range>,
                    maxChars: nat, maxBytes: nat, nextLevel: nat)
    requires nextLevel <= 3 && k <= |units| && OthersSplit(text, units, k, maxChars, maxBytes, nextLevel, pieces)
    requires forall i, j :: 0 <= i < k && !Fits(text, units[i], maxChars, maxBytes) && 0 <= j < |more| ==>
               more[j].1 > units[i].1
    ensures OthersSplit(text, units, k, maxChars, maxBytes, nextLevel, pieces + more)
  {
    hide Split, Fits;
    forall i | 0 <= i < k && !Fits(text, units[i], maxChars, maxBytes)
      ensures Inside(pieces + more, units[i]) == Inside(pieces, units[i])
    {
      InsideConcat(pieces, more, units[i]);
      InsideAllOrNone(more, units[i]);
    }
  }

  /** Closing the open piece, which ends after a unit that fits. */
  lemma ClosingKeeps(text: string, units: seq<Range>, start: nat, end: nat, k: nat, pieces: seq<Range>,
                     current: Option<Range>, maxChars: nat, maxBytes: nat, nextLevel: nat)
    requires nextLevel <= 3 && k <= |units| && OthersSplit(text, units, k, maxChars, maxBytes, nextLevel, pieces)
    requires Tiles(units, start, end)
    requires current.Some? ==> && k > 0 && Fits(text, units[k - 1], maxChars, maxBytes)
                               && current.value.1 == if k < |units| then units[k].0 else end
    ensures OthersSplit(text, units, k, maxChars, maxBytes, nextLevel, pieces + Open(current))
  {
    hide Split, Fits, OthersSplit;
    if current.Some? {
      forall i | 0 <= i < k && !Fits(text, units[i], maxChars, maxBytes) ensures current.value.1 > units[i].1 {
        TilesIncrease(units, start, end, i, k - 1);
        UnitNonEmpty(units, start, end, k - 1);
      }
    }
    LaterPieces(text, units, k, pieces, Open(current), maxChars, maxBytes, nextLevel);
  }

  /** The unit in hand does not fit and its own pieces are appended. */
  lemma OneMoreSplit(text: string, units: seq<Range>, start: nat, end: nat, k: nat, pieces: seq<Range>,
                     more: seq<Range>,
                     maxChars: nat, maxBytes: nat, nextLevel: nat)
    requires nextLevel <= 3 && k < |units| && OthersSplit(text, units, k, maxChars, maxBytes, nextLevel, pieces)
    requires Tiles(units, start, end) && Tiles(pieces, start, units[k].0) && Tiles(more, units[k].0, units[k].1)
    requires units[k].0 <= units[k].1 <= |text| && Split(text, units[k].0, units[k].1, maxChars, maxBytes, nextLevel,
             more)
    ensures OthersSplit(text, units, k + 1, maxChars, maxBytes, nextLevel, pieces + more)
  {
    hide Split, Fits, Tiles, OthersSplit;
    TilesOrdered(more, units[k].0, units[k].1);
    UnitsNonEmpty(more, units[k].0, units[k].1);
    forall i | 0 <= i < k ensures units[i].1 <= units[k].0 {
      TilesIncrease(units, start, end, i, k);
    }
    LaterPieces(text, units, k, pieces, more, maxChars, maxBytes, nextLevel);
    OwnPieces(pieces, more, start, units[k]);
    SplitThisToo(text, units, k, pieces + more, maxChars, maxBytes, nextLevel);
  }

  lemma OwnPieces(pieces: seq<Range>, more: seq<Range>, start: nat, u: Range)
    requires Tiles(pieces, start, u.0) && Tiles(more, u.0, u.1)
    ensures Inside(pieces + more, u) == more
  {
    hide Tiles;
    TilesOrdered(more, u.0, u.1);
    TilesOrdered(pieces, start, u.0);
    UnitsNonEmpty(pieces, start, u.0);
    InsideConcat(pieces, more, u);
    InsideAllOrNone(pieces, u);
    InsideAllOrNone(more, u);
  }

  lemma SplitThisToo(text: string, units: seq<Range>, k: nat, pieces: seq<Range>, maxChars: nat, maxBytes: nat,
                     nextLevel: nat)
    requires nextLevel <= 3 && k < |units| && OthersSplit(text, units, k, maxChars, maxBytes, nextLevel, pieces)
    requires units[k].0 <= units[k].1 <= |text|
    requires Split(text, units[k].0, units[k].1, maxChars, maxBytes, nextLevel, Inside(pieces, units[k]))
    ensures OthersSplit(text, units, k + 1, maxChars, maxBytes, nextLevel, pieces)
  {
    hide Split, Fits;
  }

  lemma NoneMoreSplit(text: string, units: seq<Range>, k: nat, maxChars: nat, maxBytes: nat, nextLevel: nat)
    requires nextLevel <= 3 && k < |units| && Fits(text, units[k], maxChars, maxBytes)
    ensures forall p :: OthersSplit(text, units, k, maxChars, maxBytes, nextLevel, p) ==>
                          OthersSplit(text, units, k + 1, maxChars, maxBytes, nextLevel, p)
  {
    hide Split, Fits;
  }

  lemma PackNothing(text: string, units: seq<Range>, start: nat, maxChars: nat, maxBytes: nat)
    requires start <= |text|
    ensures Packed(text, units, [], None, start, start, maxChars, maxBytes)
  {
  }

  lemma NoUnits(start: nat, end: nat)
    requires Tiles([], start, end)
    ensures start == end
  {
  }

  lemma FirstUnit(units: seq<Range>, start: nat, end: nat)
    requires Tiles(units, start, end) && units != []
    ensures units[0].0 == start
  {
  }

  // ---------------------------------------------------------------- uniqueness

  lemma {:induction false} InsideMember(pieces: seq<Range>, u: Range, x: Range)
    ensures x in Inside(pieces, u) <==> x in pieces && u.0 <= x.0 && x.1 <= u.1
  {
    if pieces != [] {
      assert pieces == [pieces[0]] + pieces[1..];
      InsideMember(pieces[1..], u, x);
    }
  }

  lemma TilesTail(a: seq<Range>, lo: nat, hi: nat)
    requires Tiles(a, lo, hi) && a != []
    ensures a[0].0 == lo && Tiles(a[1..], a[0].1, hi) && lo < hi
  {
    TilesOrdered(a, lo, hi);
  }

  /** Tilings of one range in which every start determines its end are equal. */
  lemma {:induction false} TilesEqual(a: seq<Range>, b: seq<Range>, lo: nat, hi: nat)
    requires Tiles(a, lo, hi) && Tiles(b, lo, hi)
    requires forall i, j :: 0 <= i < |a| && 0 <= j < |b| && a[i].0 == b[j].0 ==> a[i] == b[j]
    ensures a == b
    decreases |a|
  {
    hide Tiles;
    if a != [] { TilesTail(a, lo, hi); } else { NoUnits(lo, hi); }
    if b != [] { TilesTail(b, lo, hi); } else { NoUnits(lo, hi); }
    if a != [] && b != [] {
      var x, y := a[1..], b[1..];
      forall i, j | 0 <= i < |x| && 0 <= j < |y| && x[i].0 == y[j].0 ensures x[i] == y[j] {
        assert x[i] == a[i + 1] && y[j] == b[j + 1];
      }
      TilesEqual(x, y, a[0].1, hi);
      assert a == [a[0]] + x && b == [b[0]] + y;
    }
  }

  /** The pieces of a unit that was split on its own begin and end where the unit does. */
  lemma UnitIsBounded(pieces: seq<Range>, lo: nat, hi: nat, u: Range, j: nat)
    requires Tiles(pieces, lo, hi) && Tiles(Inside(pieces, u), u.0, u.1) && u.0 < u.1 && j < |pieces|
    ensures !(pieces[j].0 < u.0 < pieces[j].1) && !(pieces[j].0 < u.1 < pieces[j].1)
  {
    var own := Inside(pieces, u);
    var first, last := own[0], own[|own| - 1];
    InsideMember(pieces, u, first);
    InsideMember(pieces, u, last);
    var i :| 0 <= i < |pieces| && pieces[i] == first;
    var k :| 0 <= k < |pieces| && pieces[k] == last;
    UnitNonEmpty(pieces, lo, hi, i);
    UnitNonEmpty(pieces, lo, hi, k);
    StartInside(pieces, lo, hi, i, u.0);
    StartInside(pieces, lo, hi, k, u.1 - 1);
  }

  /** Two packings that agree on the oversized units. */
  ghost predicate Rivals(text: string, units: seq<Range>, lo: nat, hi: nat, maxChars: nat, maxBytes: nat,
                         a: seq<Range>, b: seq<Range>)
  {
    && hi <= |text| && Tiles(units, lo, hi) && Tiles(a, lo, hi) && Tiles(b, lo, hi)
    && AllWithin(text, a, maxChars, maxBytes) && AllWithin(text, b, maxChars, maxBytes)
    && Greedy(text, units, a, maxChars, maxBytes) && Greedy(text, units, b, maxChars, maxBytes)
    && forall k :: 0 <= k < |units| && !Fits(text, units[k], maxChars, maxBytes) ==>
         Inside(a, units[k]) == Inside(b, units[k]) && Tiles(Inside(a, units[k]), units[k].0, units[k].1)
  }

  /** The unit that holds a position. */
  lemma {:induction false} UnitAt(ranges: seq<Range>, lo: nat, hi: nat, i: nat) returns (k: nat)
    requires Tiles(ranges, lo, hi) && lo <= i < hi
    ensures k < |ranges| && ranges[k].0 <= i < ranges[k].1
    decreases |ranges|
  {
    if i < ranges[0].1 {
      k := 0;
    } else {
      assert Tiles(ranges[1..], ranges[0].1, hi);
      k := UnitAt(ranges[1..], ranges[0].1, hi, i);
      k := k + 1;
    }
  }

  /** In an oversized unit both have the same piece. */
  lemma SameInOversized(text: string, units: seq<Range>, lo: nat, hi: nat, maxChars: nat, maxBytes: nat,
                        a: seq<Range>, b: seq<Range>, i: nat, j: nat, k: nat)
    requires Rivals(text, units, lo, hi, maxChars, maxBytes, a, b) && i < |a| && j < |b| && a[i].0 == b[j].0
    requires k < |units| && units[k].0 <= a[i].0 < units[k].1 && !Fits(text, units[k], maxChars, maxBytes)
    ensures a[i] == b[j]
  {
    hide Greedy, AllWithin, Fits;
    var u := units[k];
    UnitIsBounded(a, lo, hi, u, i);
    UnitIsBounded(b, lo, hi, u, j);
    var own := Inside(a, u);
    InsideMember(a, u, a[i]);
    InsideMember(b, u, b[j]);
    var x :| 0 <= x < |own| && own[x] == a[i];
    var y :| 0 <= y < |own| && own[y] == b[j];
    UnitNonEmpty(a, lo, hi, i);
    UnitNonEmpty(b, lo, hi, j);
    StartInside(own, u.0, u.1, x, a[i].0);
  }

  /** A piece that starts at a unit that fits cannot end before its rival does. */
  lemma NotShorter(text: string, units: seq<Range>, lo: nat, hi: nat, maxChars: nat, maxBytes: nat,
                   a: seq<Range>, b: seq<Range>, i: nat, j: nat, k: nat)
    requires Rivals(text, units, lo, hi, maxChars, maxBytes, a, b) && i < |a| && j < |b| && a[i].0 == b[j].0
    requires k < |units| && units[k].0 <= a[i].0 < units[k].1 && Fits(text, units[k], maxChars, maxBytes)
    ensures a[i].1 >= b[j].1
  {
    hide WithinBudget, Tiles;
    TilesOrdered(a, lo, hi);
    TilesOrdered(b, lo, hi);
    TilesOrdered(units, lo, hi);
    if a[i].1 < b[j].1 {
      var x, y, z := a[i].0, a[i].1, b[j].1;
      UnitsNonEmpty(a, lo, hi);
      LastEnds(a, lo, hi, i);
      var m := UnitAt(units, lo, hi, y);
      assert a[i + 1].0 == y;
      assert x == units[k].0;
      UnitNonEmpty(units, lo, hi, m);
      LaterUnit(units, lo, hi, k, x, m, y);
      assert k < m;
      UnitNonEmpty(units, lo, hi, m - 1);
      if !Fits(text, units[m], maxChars, maxBytes) {
        UnitIsBounded(a, lo, hi, units[m], i);
        UnitIsBounded(b, lo, hi, units[m], j);
        TilesIncrease(units, lo, hi, k, m);
      } else if !Fits(text, units[m - 1], maxChars, maxBytes) {
        UnitIsBounded(b, lo, hi, units[m - 1], j);
      } else {
        EndsOutside(text, units, lo, hi, maxChars, maxBytes, b, j, m);
        SliceWithin(text, x, x, units[m].1, z, maxChars, maxBytes);
      }
    }
  }

  lemma LaterUnit(units: seq<Range>, lo: nat, hi: nat, k: nat, x: nat, m: nat, y: nat)
    requires Tiles(units, lo, hi) && k < |units| && m < |units| && x < y
    requires units[k].0 <= x < units[k].1 && units[m].0 <= y < units[m].1
    ensures k <= m
  {
    if m < k {
      TilesIncrease(units, lo, hi, m, k);
    }
  }

  lemma LastEnds(a: seq<Range>, lo: nat, hi: nat, i: nat)
    requires Tiles(a, lo, hi) && i < |a|
    ensures a[i].1 < hi ==> i + 1 < |a| && a[i + 1].0 == a[i].1
  {
  }

  /** No piece ends within a unit that fits. */
  lemma EndsOutside(text: string, units: seq<Range>, lo: nat, hi: nat, maxChars: nat, maxBytes: nat, b: seq<Range>,
                    j: nat, m: nat)
    requires Tiles(units, lo, hi) && Tiles(b, lo, hi) && Greedy(text, units, b, maxChars, maxBytes) && j < |b|
    requires m < |units| && Fits(text, units[m], maxChars, maxBytes) && units[m].0 < b[j].1
    ensures units[m].1 <= b[j].1
  {
    hide Fits, Tiles;
    TilesOrdered(units, lo, hi);
    LastEnds(b, lo, hi, j);
    TilesOrdered(b, lo, hi);
  }

  lemma PackingDetermined(text: string, units: seq<Range>, lo: nat, hi: nat, maxChars: nat, maxBytes: nat,
                          a: seq<Range>, b: seq<Range>)
    requires Rivals(text, units, lo, hi, maxChars, maxBytes, a, b)
    ensures a == b
  {
    hide Greedy, AllWithin, Fits, Tiles;
    assert Rivals(text, units, lo, hi, maxChars, maxBytes, b, a);
    TilesOrdered(a, lo, hi);
    UnitsNonEmpty(a, lo, hi);
    forall i, j | 0 <= i < |a| && 0 <= j < |b| && a[i].0 == b[j].0 ensures a[i] == b[j] {
      var k := UnitAt(units, lo, hi, a[i].0);
      if Fits(text, units[k], maxChars, maxBytes) {
        NotShorter(text, units, lo, hi, maxChars, maxBytes, a, b, i, j, k);
        NotShorter(text, units, lo, hi, maxChars, maxBytes, b, a, j, i, k);
      } else {
        SameInOversized(text, units, lo, hi, maxChars, maxBytes, a, b, i, j, k);
      }
    }
    TilesEqual(a, b, lo, hi);
  }

  lemma MaximalDetermined(text: string, lo: nat, hi: nat, maxChars: nat, maxBytes: nat, a: seq<Range>, b: seq<Range>)
    requires hi <= |text| && Tiles(a, lo, hi) && Tiles(b, lo, hi)
    requires AllWithin(text, a, maxChars, maxBytes) && AllWithin(text, b, maxChars, maxBytes)
    requires Maximal(text, a, hi, maxChars, maxBytes) && Maximal(text, b, hi, maxChars, maxBytes)
    ensures a == b
  {
    hide Tiles, WithinBudget;
    TilesOrdered(a, lo, hi);
    TilesOrdered(b, lo, hi);
    forall i, j | 0 <= i < |a| && 0 <= j < |b| && a[i].0 == b[j].0 ensures a[i] == b[j] {
      if a[i].1 < b[j].1 {
        SliceWithin(text, a[i].0, a[i].0, a[i].1 + 1, b[j].1, maxChars, maxBytes);
      } else if b[j].1 < a[i].1 {
        SliceWithin(text, b[j].0, b[j].0, b[j].1 + 1, a[i].1, maxChars, maxBytes);
      }
    }
    TilesEqual(a, b, lo, hi);
  }

  /** The levels leave no choice: a text has only one split. */
  lemma {:induction false} SplitDetermined(text: string, start: nat, end: nat, maxChars: nat, maxBytes: nat, level: nat,
                                           a: seq<Range>, b: seq<Range>)
    requires start <= end <= |text| && level <= 3
    requires Split(text, start, end, maxChars, maxBytes, level, a)
             && Split(text, start, end, maxChars, maxBytes, level, b)
    ensures a == b
    decreases 3 - level
  {
    hide WithinBudget, Tiles, Greedy, Maximal, UnitsOf, AllWithin, Fits, OthersSplit;
    if !WithinBudget(text[start..end], maxChars, maxBytes) {
      if level == 3 {
        MaximalDetermined(text, start, end, maxChars, maxBytes, a, b);
      } else if |UnitsOf(text, level, start, end)| <= 1 {
        SplitDetermined(text, start, end, maxChars, maxBytes, level + 1, a, b);
      } else {
        UnitsTile(text, level, start, end);
        var units := UnitsOf(text, level, start, end);
        forall k | 0 <= k < |units| && !Fits(text, units[k], maxChars, maxBytes)
          ensures Inside(a, units[k]) == Inside(b, units[k]) && Tiles(Inside(a, units[k]), units[k].0, units[k].1)
        {
          OversizedSplit(text, units, maxChars, maxBytes, level + 1, a, k);
          OversizedSplit(text, units, maxChars, maxBytes, level + 1, b, k);
          SplitDetermined(text, units[k].0, units[k].1, maxChars, maxBytes, level + 1,
                          Inside(a, units[k]), Inside(b, units[k]));
        }
        PackingDetermined(text, units, start, end, maxChars, maxBytes, a, b);
      }
    }
  }

  lemma OversizedSplit(text: string, units: seq<Range>, maxChars: nat, maxBytes: nat, nextLevel: nat,
                       pieces: seq<Range>, k: nat)
    requires nextLevel <= 3 && OthersSplit(text, units, |units|, maxChars, maxBytes, nextLevel, pieces)
    requires k < |units| && !Fits(text, units[k], maxChars, maxBytes)
    ensures units[k].0 <= units[k].1 <= |text|
    ensures Split(text, units[k].0, units[k].1, maxChars, maxBytes, nextLevel, Inside(pieces, units[k]))
    ensures Tiles(Inside(pieces, units[k]), units[k].0, units[k].1)
  {
    hide WithinBudget, Tiles, Greedy, Maximal, UnitsOf, AllWithin;
  }
}
