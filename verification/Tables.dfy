/** Row windows over Markdown tables: every draft repeats the two header lines. */
module Tables {
  import opened Unicode
  import opened Splitting
  import opened Texts

  /** The marker texts of `_bounded_marker`, most informative first. */
  function Markers(kind: string, source: string, digest: string): seq<string> {
    [ "[" + kind + " omitted; chars=" + Digits(|source|) + "; sha256=" + digest + "]",
      "[" + kind + " omitted; sha256=" + digest + "]",
      "[" + kind + " omitted]",
      "~" ]
  }

  /** The first marker text that fits. */
  ghost predicate IsMarker(kind: string, source: string, digest: string, maxChars: nat, maxBytes: nat, marker: string) {
    exists k :: 0 <= k < 4 && marker == Markers(kind, source, digest)[k] && WithinBudget(marker, maxChars, maxBytes)
                && forall j :: 0 <= j < k ==> !WithinBudget(Markers(kind, source, digest)[j], maxChars, maxBytes)
  }

  /** `_bounded_marker`: the first marker that fits; with positive budgets one always does. */
  method BoundedMarker(kind: string, source: string, digest: string, maxChars: nat,
                       maxBytes: nat) returns (marker: string)
    requires 1 <= maxChars && 1 <= maxBytes
    ensures IsMarker(kind, source, digest, maxChars, maxBytes, marker)
  {
    var candidates := ["[" + kind + " omitted; chars=" + Digits(|source|) + "; sha256=" + digest + "]",
                       "[" + kind + " omitted; sha256=" + digest + "]", "[" + kind + " omitted]", "~"];
    assert candidates == Markers(kind, source, digest);
    assert candidates[3] == "~" && Bytes("~") == 1;
    var i := 0;
    while !WithinBudget(candidates[i], maxChars, maxBytes)
      invariant 0 <= i < 4 && forall j :: 0 <= j < i ==> !WithinBudget(candidates[j], maxChars, maxBytes)
      decreases 4 - i
    {
      i := i + 1;
    }
    marker := candidates[i];
  }

  /** A draft owning the data rows `first..last`. */
  datatype RowGroup = RowGroup(first: nat, last: nat, display: string, marker: bool)

  function Owned(groups: seq<RowGroup>): seq<Range> {
    seq(|groups|, k requires 0 <= k < |groups| => (groups[k].first, groups[k].last))
  }

  /** A draft shows the header and its rows, as many as fit; a lone row too large for that is replaced by
      a marker. */
  ghost predicate RowGroupOk(header: seq<string>, rows: seq<string>, fingerprint: string -> string, limit: nat,
                             maxChars: nat, maxBytes: nat, g: RowGroup)
  {
    && g.first < g.last <= |rows| && WithinBudget(g.display, maxChars, maxBytes)
    && if g.marker then
         && g.last == g.first + 1 && !WithinBudget(Join(header + [rows[g.first]], "\n"), maxChars, maxBytes)
         && IsMarker("table row", rows[g.first], fingerprint(rows[g.first]), maxChars, maxBytes, g.display)
       else
         && g.last - g.first <= limit && g.display == Join(header + rows[g.first..g.last], "\n")
         && (g.last < |rows| && g.last - g.first < limit ==>
               !WithinBudget(Join(header + rows[g.first..g.last + 1], "\n"), maxChars, maxBytes))
  }

  ghost predicate RowGroupsOk(header: seq<string>, rows: seq<string>, fingerprint: string -> string, limit: nat,
                              maxChars: nat, maxBytes: nat, groups: seq<RowGroup>)
  {
    forall k :: 0 <= k < |groups| ==> RowGroupOk(header, rows, fingerprint, limit, maxChars, maxBytes, groups[k])
  }

  /** The inner loop: rows from `start` that fit under the header. */
  method SelectRows(header: seq<string>, rows: seq<string>, start: nat, limit: nat, maxChars: nat, maxBytes: nat)
    returns (last: nat)
    requires start < |rows| && 1 <= limit
    ensures start <= last <= |rows| && last - start <= limit
    ensures start < last ==> WithinBudget(Join(header + rows[start..last], "\n"), maxChars, maxBytes)
    ensures last < |rows| && last - start < limit ==>
              !WithinBudget(Join(header + rows[start..last + 1], "\n"), maxChars, maxBytes)
  {
    hide WithinBudget, Join;
    last := start;
    while last < |rows| && last - start < limit
      invariant start <= last <= |rows| && last - start <= limit
      invariant start < last ==> WithinBudget(Join(header + rows[start..last], "\n"), maxChars, maxBytes)
      decreases |rows| - last
    {
      if !WithinBudget(Join(header + rows[start..last + 1], "\n"), maxChars, maxBytes) {
        break;
      }
      last := last + 1;
    }
  }

  /** The row loop of `_table_drafts`: each data row is owned by exactly one draft, in order. */
  method RowGroups(header: seq<string>, rows: seq<string>, fingerprint: string -> string, limit: nat,
                   maxChars: nat, maxBytes: nat)
    returns (groups: seq<RowGroup>)
    requires 1 <= limit && 1 <= maxChars && 1 <= maxBytes
    ensures Tiles(Owned(groups), 0, |rows|)
    ensures RowGroupsOk(header, rows, fingerprint, limit, maxChars, maxBytes, groups)
  {
    hide WithinBudget, Join, Tiles, IsMarker;
    groups := [];
    var start := 0;
    NoTiles(0);
    assert Owned([]) == [];
    while start < |rows|
      invariant start <= |rows| && Tiles(Owned(groups), 0, start)
      invariant RowGroupsOk(header, rows, fingerprint, limit, maxChars, maxBytes, groups)
    {
      var last := SelectRows(header, rows, start, limit, maxChars, maxBytes);
      var g: RowGroup;
      if last == start {
        assert rows[start..start + 1] == [rows[start]];
        var marker := BoundedMarker("table row", rows[start], fingerprint(rows[start]), maxChars, maxBytes);
        g := RowGroup(start, start + 1, marker, true);
      } else {
        g := RowGroup(start, last, Join(header + rows[start..last], "\n"), false);
      }
      OneTile(g.first, g.last);
      TilesConcat(Owned(groups), [(g.first, g.last)], 0, start, g.last);
      assert Owned(groups + [g]) == Owned(groups) + [(g.first, g.last)];
      groups := groups + [g];
      start := g.last;
    }
  }

  /** Every draft that is not a marker opens with the two header lines. */
  lemma HeaderRepeated(header: seq<string>, rows: seq<string>, fingerprint: string -> string, limit: nat,
                       maxChars: nat, maxBytes: nat, g: RowGroup)
    requires |header| == 2 && RowGroupOk(header, rows, fingerprint, limit, maxChars, maxBytes, g) && !g.marker
    ensures header[0] + "\n" + header[1] <= g.display
  {
    JoinExtends(header, rows[g.first..g.last], "\n");
    assert Join(header, "\n") == header[0] + "\n" + Join(header[1..], "\n");
  }

  // ---------------------------------------------------------------- uniqueness

  lemma PrefixFits(a: string, b: string, maxChars: nat, maxBytes: nat)
    requires a <= b && WithinBudget(b, maxChars, maxBytes)
    ensures WithinBudget(a, maxChars, maxBytes)
  {
    assert b == a + b[|a|..];
    BytesConcat(a, b[|a|..]);
  }

  lemma FewerRowsFit(header: seq<string>, rows: seq<string>, first: nat, fewer: nat, more: nat, maxChars: nat,
                     maxBytes: nat)
    requires first < fewer <= more <= |rows|
    requires WithinBudget(Join(header + rows[first..more], "\n"), maxChars, maxBytes)
    ensures WithinBudget(Join(header + rows[first..fewer], "\n"), maxChars, maxBytes)
  {
    hide WithinBudget, Join;
    assert header + rows[first..more] == (header + rows[first..fewer]) + rows[fewer..more];
    JoinExtends(header + rows[first..fewer], rows[fewer..more], "\n");
    PrefixFits(Join(header + rows[first..fewer], "\n"), Join(header + rows[first..more], "\n"), maxChars, maxBytes);
  }

  lemma MarkerDetermined(kind: string, source: string, digest: string, maxChars: nat, maxBytes: nat, a: string,
                         b: string)
    requires IsMarker(kind, source, digest, maxChars, maxBytes, a)
             && IsMarker(kind, source, digest, maxChars, maxBytes, b)
    ensures a == b
  {
    hide WithinBudget, Markers;
  }

  lemma NotFewerRows(header: seq<string>, rows: seq<string>, fingerprint: string -> string, limit: nat,
                     maxChars: nat, maxBytes: nat, g: RowGroup, h: RowGroup)
    requires RowGroupOk(header, rows, fingerprint, limit, maxChars, maxBytes, g)
    requires RowGroupOk(header, rows, fingerprint, limit, maxChars, maxBytes, h) && g.first == h.first && !g.marker
             && !h.marker
    ensures g.last >= h.last
  {
    hide WithinBudget, Join, IsMarker;
    if g.last < h.last {
      FewerRowsFit(header, rows, h.first, g.last + 1, h.last, maxChars, maxBytes);
    }
  }

  lemma MarkerNeeded(header: seq<string>, rows: seq<string>, fingerprint: string -> string, limit: nat,
                     maxChars: nat, maxBytes: nat, g: RowGroup)
    requires RowGroupOk(header, rows, fingerprint, limit, maxChars, maxBytes, g)
    ensures g.first < |rows| && (g.marker <==>
                !WithinBudget(Join(header + rows[g.first..g.first + 1], "\n"), maxChars, maxBytes))
  {
    hide WithinBudget, Join, IsMarker;
    assert rows[g.first..g.first + 1] == [rows[g.first]];
    if !g.marker {
      FewerRowsFit(header, rows, g.first, g.first + 1, g.last, maxChars, maxBytes);
    }
  }

  lemma SameRows(header: seq<string>, rows: seq<string>, fingerprint: string -> string, limit: nat,
                 maxChars: nat, maxBytes: nat, g: RowGroup, h: RowGroup)
    requires RowGroupOk(header, rows, fingerprint, limit, maxChars, maxBytes, g)
    requires RowGroupOk(header, rows, fingerprint, limit, maxChars, maxBytes, h) && g.first == h.first
    ensures g == h
  {
    hide WithinBudget, Join, IsMarker;
    MarkerNeeded(header, rows, fingerprint, limit, maxChars, maxBytes, g);
    MarkerNeeded(header, rows, fingerprint, limit, maxChars, maxBytes, h);
    if g.marker {
      var row := rows[g.first];
      MarkerDetermined("table row", row, fingerprint(row), maxChars, maxBytes, g.display, h.display);
    } else {
      NotFewerRows(header, rows, fingerprint, limit, maxChars, maxBytes, g, h);
      NotFewerRows(header, rows, fingerprint, limit, maxChars, maxBytes, h, g);
    }
  }

  /** A table has only one grouping of its rows. */
  lemma RowGroupsDetermined(header: seq<string>, rows: seq<string>, fingerprint: string -> string, limit: nat,
                            maxChars: nat, maxBytes: nat, a: seq<RowGroup>, b: seq<RowGroup>)
    requires Tiles(Owned(a), 0, |rows|) && Tiles(Owned(b), 0, |rows|)
    requires RowGroupsOk(header, rows, fingerprint, limit, maxChars, maxBytes, a)
    requires RowGroupsOk(header, rows, fingerprint, limit, maxChars, maxBytes, b)
    ensures a == b
  {
    hide RowGroupOk, Tiles;
    var x, y := Owned(a), Owned(b);
    forall i, j | 0 <= i < |a| && 0 <= j < |b| && a[i].first == b[j].first ensures a[i] == b[j] {
      SameRows(header, rows, fingerprint, limit, maxChars, maxBytes, a[i], b[j]);
    }
    forall i, j | 0 <= i < |x| && 0 <= j < |y| && x[i].0 == y[j].0 ensures x[i] == y[j] {
      assert x[i] == (a[i].first, a[i].last) && y[j] == (b[j].first, b[j].last);
    }
    TilesEqual(x, y, 0, |rows|);
    forall i | 0 <= i < |a| ensures a[i] == b[i] {
      assert x[i] == (a[i].first, a[i].last) && y[i] == (b[i].first, b[i].last);
    }
  }
}
