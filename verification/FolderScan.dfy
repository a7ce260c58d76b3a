/** Folder enumeration and the withdrawal of resources whose files disappeared. */
module FolderScan {
  import opened Sequences
  import opened Graph
  import opened Port

  // ---------------------------------------------------------- what is there

  /** The true contents of a place, whether or not a scan can see them: behind a link is its target,
      inside an unreadable directory its entries. */
  datatype Node = File | Special | Directory(readable: bool, entries: seq<Entry>)

  datatype Entry = Entry(name: string, link: bool, statFails: bool, node: Node)

  function Child(rel: string, name: string): string {
    if rel == "" then name else rel + "/" + name
  }

  function Relative(rel: string, path: seq<string>): string
    decreases |path|
  {
    if path == [] then rel else Relative(Child(rel, path[0]), path[1..])
  }

  /** A regular file is at this path. */
  ghost predicate HasFile(node: Node, path: seq<string>)
    decreases |path|
  {
    if path == [] then node.File?
    else node.Directory? && exists i :: 0 <= i < |node.entries| && node.entries[i].name == path[0]
                                        && HasFile(node.entries[i].node, path[1..])
  }

  /** `_is_under_relative_prefix` */
  predicate Under(ref: string, prefix: string) {
    ref == prefix || prefix + "/" <= ref
  }

  // ----------------------------------------------------- what a scan reports

  /** A directory the scan descends into. */
  predicate Followed(e: Entry, ignored: set<string>) {
    !e.link && !e.statFails && e.node.Directory? && e.name !in ignored
  }

  predicate Blocking(e: Entry, ignored: set<string>) {
    e.link || (!e.statFails && e.node.Directory? && e.name in ignored)
  }

  datatype Report = Report(observed: set<string>, blocked: set<string>, complete: bool)

  function Both(a: Report, b: Report): Report {
    Report(a.observed + b.observed, a.blocked + b.blocked, a.complete && b.complete)
  }

  const EMPTY: Report := Report({}, {}, true)

  /** What the enumeration below one directory must report, by recursion on the tree. */
  function Enumerate(node: Node, rel: string, ignored: set<string>): Report
    decreases node, 1
  {
    if !node.Directory? then EMPTY
    else if !node.readable then Report({}, {}, false)
    else EnumerateEntries(node.entries, rel, ignored)
  }

  function Noted(e: Entry, rel: string, ignored: set<string>): Report {
    Report({Child(rel, e.name)}, if Blocking(e, ignored) then {Child(rel, e.name)} else {}, e.link || !e.statFails)
  }

  function EnumerateEntries(entries: seq<Entry>, rel: string, ignored: set<string>): Report
    decreases entries, 0
  {
    if entries == [] then EMPTY
    else
      var e := entries[0];
      var here := Noted(e, rel, ignored);
      var below := if Followed(e, ignored) then Enumerate(e.node, Child(rel, e.name), ignored) else EMPTY;
      Both(Both(here, below), EnumerateEntries(entries[1..], rel, ignored))
  }

  // ------------------------------------------------------------------ safety

  lemma {:induction false} RelativeUnder(rel: string, path: seq<string>)
    requires rel != ""
    ensures Under(Relative(rel, path), rel)
    decreases |path|
  {
    if path != [] {
      RelativeUnder(Child(rel, path[0]), path[1..]);
    }
  }

  /** One entry's own part of what is reported for its directory. */
  lemma {:induction false} EntryReported(entries: seq<Entry>, rel: string, ignored: set<string>, i: nat)
    requires i < |entries|
    ensures var all, e := EnumerateEntries(entries, rel, ignored), entries[i];
            var below := if Followed(e, ignored) then Enumerate(e.node, Child(rel, e.name), ignored) else EMPTY;
            && Child(rel, e.name) in all.observed && below.observed <= all.observed && below.blocked <= all.blocked
            && (Blocking(e, ignored) ==> Child(rel, e.name) in all.blocked)
            && (all.complete ==> below.complete && (e.link || !e.statFails))
    decreases i
  {
    if i > 0 {
      EntryReported(entries[1..], rel, ignored, i - 1);
    }
  }

  /** A file present in the tree is observed, lies under a blocked prefix, or the scan is incomplete. */
  lemma {:induction false} NothingMissed(node: Node, rel: string, ignored: set<string>, path: seq<string>)
    requires HasFile(node, path) && path != [] && forall k :: 0 <= k < |path| ==> path[k] != ""
    ensures var r := Enumerate(node, rel, ignored);
            || !r.complete || Relative(rel, path) in r.observed
            || exists p :: p in r.blocked && Under(Relative(rel, path), p)
    decreases |path|
  {
    var i :| 0 <= i < |node.entries| && node.entries[i].name == path[0] && HasFile(node.entries[i].node, path[1..]);
    var e := node.entries[i];
    var here := Child(rel, e.name);
    if node.readable {
      EntryReported(node.entries, rel, ignored, i);
      if |path| == 1 {
        assert Relative(rel, path) == Relative(here, []) == here;
      } else if Blocking(e, ignored) {
        RelativeUnder(here, path[1..]);
      } else if !e.statFails {
        NothingMissed(e.node, here, ignored, path[1..]);
      }
    }
  }

  // ------------------------------------------------- the report, entry by entry

  /** A directory entry that is a directory and neither a link nor ignored. */
  predicate Descends(e: Entry, ignored: set<string>) {
    !(e.link || e.statFails || e.name in ignored) && e.node.Directory?
  }

  /** At this path, through readable directories none of which is linked or ignored, lies this entry. */
  ghost predicate Visited(entries: seq<Entry>, path: seq<string>, e: Entry, ignored: set<string>)
    decreases |path|
  {
    path != [] && exists i ::
      && 0 <= i < |entries| && entries[i].name == path[0]
      && if |path| == 1 then e == entries[i]
         else && Descends(entries[i], ignored) && entries[i].node.readable
              && Visited(entries[i].node.entries, path[1..], e, ignored)
  }

  /** A link, or an ignored directory: nothing is known of what lies below. */
  predicate Closed(e: Entry, ignored: set<string>) {
    e.link || (e.name in ignored && e.node.Directory? && !e.statFails)
  }

  /** An entry that could not be looked at: neither a link nor readable. */
  predicate Failing(e: Entry, ignored: set<string>) {
    !e.link && (e.statFails || (Descends(e, ignored) && !e.node.readable))
  }

  /** Some visited entry is at this place. */
  ghost predicate VisitedAt(entries: seq<Entry>, rel: string, ignored: set<string>, ref: string) {
    exists path, e :: Visited(entries, path, e, ignored) && ref == Relative(rel, path)
  }

  ghost predicate ClosedAt(entries: seq<Entry>, rel: string, ignored: set<string>, ref: string) {
    exists path, e :: Visited(entries, path, e, ignored) && ref == Relative(rel, path) && Closed(e, ignored)
  }

  ghost predicate FailsSomewhere(entries: seq<Entry>, ignored: set<string>) {
    exists path, e :: Visited(entries, path, e, ignored) && Failing(e, ignored)
  }

  lemma VisitedDeeper(entries: seq<Entry>, i: nat, path: seq<string>, e: Entry, ignored: set<string>, rel: string)
    requires i < |entries| && Descends(entries[i], ignored) && entries[i].node.readable
    requires Visited(entries[i].node.entries, path, e, ignored)
    ensures Visited(entries, [entries[i].name] + path, e, ignored)
    ensures Relative(rel, [entries[i].name] + path) == Relative(Child(rel, entries[i].name), path)
  {
    var longer := [entries[i].name] + path;
    assert longer[1..] == path && longer[0] == entries[i].name;
  }

  lemma VisitedHere(entries: seq<Entry>, i: nat, ignored: set<string>, rel: string)
    requires i < |entries|
    ensures Visited(entries, [entries[i].name], entries[i], ignored)
    ensures Relative(rel, [entries[i].name]) == Child(rel, entries[i].name)
  {
    var path := [entries[i].name];
    assert Relative(rel, path) == Relative(Child(rel, path[0]), path[1..]);
  }

  lemma {:induction false} VisitedLater(entries: seq<Entry>, path: seq<string>, e: Entry, ignored: set<string>)
    requires entries != [] && Visited(entries[1..], path, e, ignored)
    ensures Visited(entries, path, e, ignored)
  {
    var rest := entries[1..];
    var i :| && 0 <= i < |rest| && rest[i].name == path[0]
             && if |path| == 1 then e == rest[i]
                else && Descends(rest[i], ignored) && rest[i].node.readable
                     && Visited(rest[i].node.entries, path[1..], e, ignored);
    assert entries[i + 1] == rest[i];
  }

  /** Whatever is visited is reported. */
  lemma {:induction false} VisitedIsReported(entries: seq<Entry>, rel: string, ignored: set<string>,
                                             path: seq<string>, e: Entry)
    requires Visited(entries, path, e, ignored)
    ensures var r := EnumerateEntries(entries, rel, ignored);
            && Relative(rel, path) in r.observed && (Closed(e, ignored) ==> Relative(rel, path) in r.blocked)
            && (Failing(e, ignored) ==> !r.complete)
    decreases |path|
  {
    var i :| && 0 <= i < |entries| && entries[i].name == path[0]
             && if |path| == 1 then e == entries[i]
                else && Descends(entries[i], ignored) && entries[i].node.readable
                     && Visited(entries[i].node.entries, path[1..], e, ignored);
    EntryReported(entries, rel, ignored, i);
    if |path| == 1 {
      assert path == [entries[i].name];
      VisitedHere(entries, i, ignored, rel);
    } else {
      VisitedIsReported(entries[i].node.entries, Child(rel, entries[i].name), ignored, path[1..], e);
    }
  }

  /** What is reported was visited: in one entry, or below it. */
  lemma {:induction false} ReportedWasVisited(entries: seq<Entry>, rel: string, ignored: set<string>)
    ensures var r := EnumerateEntries(entries, rel, ignored);
            && (forall ref :: ref in r.observed ==> VisitedAt(entries, rel, ignored, ref))
            && (forall ref :: ref in r.blocked ==> ClosedAt(entries, rel, ignored, ref))
            && (!r.complete ==> FailsSomewhere(entries, ignored))
    decreases entries
  {
    hide Visited, Relative;
    if entries != [] {
      var e, r := entries[0], EnumerateEntries(entries, rel, ignored);
      var here := Child(rel, e.name);
      VisitedHere(entries, 0, ignored, rel);
      ReportedWasVisited(entries[1..], rel, ignored);
      LaterReports(entries, rel, ignored);
      if Followed(e, ignored) && e.node.readable {
        ReportedWasVisited(e.node.entries, here, ignored);
        DeeperReports(entries, rel, ignored);
      }
    }
  }

  lemma LaterReports(entries: seq<Entry>, rel: string, ignored: set<string>)
    requires entries != []
    ensures forall ref :: VisitedAt(entries[1..], rel, ignored, ref) ==> VisitedAt(entries, rel, ignored, ref)
    ensures forall ref :: ClosedAt(entries[1..], rel, ignored, ref) ==> ClosedAt(entries, rel, ignored, ref)
    ensures FailsSomewhere(entries[1..], ignored) ==> FailsSomewhere(entries, ignored)
  {
    hide Visited, Relative, Closed, Failing;
    forall path, e | Visited(entries[1..], path, e, ignored) ensures Visited(entries, path, e, ignored) {
      VisitedLater(entries, path, e, ignored);
    }
  }

  lemma DeeperReports(entries: seq<Entry>, rel: string, ignored: set<string>)
    requires entries != [] && Descends(entries[0], ignored) && entries[0].node.readable
    ensures var below, here := entries[0].node.entries, Child(rel, entries[0].name);
            && (forall ref :: VisitedAt(below, here, ignored, ref) ==> VisitedAt(entries, rel, ignored, ref))
            && (forall ref :: ClosedAt(below, here, ignored, ref) ==> ClosedAt(entries, rel, ignored, ref))
            && (FailsSomewhere(below, ignored) ==> FailsSomewhere(entries, ignored))
  {
    hide Visited, Relative, Closed, Failing;
    forall path, e | Visited(entries[0].node.entries, path, e, ignored)
      ensures Visited(entries, [entries[0].name] + path, e, ignored)
      ensures Relative(rel, [entries[0].name] + path) == Relative(Child(rel, entries[0].name), path)
    {
      VisitedDeeper(entries, 0, path, e, ignored, rel);
    }
  }

  /** What a scan reports of a directory: the places of the entries it visited, those of links and ignored directories
      as blocked, and completeness exactly if it could look at all of them. */
  lemma ReportMeans(node: Node, rel: string, ignored: set<string>)
    requires node.Directory?
    ensures var r := Enumerate(node, rel, ignored);
            && (r.complete <==> node.readable && !FailsSomewhere(node.entries, ignored))
            && (node.readable ==>
                  && (forall ref :: ref in r.observed <==> VisitedAt(node.entries, rel, ignored, ref))
                  && (forall ref :: ref in r.blocked <==> ClosedAt(node.entries, rel, ignored, ref)))
  {
    hide Visited, Relative, Closed, Failing;
    if node.readable {
      ReportedWasVisited(node.entries, rel, ignored);
      forall path, e | Visited(node.entries, path, e, ignored)
        ensures var r := EnumerateEntries(node.entries, rel, ignored);
                && Relative(rel, path) in r.observed && (Closed(e, ignored) ==> Relative(rel, path) in r.blocked)
                && (Failing(e, ignored) ==> !r.complete)
      {
        VisitedIsReported(node.entries, rel, ignored, path, e);
      }
    }
  }

  // -------------------------------------------------------------- the scan

  type Pending = seq<(Node, string)>

  function EnumerateAll(stack: Pending, ignored: set<string>): Report {
    if stack == [] then EMPTY
    else
      var top := stack[|stack| - 1];
      Both(EnumerateAll(stack[..|stack| - 1], ignored), Enumerate(top.0, top.1, ignored))
  }

  function Size(node: Node): nat
    decreases node, 1
  {
    if node.Directory? then 1 + SizeOf(node.entries) else 1
  }

  function SizeOf(entries: seq<Entry>): nat
    decreases entries, 0
  {
    if entries == [] then 0 else Size(entries[0].node) + SizeOf(entries[1..])
  }

  function StackSize(stack: Pending): nat {
    if stack == [] then 0 else StackSize(stack[..|stack| - 1]) + Size(stack[|stack| - 1].0)
  }

  lemma {:induction false} BothLaws(a: Report, b: Report, c: Report)
    ensures Both(Both(a, b), c) == Both(a, Both(b, c)) && Both(a, b) == Both(b, a) && Both(a, EMPTY) == a
  {
  }

  lemma NoteLaw(noted: Report, stack: Report, here: Report, below: Report, rest: Report)
    ensures Both(Both(noted, stack), Both(Both(here, below), rest)) == Both(Both(Both(noted, here),
            Both(stack, below)), rest)
  {
  }

  lemma Pushed(stack: Pending, node: Node, rel: string, ignored: set<string>)
    ensures EnumerateAll(stack + [(node, rel)], ignored) == Both(EnumerateAll(stack, ignored),
            Enumerate(node, rel, ignored))
    ensures StackSize(stack + [(node, rel)]) == StackSize(stack) + Size(node)
  {
    assert (stack + [(node, rel)])[..|stack|] == stack;
  }

  /** The entry loop of one directory: what it notes now plus what it pushes for later. */
  method ScanEntries(entries: seq<Entry>, rel: string, ignored: set<string>, stack: Pending)
    returns (noted: Report, pushed: Pending)
    ensures Both(noted, EnumerateAll(pushed, ignored)) ==
            Both(EnumerateAll(stack, ignored), EnumerateEntries(entries, rel, ignored))
    ensures StackSize(pushed) <= StackSize(stack) + SizeOf(entries)
  {
    hide Both, EnumerateAll, Enumerate, StackSize, Size, Noted, Followed, EMPTY;
    noted, pushed := EMPTY, stack;
    BothLaws(EnumerateAll(stack, ignored), EMPTY, EMPTY);
    assert entries[0..] == entries;
    ghost var goal := Both(EnumerateAll(stack, ignored), EnumerateEntries(entries, rel, ignored));
    for i := 0 to |entries|
      invariant Both(Both(noted, EnumerateAll(pushed, ignored)), EnumerateEntries(entries[i..], rel, ignored)) == goal
      invariant StackSize(pushed) + SizeOf(entries[i..]) <= StackSize(stack) + SizeOf(entries)
    {
      var e := entries[i];
      assert entries[i..][1..] == entries[i + 1..];
      var here := Child(rel, e.name);
      ghost var below := if Followed(e, ignored) then Enumerate(e.node, here, ignored) else EMPTY;
      NoteLaw(noted, EnumerateAll(pushed, ignored), Noted(e, rel, ignored), below,
          EnumerateEntries(entries[i + 1..], rel, ignored));
      noted := Both(noted, Noted(e, rel, ignored));
      if Followed(e, ignored) {
        Pushed(pushed, e.node, here, ignored);
        pushed := pushed + [(e.node, here)];
      } else {
        BothLaws(EnumerateAll(pushed, ignored), EMPTY, EMPTY);
      }
    }
    BothLaws(Both(noted, EnumerateAll(pushed, ignored)), EMPTY, EMPTY);
  }

  /** `_scan_root`: the stack walk reports exactly what the recursive enumeration defines. */
  method ScanRoot(root: Node, ignored: set<string>) returns (report: Report)
    ensures report == Enumerate(root, "", ignored)
  {
    report := EMPTY;
    var stack: Pending := [(root, "")];
    assert stack[..0] == [];
    while stack != []
      invariant Both(report, EnumerateAll(stack, ignored)) == Enumerate(root, "", ignored)
      decreases StackSize(stack)
    {
      var (directory, rel) := stack[|stack| - 1];
      var rest := stack[..|stack| - 1];
      if directory.Directory? && directory.readable {
        var noted, pushed := ScanEntries(directory.entries, rel, ignored, rest);
        BothLaws(report, noted, EnumerateAll(pushed, ignored));
        report := Both(report, noted);
        stack := pushed;
      } else {
        report := Report(report.observed, report.blocked, report.complete && !directory.Directory?);
        stack := rest;
      }
    }
  }

  // ----------------------------------------------------------- withdrawal

  datatype LifecycleFile = LifecycleFile(sourceRef: string, resourceId: string, available: bool)

  /** The file of an entry may be taken as gone. */
  predicate Missing(report: Report, excluded: string -> bool, entry: LifecycleFile) {
    && report.complete && entry.sourceRef !in report.observed && !excluded(entry.sourceRef)
    && forall p :: p in report.blocked ==> !Under(entry.sourceRef, p)
  }

  predicate IsPublished(s: State) { s.Known? && s.status == Published }

  /** A commit that takes one resource's graph out of search. */
  ghost predicate Withdrawal(w: Write, namespace: string, resourceId: string) {
    && w.before.state.resourceId == resourceId && IsPublished(w.before.state) && w.before.state.namespace == namespace
    && w.after.batch.None?
  }

  /** How one vanished file ends: already marked, its resource belongs to someone else, another writer
      republished it meanwhile, or it is out of search. */
  datatype Ending = AlreadyMarked | IdentityConflict | Contested | Gone

  predicate Belongs(s: Snapshot, namespace: string, id: string) {
    && s.batch.Some? && s.batch.value.resource.id == id && s.state.Known? && s.state.namespace == namespace
    && s.batch.value.resource.namespace == namespace
  }

  /** No graph, or one of another resource or namespace. */
  predicate Foreigner(s: Snapshot, namespace: string, id: string) {
    || s.batch.None? || s.state.NeverCreated? || s.batch.value.resource.id != id
    || s.state.namespace != namespace || s.batch.value.resource.namespace != namespace
  }

  /** The resource was published by this point of the history, but not as this entry's. */
  ghost predicate Conflicting(log: seq<Write>, namespace: string, id: string) {
    exists s :: Observable(log, s) && s.state.resourceId == id && IsPublished(s.state) && Foreigner(s, namespace, id)
  }

  /** `_reconcile_missing`: at most one withdrawal, of this entry's own resource in this namespace. The
      file counts as gone only when its resource is not published, and short of a conflict, another
      writer or a fault it does. */
  method ReconcileMissing(port: PublicationPort, namespace: string, entry: LifecycleFile)
    returns (r: Result<Ending>)
    requires port.Valid()
    modifies port
    ensures port.Valid() && old(port.clock) <= port.clock
    ensures ForeignOnly(old(port.log), port.log)
            || (CallerLast(old(port.log), port.log)
                && Withdrawal(port.log[|port.log| - 1], namespace, entry.resourceId) && entry.available)
    ensures r == Ok(AlreadyMarked) <==> !entry.available
    ensures r == Ok(Gone) ==> !IsPublished(port.Row(entry.resourceId).state)
    ensures r == Ok(IdentityConflict) ==> Conflicting(port.log, namespace, entry.resourceId)
    ensures r == Ok(Contested) ==>
              IsPublished(port.Row(entry.resourceId).state) && ForeignWriteTo(old(port.log), port.log, entry.resourceId)
    ensures r.Err? ==> r.error == Catalog && port.Faulted(old(port.clock), port.clock)
  {
    hide PublicationPort.Valid, ForeignOnly, CallerLast, SnapshotOk, Observable;
    ghost var start := port.log;
    NoWrites(start);
    if !entry.available {
      return Ok(AlreadyMarked);
    }
    var before := port.ReadSnapshot(entry.resourceId);
    if before.Err? {
      return Err(before.error);
    }
    var state := before.value.state;
    if IsPublished(state) {
      if !Belongs(before.value, namespace, entry.resourceId) {
        return Ok(IdentityConflict);
      }
      ghost var middle := port.log;
      port.RowsAreReplayed(entry.resourceId);
      assert before.value == RowIn(Replay(middle), entry.resourceId);
      Extended(start, middle);
      var outcome := port.WithdrawIfCurrent(entry.resourceId, state, false);
      Extended(middle, port.log);
      ForeignThen(start, middle, port.log);
      if outcome.Err? {
        return Err(outcome.error);
      }
      port.RowsAreReplayed(entry.resourceId);
      if !outcome.value.applied && IsPublished(outcome.value.state) {
        var i := RowChanged(middle, port.log, entry.resourceId);
        ForeignAt(start, port.log, i);
        return Ok(Contested);
      }
    }
    return Ok(Gone);
  }

  lemma ForeignAt(a: seq<Write>, b: seq<Write>, i: nat)
    requires ForeignOnly(a, b) && |a| <= i < |b|
    ensures b[i].writer == Foreign
  {
  }

  /** Every commit of a run of withdrawals is justified by the scan. */
  ghost predicate Authorised(w: Write, namespace: string, report: Report, excluded: string -> bool,
                             files: seq<LifecycleFile>) {
    exists k :: 0 <= k < |files| && Withdrawal(w, namespace, files[k].resourceId) && Missing(report, excluded, files[k])
  }

  ghost predicate AllAuthorised(earlier: seq<Write>, later: seq<Write>, namespace: string, report: Report,
                                excluded: string -> bool, files: seq<LifecycleFile>) {
    earlier <= later && forall i :: |earlier| <= i < |later| && later[i].writer == Caller ==>
                          Authorised(later[i], namespace, report, excluded, files)
  }

  /** An entry changes only when its file is missing and its resource out of search; a missing entry stays
      available only for a conflict or because another writer interfered. */
  ghost predicate Settled(earlier: seq<Write>, later: seq<Write>, namespace: string, report: Report,
                          excluded: string -> bool, file: LifecycleFile, ending: Option<Ending>, after: LifecycleFile) {
    && (ending.None? <==> !Missing(report, excluded, file))
    && after == (if ending == Some(Gone) then file.(available := false) else file)
    && (ending == Some(AlreadyMarked) <==> ending.Some? && !file.available)
    && (ending == Some(IdentityConflict) ==> Conflicting(later, namespace, file.resourceId))
    && (ending == Some(Contested) ==> ForeignWriteTo(earlier, later, file.resourceId))
  }

  lemma SettledLater(earlier: seq<Write>, a: seq<Write>, b: seq<Write>, namespace: string, report: Report,
                     excluded: string -> bool, file: LifecycleFile, ending: Option<Ending>, after: LifecycleFile)
    requires Settled(earlier, a, namespace, report, excluded, file, ending, after) && a <= b
    ensures Settled(earlier, b, namespace, report, excluded, file, ending, after)
  {
    hide Observable, Missing;
    if Conflicting(a, namespace, file.resourceId) {
      var s :| Observable(a, s) && s.state.resourceId == file.resourceId && IsPublished(s.state)
               && Foreigner(s, namespace, file.resourceId);
      StillObservable(a, b, s);
    }
  }

  /** The missing-file loop of `FolderImportService.run`, for one namespace. */
  method WithdrawMissing(port: PublicationPort, namespace: string, report: Report, excluded: string -> bool,
                         files: seq<LifecycleFile>)
    returns (r: Result<seq<LifecycleFile>>, endings: seq<Option<Ending>>)
    requires port.Valid()
    modifies port
    ensures port.Valid() && AllAuthorised(old(port.log), port.log, namespace, report, excluded, files)
    ensures r.Ok? ==> && |r.value| == |endings| == |files|
                      && forall k :: 0 <= k < |files| ==>
                           Settled(old(port.log), port.log, namespace, report, excluded, files[k], endings[k],
                               r.value[k])
    ensures r.Err? ==> report.complete && r.error == Catalog && port.Faulted(old(port.clock), port.clock)
  {
    hide PublicationPort.Valid, Missing, Withdrawal, Conflicting, Settled;
    var updated: seq<LifecycleFile> := [];
    endings := [];
    if !report.complete {
      NoneMissing(report, excluded);
      forall k | 0 <= k < |files|
        ensures Settled(port.log, port.log, namespace, report, excluded, files[k], None, files[k])
      {
        Preserved(port.log, port.log, namespace, report, excluded, files[k]);
      }
      return Ok(files), seq(|files|, _ => None);
    }
    for k := 0 to |files|
      invariant port.Valid() && old(port.clock) <= port.clock && |updated| == |endings| == k
      invariant AllAuthorised(old(port.log), port.log, namespace, report, excluded, files)
      invariant forall j :: 0 <= j < k ==>
                  Settled(old(port.log), port.log, namespace, report, excluded, files[j], endings[j], updated[j])
    {
      var entry := files[k];
      if Missing(report, excluded, entry) {
        ghost var before, tick := port.log, port.clock;
        var next := ReconcileMissing(port, namespace, entry);
        Extended(before, port.log);
        MoreAuthorised(old(port.log), before, port.log, namespace, report, excluded, files, k);
        if next.Err? {
          return Err(next.error), endings;
        }
        forall j | 0 <= j < k
          ensures Settled(old(port.log), port.log, namespace, report, excluded, files[j], endings[j], updated[j])
        {
          SettledLater(old(port.log), before, port.log, namespace, report, excluded, files[j], endings[j], updated[j]);
        }
        var after := if next.value == Gone then entry.(available := false) else entry;
        assert Settled(old(port.log), port.log, namespace, report, excluded, entry, Some(next.value), after) by {
          NowSettled(old(port.log), before, port.log, namespace, report, excluded, entry, next.value);
        }
        updated, endings := updated + [after], endings + [Some(next.value)];
      } else {
        Preserved(old(port.log), port.log, namespace, report, excluded, entry);
        updated, endings := updated + [entry], endings + [None];
      }
    }
    return Ok(updated), endings;
  }

  lemma MoreAuthorised(earlier: seq<Write>, a: seq<Write>, b: seq<Write>, namespace: string, report: Report,
                       excluded: string -> bool, files: seq<LifecycleFile>, k: nat)
    requires AllAuthorised(earlier, a, namespace, report, excluded, files)
    requires k < |files| && Missing(report, excluded, files[k])
    requires ForeignOnly(a, b) || (CallerLast(a, b) && Withdrawal(b[|b| - 1], namespace, files[k].resourceId))
    ensures AllAuthorised(earlier, b, namespace, report, excluded, files)
  {
    hide Missing, Withdrawal;
    forall i | |earlier| <= i < |b| && b[i].writer == Caller
      ensures Authorised(b[i], namespace, report, excluded, files)
    {
      if i < |a| {
        assert b[i] == a[i];
      } else {
        assert Withdrawal(b[i], namespace, files[k].resourceId);
      }
    }
  }

  lemma Preserved(earlier: seq<Write>, later: seq<Write>, namespace: string, report: Report,
                  excluded: string -> bool, file: LifecycleFile)
    requires !Missing(report, excluded, file)
    ensures Settled(earlier, later, namespace, report, excluded, file, None, file)
  {
    hide Missing;
  }

  lemma NowSettled(earlier: seq<Write>, a: seq<Write>, b: seq<Write>, namespace: string, report: Report,
                   excluded: string -> bool, file: LifecycleFile, ending: Ending)
    requires Missing(report, excluded, file) && earlier <= a <= b && (ending == AlreadyMarked <==> !file.available)
    requires ending == IdentityConflict ==> Conflicting(b, namespace, file.resourceId)
    requires ending == Contested ==> ForeignWriteTo(a, b, file.resourceId)
    ensures Settled(earlier, b, namespace, report, excluded, file, Some(ending),
                    if ending == Gone then file.(available := false) else file)
  {
    hide Missing;
  }

  lemma NoneMissing(report: Report, excluded: string -> bool)
    requires !report.complete
    ensures forall e :: !Missing(report, excluded, e)
  {
  }

  /** A run never withdraws the resource of a file that is still there: if every entry has its own
      resource, then no commit touches the resource of an entry whose file is in the tree. */
  lemma PresentFilesStay(root: Node, ignored: set<string>, path: seq<string>, namespace: string,
                         excluded: string -> bool, files: seq<LifecycleFile>, k: nat, w: Write)
    requires HasFile(root, path) && path != [] && forall i :: 0 <= i < |path| ==> path[i] != ""
    requires k < |files| && files[k].sourceRef == Relative("", path)
    requires forall i, j :: 0 <= i < j < |files| ==> files[i].resourceId != files[j].resourceId
    requires Authorised(w, namespace, Enumerate(root, "", ignored), excluded, files)
    ensures w.before.state.resourceId != files[k].resourceId
  {
    hide HasFile, Enumerate, Relative;
    var report := Enumerate(root, "", ignored);
    NothingMissed(root, "", ignored, path);
    var j :| 0 <= j < |files| && Withdrawal(w, namespace, files[j].resourceId) && Missing(report, excluded, files[j]);
    assert !Missing(report, excluded, files[k]);
  }

  /** A file is taken as gone exactly if it is not excluded, the scan could look everywhere, nothing is at its place,
      and it does not lie at or below a link or an ignored directory. */
  lemma MissingMeans(root: Node, ignored: set<string>, excluded: string -> bool, file: LifecycleFile)
    requires root.Directory?
    ensures Missing(Enumerate(root, "", ignored), excluded, file) <==>
            && root.readable && !FailsSomewhere(root.entries, ignored) && !excluded(file.sourceRef)
            && !VisitedAt(root.entries, "", ignored, file.sourceRef)
            && !exists p :: ClosedAt(root.entries, "", ignored, p) && (file.sourceRef == p || p + "/" <= file.sourceRef)
  {
    hide VisitedAt, ClosedAt, FailsSomewhere, Enumerate;
    ReportMeans(root, "", ignored);
  }
}
