/** The content-addressed archive as interleaved filesystem steps: any number of concurrent `retain`
    calls, each of which may fail or be killed between any two steps. */
module DurableArtifacts {
  import opened Sequences

  type Payload = seq<int>

  const MAX_BYTES: nat := 4_194_304

  /** Names in the archive directory: an entry per digest, a private staging name per call. */
  datatype Name = Entry(digest: string) | Stage(call: nat)

  /** A directory with at most one file, `payload.json`, possibly still being written. */
  datatype Dir = Dir(file: Option<Payload>)

  datatype Marker = NoMarker | PartialMarker | FullMarker

  datatype Pc =
    | Listing | CreatingMarker | FillingMarker | CheckingMarker   // _open(create=True)
    | Looking                                                     // is the digest there already?
    | Staging | Opening | Writing | Publishing                    // stage, write, rename
    | Verifying(staged: bool)                                     // read back and compare
    | Cleaning(succeeded: bool)                                   // remove the private stage
    | Returned | Raised | Crashed

  datatype Call = Call(data: Payload, pc: Pc)

  datatype Archive = Archive(marker: Marker, entries: map<Name, Dir>, calls: map<nat, Call>)

  ghost predicate Init(s: Archive) {
    s == Archive(NoMarker, map[], map[])
  }

  /** `_read`: the payload, if it is bounded and hashes to the entry's name. */
  function ReadEntry(hash: Payload -> string, s: Archive, digest: string): Option<Payload> {
    if Entry(digest) !in s.entries || s.entries[Entry(digest)].file.None? then None
    else
      var data := s.entries[Entry(digest)].file.value;
      if |data| > MAX_BYTES || hash(data) != digest then None else Some(data)
  }

  /** `read_bytes`, when the filesystem itself does not fail. */
  function ReadBytes(hash: Payload -> string, s: Archive, digest: string): Option<Payload> {
    if s.marker != FullMarker then None else ReadEntry(hash, s, digest)
  }

  predicate Finished(pc: Pc) { pc in {Returned, Raised, Crashed} }

  /** Phases in which the call's `stage` variable is set. */
  predicate HoldsStage(pc: Pc) {
    pc in {Opening, Writing, Publishing} || pc == Verifying(true)
  }

  function WithPc(s: Archive, c: nat, pc: Pc): Archive
    requires c in s.calls
  {
    s.(calls := s.calls[c := s.calls[c].(pc := pc)])
  }

  function WithDir(s: Archive, name: Name, dir: Dir): Archive {
    s.(entries := s.entries[name := dir])
  }

  /** One step of call `c`: the successful effect of each phase. */
  ghost predicate Advance(hash: Payload -> string, s: Archive, t: Archive, c: nat)
    requires c in s.calls
  {
    var data, name, stage := s.calls[c].data, Entry(hash(s.calls[c].data)), Stage(c);
    match s.calls[c].pc
    case Listing =>
      if s.marker != NoMarker then t == WithPc(s, c, CheckingMarker)
      else if s.entries != map[] then t == WithPc(s, c, Raised)
      else t == WithPc(s, c, CreatingMarker)
    case CreatingMarker =>
      if s.marker != NoMarker then t == WithPc(s, c, CheckingMarker)
      else t == WithPc(s, c, FillingMarker).(marker := PartialMarker)
    case FillingMarker => t == WithPc(s, c, CheckingMarker).(marker := FullMarker)
    case CheckingMarker => t == WithPc(s, c, if s.marker == FullMarker then Looking else Raised)
    case Looking => t == WithPc(s, c, if name in s.entries then Verifying(false) else Staging)
    case Staging => stage !in s.entries && t == WithDir(WithPc(s, c, Opening), stage, Dir(None))
    case Opening => t == WithDir(WithPc(s, c, Writing), stage, Dir(Some([])))
    case Writing =>
      && stage in s.entries && s.entries[stage].file.Some?
      && ((exists n :: |s.entries[stage].file.value| <= n <= |data|
                       && t == WithDir(s, stage, Dir(Some(data[..n]))))
          || (s.entries[stage].file.value == data && t == WithPc(s, c, Publishing)))
    case Publishing =>
      // rename never replaces a non-empty directory
      if name in s.entries && s.entries[name].file.Some? then t == WithPc(s, c, Verifying(true))
      else
        && stage in s.entries
        && t == WithPc(s, c, Verifying(false)).(entries := (s.entries - {stage})[name := s.entries[stage]])
    case Verifying(staged) =>
      var succeeded := ReadEntry(hash, s, hash(data)) == Some(data);
      t == WithPc(s, c, if staged then Cleaning(succeeded) else if succeeded then Returned else Raised)
    case Cleaning(succeeded) =>
      || (stage in s.entries && s.entries[stage].file.Some? && t == WithDir(s, stage, Dir(None)))
      || (stage in s.entries && s.entries[stage].file.None?
          && t == WithPc(s, c, if succeeded then Returned else Raised).(entries := s.entries - {stage}))
    case _ => false
  }

  /** An operating-system error in the current phase. */
  ghost predicate Fault(s: Archive, t: Archive, c: nat)
    requires c in s.calls
  {
    var pc := s.calls[c].pc;
    !Finished(pc) && t == WithPc(s, c, if HoldsStage(pc) then Cleaning(false) else Raised)
  }

  /** The process is killed: nothing is cleaned up. */
  ghost predicate Crash(s: Archive, t: Archive, c: nat)
    requires c in s.calls
  {
    !Finished(s.calls[c].pc) && t == WithPc(s, c, Crashed)
  }

  /** A new call of `retain`; oversized data is refused before anything happens. */
  ghost predicate Begin(s: Archive, t: Archive, c: nat, data: Payload) {
    c !in s.calls && t == s.(calls := s.calls[c := Call(data, if |data| > MAX_BYTES then Raised else Listing)])
  }

  ghost predicate Next(hash: Payload -> string, s: Archive, t: Archive) {
    || (exists c, data :: Begin(s, t, c, data))
    || (exists c :: c in s.calls && (Advance(hash, s, t, c) || Fault(s, t, c) || Crash(s, t, c)))
  }

  // -------------------------------------------------------------- invariant

  /** An entry under a digest name holds a complete, bounded payload hashing to that name. */
  predicate EntryOk(hash: Payload -> string, digest: string, dir: Dir) {
    dir.file.Some? && |dir.file.value| <= MAX_BYTES && hash(dir.file.value) == digest
  }

  ghost predicate EntriesOk(hash: Payload -> string, s: Archive) {
    forall d :: Entry(d) in s.entries ==> EntryOk(hash, d, s.entries[Entry(d)])
  }

  /** What a call may rely on in its phase. */
  ghost predicate CallOk(hash: Payload -> string, s: Archive, c: nat)
    requires c in s.calls
  {
    var data, pc, stage := s.calls[c].data, s.calls[c].pc, Stage(c);
    && (pc != Raised && pc != Crashed ==> |data| <= MAX_BYTES)
    && (pc in {Looking, Staging, Opening, Writing, Publishing, Verifying(true), Verifying(false), Returned} ==>
          s.marker == FullMarker)
    && (pc == Cleaning(true) ==> s.marker == FullMarker)
    && (pc == Writing ==> stage in s.entries && s.entries[stage].file.Some? && s.entries[stage].file.value <= data)
    && (pc == Publishing ==> stage in s.entries && s.entries[stage] == Dir(Some(data)))
    && (pc == Returned || pc == Cleaning(true) ==> ReadEntry(hash, s, hash(data)) == Some(data))
  }

  ghost predicate Safe(hash: Payload -> string, s: Archive) {
    EntriesOk(hash, s) && forall c :: c in s.calls ==> CallOk(hash, s, c)
  }

  /** Nothing a step does can hurt what is already archived. */
  ghost predicate Keeps(s: Archive, t: Archive) {
    && (forall d :: Entry(d) in s.entries ==> Entry(d) in t.entries && t.entries[Entry(d)] == s.entries[Entry(d)])
    && (s.marker == FullMarker ==> t.marker == FullMarker)
    && (forall c :: c in s.calls ==> c in t.calls && t.calls[c].data == s.calls[c].data)
  }

  /** Steps of one call leave other calls and their stages alone. */
  ghost predicate OthersUntouched(s: Archive, t: Archive, c: nat) {
    forall k :: k in t.calls && k != c ==>
      && k in s.calls && t.calls[k] == s.calls[k]
      && (Stage(k) in s.entries <==> Stage(k) in t.entries)
      && (Stage(k) in s.entries ==> t.entries[Stage(k)] == s.entries[Stage(k)])
  }

  lemma AdvanceEffect(hash: Payload -> string, s: Archive, t: Archive, c: nat)
    requires Safe(hash, s) && c in s.calls && Advance(hash, s, t, c)
    ensures OthersUntouched(s, t, c) && c in t.calls && t.calls[c].data == s.calls[c].data
    ensures Keeps(s, t) && EntriesOk(hash, t)
  {
    assert CallOk(hash, s, c);
    AdvanceKeeps(hash, s, t, c);
    hide Keeps, EntriesOk;
  }

  lemma AdvanceKeeps(hash: Payload -> string, s: Archive, t: Archive, c: nat)
    requires Safe(hash, s) && c in s.calls && Advance(hash, s, t, c)
    ensures Keeps(s, t) && EntriesOk(hash, t)
  {
    assert CallOk(hash, s, c);
  }

  lemma AdvanceSelf(hash: Payload -> string, s: Archive, t: Archive, c: nat)
    requires Safe(hash, s) && c in s.calls && Advance(hash, s, t, c)
    ensures c in t.calls && CallOk(hash, t, c)
  {
    assert CallOk(hash, s, c);
    AdvanceEffect(hash, s, t, c);
  }

  lemma StillOk(hash: Payload -> string, s: Archive, t: Archive, c: nat, k: nat)
    requires Safe(hash, s) && Keeps(s, t) && OthersUntouched(s, t, c) && k in t.calls && k != c
    ensures CallOk(hash, t, k)
  {
    assert CallOk(hash, s, k);
  }

  lemma BeginEffect(hash: Payload -> string, s: Archive, t: Archive, c: nat, data: Payload)
    requires Safe(hash, s) && Begin(s, t, c, data)
    ensures OthersUntouched(s, t, c) && Keeps(s, t) && EntriesOk(hash, t) && c in t.calls && CallOk(hash, t, c)
  {
  }

  lemma StopEffect(hash: Payload -> string, s: Archive, t: Archive, c: nat)
    requires Safe(hash, s) && c in s.calls && (Fault(s, t, c) || Crash(s, t, c))
    ensures OthersUntouched(s, t, c) && Keeps(s, t) && EntriesOk(hash, t) && c in t.calls && CallOk(hash, t, c)
  {
    assert CallOk(hash, s, c);
  }

  lemma SafeAfter(hash: Payload -> string, s: Archive, t: Archive, c: nat)
    requires Safe(hash, s) && OthersUntouched(s, t, c) && Keeps(s, t) && EntriesOk(hash, t)
    requires c in t.calls && CallOk(hash, t, c)
    ensures Safe(hash, t)
  {
    hide CallOk, Keeps, OthersUntouched, EntriesOk;
    forall k | k in t.calls ensures CallOk(hash, t, k) {
      if k != c {
        StillOk(hash, s, t, c, k);
      }
    }
  }

  /** Every step keeps the invariant and everything archived. */
  lemma StepKeepsSafe(hash: Payload -> string, s: Archive, t: Archive)
    requires Safe(hash, s) && Next(hash, s, t)
    ensures Safe(hash, t) && Keeps(s, t)
  {
    hide Advance, Begin, Fault, Crash, Safe, Keeps, OthersUntouched, EntriesOk, CallOk;
    if c, data :| Begin(s, t, c, data) {
      BeginEffect(hash, s, t, c, data);
      SafeAfter(hash, s, t, c);
    } else {
      var c :| c in s.calls && (Advance(hash, s, t, c) || Fault(s, t, c) || Crash(s, t, c));
      if Advance(hash, s, t, c) {
        AdvanceEffect(hash, s, t, c);
        AdvanceSelf(hash, s, t, c);
      } else {
        StopEffect(hash, s, t, c);
      }
      SafeAfter(hash, s, t, c);
    }
  }

  // ------------------------------------------------------------------- runs

  ghost predicate Run(hash: Payload -> string, run: seq<Archive>) {
    && run != [] && Init(run[0])
    && forall i :: 0 <= i < |run| - 1 ==> Next(hash, run[i], run[i + 1])
  }

  /** In every state of every run, every entry holds a complete payload hashing to its name. */
  lemma {:induction false} ArchiveAlwaysSafe(hash: Payload -> string, run: seq<Archive>, i: nat)
    requires Run(hash, run) && i < |run|
    ensures Safe(hash, run[i])
    decreases i
  {
    if i > 0 {
      hide Safe, Next, Init;
      ArchiveAlwaysSafe(hash, run, i - 1);
      StepKeepsSafe(hash, run[i - 1], run[i]);
    }
  }

  lemma {:induction false} EntriesPersist(hash: Payload -> string, run: seq<Archive>, i: nat, j: nat)
    requires Run(hash, run) && i <= j < |run|
    ensures Keeps(run[i], run[j])
    decreases j - i
  {
    hide Safe, Next, Keeps, Init;
    KeepsItself(run[i]);
    if i < j {
      EntriesPersist(hash, run, i, j - 1);
      ArchiveAlwaysSafe(hash, run, j - 1);
      StepKeepsSafe(hash, run[j - 1], run[j]);
      KeepsTransitive(run[i], run[j - 1], run[j]);
    }
  }

  lemma KeepsItself(s: Archive)
    ensures Keeps(s, s)
  {
  }

  lemma KeepsTransitive(s: Archive, t: Archive, u: Archive)
    requires Keeps(s, t) && Keeps(t, u)
    ensures Keeps(s, u)
  {
  }

  /** Once `retain` has returned, every later read of its reference gives back exactly the bytes
      retained, whatever other calls do and wherever they die. No property of the hash is needed. */
  lemma RetainedForever(hash: Payload -> string, run: seq<Archive>, i: nat, j: nat, c: nat)
    requires Run(hash, run) && i <= j < |run| && c in run[i].calls && run[i].calls[c].pc == Returned
    ensures ReadBytes(hash, run[j], hash(run[i].calls[c].data)) == Some(run[i].calls[c].data)
  {
    ArchiveAlwaysSafe(hash, run, i);
    EntriesPersist(hash, run, i, j);
    assert CallOk(hash, run[i], c);
  }

  /** A read never returns bytes other than those first published under the digest. */
  lemma ReadsAgree(hash: Payload -> string, run: seq<Archive>, i: nat, j: nat, digest: string)
    requires Run(hash, run) && i <= j < |run| && ReadBytes(hash, run[i], digest).Some?
    ensures ReadBytes(hash, run[j], digest) == ReadBytes(hash, run[i], digest)
  {
    EntriesPersist(hash, run, i, j);
  }

  // --------------------------------------------------------------- completion

  /** The payload is archived already, or no other payload has its digest. */
  ghost predicate Unmistaken(hash: Payload -> string, s: Archive, data: Payload) {
    || ReadEntry(hash, s, hash(data)) == Some(data)
    || forall x :: hash(x) == hash(data) ==> x == data
  }

  /** The call has not failed, its stage exists exactly while it is in use, and once it verifies there is an entry. */
  ghost predicate OnCourse(hash: Payload -> string, s: Archive, c: nat) {
    && c in s.calls && s.marker == FullMarker && Unmistaken(hash, s, s.calls[c].data)
    && var pc := s.calls[c].pc;
    && pc !in {Raised, Crashed, Cleaning(false)}
    && (pc in {Listing, CreatingMarker, FillingMarker, CheckingMarker, Looking, Staging} ==> Stage(c) !in s.entries)
    && (pc in {Opening, Verifying(true), Cleaning(true)} ==> Stage(c) in s.entries)
    && (pc.Verifying? ==> Entry(hash(s.calls[c].data)) in s.entries)
  }

  lemma StaysUnmistaken(hash: Payload -> string, s: Archive, t: Archive, data: Payload)
    requires Unmistaken(hash, s, data) && Keeps(s, t)
    ensures Unmistaken(hash, t, data)
  {
  }

  /** A step of the call itself, or any step of any other: everything but its own fault or death. */
  ghost predicate Spares(hash: Payload -> string, s: Archive, t: Archive, c: nat) {
    || (exists k, data :: Begin(s, t, k, data) && k != c)
    || (exists k :: k in s.calls && k != c && (Advance(hash, s, t, k) || Fault(s, t, k) || Crash(s, t, k)))
    || (c in s.calls && Advance(hash, s, t, c))
  }

  lemma VerifyingSucceeds(hash: Payload -> string, s: Archive, c: nat)
    requires Safe(hash, s) && OnCourse(hash, s, c) && s.calls[c].pc.Verifying?
    ensures ReadEntry(hash, s, hash(s.calls[c].data)) == Some(s.calls[c].data)
  {
    var data := s.calls[c].data;
    assert CallOk(hash, s, c);
    assert EntryOk(hash, hash(data), s.entries[Entry(hash(data))]);
    assert hash(s.entries[Entry(hash(data))].file.value) == hash(data);
  }

  lemma CallIsOk(hash: Payload -> string, s: Archive, c: nat)
    requires Safe(hash, s) && c in s.calls
    ensures CallOk(hash, s, c)
  {
    hide CallOk, EntriesOk;
  }

  lemma OwnStepStays(hash: Payload -> string, s: Archive, t: Archive, c: nat)
    requires Safe(hash, s) && OnCourse(hash, s, c) && Advance(hash, s, t, c)
    ensures OnCourse(hash, t, c)
  {
    hide EntriesOk, Unmistaken, Keeps, OthersUntouched, Safe;
    CallIsOk(hash, s, c);
    AdvanceEffect(hash, s, t, c);
    StaysUnmistaken(hash, s, t, s.calls[c].data);
    if s.calls[c].pc.Verifying? {
      VerifyingSucceeds(hash, s, c);
    }
  }

  lemma OthersStepStays(hash: Payload -> string, s: Archive, t: Archive, c: nat, k: nat)
    requires OnCourse(hash, s, c) && k != c && Keeps(s, t) && OthersUntouched(s, t, k) && c in t.calls
    ensures OnCourse(hash, t, c)
  {
    hide Unmistaken;
    StaysUnmistaken(hash, s, t, s.calls[c].data);
  }

  /** A call on an opened archive is never made to fail by others: only an error or a kill of its own can. In
      particular retaining what is there already succeeds, and nothing is asked of the hash. */
  lemma StaysOnCourse(hash: Payload -> string, s: Archive, t: Archive, c: nat)
    requires Safe(hash, s) && OnCourse(hash, s, c) && Spares(hash, s, t, c)
    ensures Safe(hash, t) && OnCourse(hash, t, c)
  {
    hide Safe, Keeps, OthersUntouched, EntriesOk, CallOk, Advance, Begin, Fault, Crash;
    assert Next(hash, s, t);
    StepKeepsSafe(hash, s, t);
    KeepsCalls(s, t);
    if Advance(hash, s, t, c) {
      OwnStepStays(hash, s, t, c);
    } else if k, data :| Begin(s, t, k, data) && k != c {
      BeginEffect(hash, s, t, k, data);
      OthersStepStays(hash, s, t, c, k);
    } else {
      var k :| k in s.calls && k != c && (Advance(hash, s, t, k) || Fault(s, t, k) || Crash(s, t, k));
      if Advance(hash, s, t, k) {
        AdvanceEffect(hash, s, t, k);
      } else {
        StopEffect(hash, s, t, k);
      }
      OthersStepStays(hash, s, t, c, k);
    }
  }

  lemma KeepsCalls(s: Archive, t: Archive)
    requires Keeps(s, t)
    ensures forall c :: c in s.calls ==> c in t.calls
  {
  }

  /** Steps left to a call on course. */
  function StepsLeft(s: Archive, c: nat): nat
    requires c in s.calls
  {
    match s.calls[c].pc
    case Listing => 20
    case CreatingMarker => 19
    case FillingMarker => 19
    case CheckingMarker => 18
    case Looking => 17
    case Staging => 16
    case Opening => 15
    case Writing =>
      if Stage(c) in s.entries && s.entries[Stage(c)].file == Some(s.calls[c].data) then 13 else 14
    case Publishing => 12
    case Verifying(_) => 11
    case Cleaning(_) => if Stage(c) in s.entries && s.entries[Stage(c)].file.Some? then 10 else 9
    case Returned => 0
    case Raised => 0
    case Crashed => 0
  }

  /** A call on course that has not returned can take a step that brings it nearer. */
  lemma CanAdvance(hash: Payload -> string, s: Archive, c: nat) returns (t: Archive)
    requires Safe(hash, s) && OnCourse(hash, s, c) && s.calls[c].pc != Returned
    ensures Advance(hash, s, t, c) && c in t.calls && StepsLeft(t, c) < StepsLeft(s, c)
  {
    var data, name, stage := s.calls[c].data, Entry(hash(s.calls[c].data)), Stage(c);
    assert CallOk(hash, s, c);
    match s.calls[c].pc
    case Listing => t := WithPc(s, c, CheckingMarker);
    case CreatingMarker => t := WithPc(s, c, CheckingMarker);
    case FillingMarker => t := WithPc(s, c, CheckingMarker).(marker := FullMarker);
    case CheckingMarker => t := WithPc(s, c, Looking);
    case Looking => t := WithPc(s, c, if name in s.entries then Verifying(false) else Staging);
    case Staging => t := WithDir(WithPc(s, c, Opening), stage, Dir(None));
    case Opening => t := WithDir(WithPc(s, c, Writing), stage, Dir(Some([])));
    case Writing =>
      if s.entries[stage].file.value == data {
        t := WithPc(s, c, Publishing);
      } else {
        assert data[..|data|] == data;
        t := WithDir(s, stage, Dir(Some(data[..|data|])));
      }
    case Publishing =>
      t := if name in s.entries && s.entries[name].file.Some? then WithPc(s, c, Verifying(true))
           else WithPc(s, c, Verifying(false)).(entries := (s.entries - {stage})[name := s.entries[stage]]);
    case Verifying(staged) =>
      VerifyingSucceeds(hash, s, c);
      t := WithPc(s, c, if staged then Cleaning(true) else Returned);
    case Cleaning(_) =>
      t := if s.entries[stage].file.Some? then WithDir(s, stage, Dir(None))
           else WithPc(s, c, Returned).(entries := s.entries - {stage});
  }

  /** From any state it may be in, a call on course left to itself returns; so, after `RetainedForever`, its
      bytes stay readable. */
  lemma {:induction false} RetainReturns(hash: Payload -> string, s: Archive, c: nat) returns (run: seq<Archive>)
    requires Safe(hash, s) && OnCourse(hash, s, c)
    ensures run != [] && run[0] == s && (forall i :: 0 <= i < |run| ==> c in run[i].calls)
    ensures forall i :: 0 <= i < |run| - 1 ==> Advance(hash, run[i], run[i + 1], c)
    ensures run[|run| - 1].calls[c].pc == Returned
    decreases StepsLeft(s, c)
  {
    hide Safe, Unmistaken, Advance, StepsLeft;
    run := [s];
    if s.calls[c].pc != Returned {
      var t := CanAdvance(hash, s, c);
      assert Spares(hash, s, t, c);
      StaysOnCourse(hash, s, t, c);
      var rest := RetainReturns(hash, t, c);
      run := [s] + rest;
    }
  }

  /** Private stages belong to calls. */
  ghost predicate StagesOwned(s: Archive) { forall k :: Stage(k) in s.entries ==> k in s.calls }

  lemma AdvanceStages(hash: Payload -> string, s: Archive, t: Archive, c: nat)
    requires c in s.calls && Advance(hash, s, t, c)
    ensures t.calls.Keys == s.calls.Keys && forall k :: Stage(k) in t.entries ==> Stage(k) in s.entries || k == c
  {
    hide ReadEntry;
  }

  lemma StepKeepsStages(hash: Payload -> string, s: Archive, t: Archive)
    requires StagesOwned(s) && Next(hash, s, t)
    ensures StagesOwned(t)
  {
    hide Advance;
    if !(exists c, data :: Begin(s, t, c, data)) {
      var c :| c in s.calls && (Advance(hash, s, t, c) || Fault(s, t, c) || Crash(s, t, c));
      if Advance(hash, s, t, c) {
        AdvanceStages(hash, s, t, c);
      }
    }
  }

  lemma {:induction false} StagesAlwaysOwned(hash: Payload -> string, run: seq<Archive>, i: nat)
    requires Run(hash, run) && i < |run|
    ensures StagesOwned(run[i])
    decreases i
  {
    if i > 0 {
      hide Next, Init, StagesOwned;
      StagesAlwaysOwned(hash, run, i - 1);
      StepKeepsStages(hash, run[i - 1], run[i]);
    }
  }

  /** In every run, a new call on an archive that has been opened is on course, whatever calls before it did. */
  lemma BeginsOnCourse(hash: Payload -> string, run: seq<Archive>, i: nat, t: Archive, c: nat, data: Payload)
    requires Run(hash, run) && i < |run| && run[i].marker == FullMarker
    requires Begin(run[i], t, c, data) && |data| <= MAX_BYTES && Unmistaken(hash, run[i], data)
    ensures Safe(hash, t) && OnCourse(hash, t, c)
  {
    hide Safe, Advance;
    StagesAlwaysOwned(hash, run, i);
    ArchiveAlwaysSafe(hash, run, i);
    assert Next(hash, run[i], t);
    StepKeepsSafe(hash, run[i], t);
  }
}
