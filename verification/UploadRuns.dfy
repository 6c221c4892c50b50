/** What holds of the upload hook over every history of starts, pauses, cancels, failed batches
    and resumes in which a run is never started while another is still awaiting. */
module UploadRuns {
  import opened Basics
  import opened Wrappers
  import opened R2
  import opened MultipartUpload

  // --- Byte ranges cover the file --------------------------------------------------------

  /** The ranges stored for every part of `file`. */
  ghost predicate HoldsAll(stored: Stored, id: nat, file: Bytes) {
    forall n :: 1 <= n <= TotalParts(|file|) ==> (id, n) in stored && stored[(id, n)] == Chunk(file, n)
  }

  /** Where part n + 1 begins. */
  function Offset(n: nat, size: nat): nat { Min(Chunks(n), size) }

  lemma PartMatches(stored: Stored, id: nat, file: Bytes, n: nat)
    requires HoldsAll(stored, id, file) && 1 <= n <= TotalParts(|file|)
    ensures Matches(stored, id, PartOf(file, n)) && stored[(id, n)] == Chunk(file, n)
  {
  }

  /** The file from where part i + 1 begins. */
  function Rest(file: Bytes, i: nat): Bytes { file[Offset(i, |file|)..] }

  lemma RestEnds(file: Bytes)
    ensures Rest(file, 0) == file && Rest(file, TotalParts(|file|)) == []
  {
  }

  lemma {:induction false} RangesJoin(stored: Stored, id: nat, file: Bytes, all: seq<Part>, i: nat)
    requires HoldsAll(stored, id, file) && all == PartsUpTo(file, TotalParts(|file|)) && i <= |all|
    requires forall p :: p in all ==> Matches(stored, id, p)
    ensures Joined(stored, id, all[i..]) == Rest(file, i)
    decreases |all| - i
  {
    if i < |all| {
      RangesJoin(stored, id, file, all, i + 1);
      PartMatches(stored, id, file, i + 1);
    } else {
      RestEnds(file);
    }
  }

  /** Parts numbered 1, 2, 3, ... that match the store, all but the last of them full. */
  ghost predicate WellStored(stored: Stored, id: nat, all: seq<Part>) {
    && (forall i :: 0 <= i < |all| ==> all[i].number == i + 1 && Matches(stored, id, all[i]))
    && (forall i :: 0 <= i < |all| - 1 ==> |stored[(id, all[i].number)]| >= MIN_PART_SIZE)
  }

  lemma AcceptedIff(stored: Stored, id: nat, all: seq<Part>)
    requires WellStored(stored, id, all)
    ensures forall p :: p in all ==> Matches(stored, id, p)
    ensures Acceptable(stored, id, all) <==> 1 <= |all| <= MAX_PARTS
  {
    if |all| > MAX_PARTS {
      assert all[|all| - 1] in all;
    }
  }

  lemma WholeFile(stored: Stored, id: nat, file: Bytes)
    requires HoldsAll(stored, id, file)
    ensures var all := PartsUpTo(file, TotalParts(|file|));
            && (forall p :: p in all ==> Matches(stored, id, p))
            && Joined(stored, id, all) == file
  {
    var all := PartsUpTo(file, TotalParts(|file|));
    AcceptedIff(stored, id, all);
    RangesJoin(stored, id, file, all, 0);
    RestEnds(file);
    assert all[0..] == all;
  }

  /** The store gives back the file from its parts in whatever order they are listed, and
      accepts the call exactly when there is a part and no more than it can number. */
  lemma Reassembly(stored: Stored, id: nat, file: Bytes, parts: seq<Part>)
    requires HoldsAll(stored, id, file)
    requires multiset(parts) == multiset(PartsUpTo(file, TotalParts(|file|)))
    ensures Complete(stored, id, parts) == if 1 <= TotalParts(|file|) <= MAX_PARTS then Some(file) else None
  {
    var all := PartsUpTo(file, TotalParts(|file|));
    AcceptedIff(stored, id, all);
    WholeFile(stored, id, file);
    SortRestores(parts, all);
  }

  // --- The invariant ---------------------------------------------------------------------

  /** Parts 1..k of an upload are stored, as long as the store keeps it open. */
  ghost predicate Landed(c: Cloud, id: nat, k: nat) {
    id in c.closed || forall n :: 1 <= n <= k ==> (id, n) in c.stored
  }

  /** A completion call lists every part of its own file once, in order, with its own ETag. */
  ghost predicate CallOk(files: map<nat, Bytes>, call: CompleteCall) {
    && call.id in files && files[call.id] == call.file && call.size == |call.file|
    && call.parts == PartsUpTo(call.file, TotalParts(|call.file|))
  }

  ghost predicate AssembledIn(log: seq<Handled>, id: nat) {
    exists x :: x in log && x.Completed? && x.call.id == id && x.assembled.Some?
  }

  /** What a completion call should come to, after what has landed before it. */
  ghost function Expected(log: seq<Handled>, call: CompleteCall): Option<Bytes> {
    if Aborted(call.id) in log || AssembledIn(log, call.id) || !(1 <= TotalParts(|call.file|) <= MAX_PARTS)
    then None else Some(call.file)
  }

  ghost predicate LandingOk(c: Cloud, k: nat)
    requires k < |c.log|
  {
    c.log[k].Completed? ==> c.log[k].call in c.completes && c.log[k].assembled == Expected(c.log[..k], c.log[k].call)
  }

  /** What is stored under a part number is that byte range of the upload's own file. */
  ghost predicate StoredOk(files: map<nat, Bytes>, stored: Stored) {
    forall key :: key in stored ==>
      key.0 in files && 1 <= key.1 <= TotalParts(|files[key.0]|) && stored[key] == Chunk(files[key.0], key.1)
  }

  /** An upload is closed by an abort or by its completion, and its parts are then gone. */
  ghost predicate ClosedOk(c: Cloud) {
    && (forall key :: key in c.stored ==> key.0 !in c.closed)
    && (forall id :: id in c.closed ==> id in c.files && (Aborted(id) in c.log || AssembledIn(c.log, id)))
    && (forall id {:trigger AssembledIn(c.log, id)} :: AssembledIn(c.log, id) ==> id in c.closed)
  }

  ghost predicate CloudOk(c: Cloud) {
    && (forall id :: id in c.files ==> id < c.nextId)
    && c.deletes <= c.files.Keys
    && (forall id :: Aborted(id) in c.log ==> id in c.deletes)
    && StoredOk(c.files, c.stored)
    && ClosedOk(c)
    && (forall call :: call in c.completes ==> CallOk(c.files, call))
    && (forall k {:trigger LandingOk(c, k)} :: 0 <= k < |c.log| ==> LandingOk(c, k))
  }

  /** The progress shown once `k` parts are recorded. */
  function Reported(k: nat, total: nat): nat {
    if k == 0 || total == 0 then 0 else Min(RoundPercent(k, total), 99)
  }

  /** The recorded parts are the first ones of the file, in order, and all of them are stored. */
  ghost predicate Recorded1To(s: State, id: nat, file: Bytes) {
    && |s.uploaded| <= TotalParts(|file|)
    && s.uploaded == PartsUpTo(file, |s.uploaded|)
    && Landed(s.cloud, id, |s.uploaded|)
    && (s.progress == Reported(|s.uploaded|, TotalParts(|file|)) ||
        (s.progress == 100 && |s.uploaded| == TotalParts(|file|)))
  }

  ghost predicate SessionOk(s: State) {
    s.uploadId.Some? ==>
      && s.uploadId.value in s.cloud.files
      && (s.file.Some? ==> s.file.value == s.cloud.files[s.uploadId.value])
      && Recorded1To(s, s.uploadId.value, s.cloud.files[s.uploadId.value])
  }

  ghost predicate Inv(s: State) {
    CloudOk(s.cloud) && SessionOk(s)
  }

  ghost predicate Grows(c: Cloud, c': Cloud) {
    && (forall id :: id in c.files ==> id in c'.files && c'.files[id] == c.files[id])
    && (forall key :: key in c.stored ==> key in c'.stored || key.0 in c'.closed)
    && c.closed <= c'.closed
    && c.completes <= c'.completes && c.log <= c'.log
    && c.nextId <= c'.nextId
  }

  lemma GrowsThrough(a: Cloud, b: Cloud, c: Cloud)
    requires Grows(a, b) && Grows(b, c)
    ensures Grows(a, c)
  {
    assert c.completes[..|b.completes|] == b.completes && c.log[..|b.log|] == b.log;
  }

  lemma LandedStays(c: Cloud, c': Cloud, id: nat, k: nat)
    requires Grows(c, c') && Landed(c, id, k)
    ensures Landed(c', id, k)
  {
  }

  lemma LogExtends(c: Cloud, c': Cloud, x: Handled)
    requires forall k {:trigger LandingOk(c, k)} :: 0 <= k < |c.log| ==> LandingOk(c, k)
    requires c'.log == c.log + [x] && c'.completes == c.completes
    requires LandingOk(c', |c.log|)
    ensures forall k {:trigger LandingOk(c', k)} :: 0 <= k < |c'.log| ==> LandingOk(c', k)
  {
    forall k {:trigger LandingOk(c', k)} | 0 <= k < |c'.log| ensures LandingOk(c', k) {
      if k < |c.log| {
        assert LandingOk(c, k);
        assert c'.log[..k] == c.log[..k];
      }
    }
  }

  lemma AssembledExtends(log: seq<Handled>, x: Handled, id: nat)
    ensures AssembledIn(log + [x], id) <==> AssembledIn(log, id) || (x.Completed? && x.call.id == id && x.assembled.Some?)
  {
    if AssembledIn(log, id) {
      var y :| y in log && y.Completed? && y.call.id == id && y.assembled.Some?;
      assert y in log + [x];
    }
    if x.Completed? && x.call.id == id && x.assembled.Some? {
      assert x in log + [x];
    }
  }

  lemma ClosedSame(c: Cloud, x: Handled)
    requires ClosedOk(c) && !(x.Completed? && x.assembled.Some?)
    ensures ClosedOk(c.(log := c.log + [x]))
  {
    forall id {:trigger AssembledIn(c.log + [x], id)} ensures AssembledIn(c.log + [x], id) <==> AssembledIn(c.log, id) {
      AssembledExtends(c.log, x, id);
    }
    forall id | id in c.closed ensures Aborted(id) in c.log + [x] || AssembledIn(c.log + [x], id) {
      AssembledExtends(c.log, x, id);
    }
  }

  lemma ClosedMore(c: Cloud, x: Handled, id: nat)
    requires ClosedOk(c) && id in c.files
    requires x == Aborted(id) || (x.Completed? && x.call.id == id && x.assembled.Some?)
    ensures ClosedOk(Closed(c.(log := c.log + [x]), id))
  {
    var c' := Closed(c.(log := c.log + [x]), id);
    forall i {:trigger AssembledIn(c'.log, i)} | AssembledIn(c'.log, i) ensures i in c'.closed {
      AssembledExtends(c.log, x, i);
    }
    forall i | i in c'.closed ensures i in c'.files && (Aborted(i) in c'.log || AssembledIn(c'.log, i)) {
      AssembledExtends(c.log, x, i);
      assert x in c'.log;
    }
  }

  /** Something landed on the server: uploads may close, and nothing else is taken back. */
  ghost predicate Served(c: Cloud, c': Cloud) {
    Grows(c, c') && c'.files == c.files && c'.completes == c.completes && c'.nextId == c.nextId
  }

  lemma DeleteServed(c: Cloud, id: nat, aborted: bool)
    requires CloudOk(c)
    ensures CloudOk(DeleteLanded(c, id, aborted)) && Served(c, DeleteLanded(c, id, aborted))
  {
    if id in c.deletes && Aborted(id) !in c.log {
      var x, c' := Aborted(id), DeleteLanded(c, id, aborted);
      LogExtends(c, c', x);
      ClosedSame(c, x);
      ClosedMore(c, x, id);
    }
  }

  /** What a completion call comes to when it lands. */
  lemma AssembleIs(c: Cloud, call: CompleteCall)
    requires CloudOk(c) && call in c.completes && Landed(c, call.id, TotalParts(|call.file|))
    ensures Assemble(c, call) == Expected(c.log, call)
  {
    assert CallOk(c.files, call);
    if Aborted(call.id) in c.log {
    } else if call.id in c.closed {
      assert AssembledIn(c.log, call.id);
      NothingLeft(c.stored, call.id, call.parts);
    } else {
      assert HoldsAll(c.stored, call.id, call.file);
      Reassembly(c.stored, call.id, call.file, call.parts);
    }
  }

  lemma NothingLeft(stored: Stored, id: nat, parts: seq<Part>)
    requires forall key :: key in stored ==> key.0 != id
    ensures Complete(stored, id, parts) == None
  {
    var sorted := SortByNumber(parts);
    if sorted != [] {
      assert sorted[0] in sorted && !Matches(stored, id, sorted[0]);
    }
  }

  lemma CompleteServed(c: Cloud, call: CompleteCall)
    requires CloudOk(c) && call in c.completes && Landed(c, call.id, TotalParts(|call.file|))
    ensures CloudOk(CompleteLanded(c, call)) && Served(c, CompleteLanded(c, call))
  {
    var x, c' := Completed(call, Assemble(c, call)), CompleteLanded(c, call);
    AssembleIs(c, call);
    assert CallOk(c.files, call);
    assert c'.log[..|c.log|] == c.log;
    LogExtends(c, c', x);
    if x.assembled.Some? {
      ClosedMore(c, x, call.id);
    } else {
      ClosedSame(c, x);
    }
  }

  /** A click keeps the invariant, and either leaves the upload alone or drops it. */
  ghost predicate SameUpload(s: State, s': State) {
    && Inv(s') && Served(s.cloud, s'.cloud)
    && (s'.uploadId.Some? ==>
          s'.uploadId == s.uploadId && s'.uploaded == s.uploaded && s'.progress == s.progress && s'.file == s.file)
  }

  lemma ClickKeeps(s: State, c: Click)
    requires Inv(s)
    ensures SameUpload(s, Clicked(s, c))
  {
    var s' := Clicked(s, c);
    match c {
      case CancelClick => CancelServed(s.cloud, s.uploadId);
      case DeleteLands(id, aborted) =>
        DeleteServed(s.cloud, id, aborted);
        if s.uploadId.Some? {
          LandedStays(s.cloud, s'.cloud, s.uploadId.value, |s.uploaded|);
        }
      case _ =>
    }
  }

  lemma CancelServed(c: Cloud, id: Option<nat>)
    requires CloudOk(c) && (id.Some? ==> id.value in c.files)
    ensures id.Some? ==> CloudOk(c.(deletes := c.deletes + {id.value})) && Served(c, c.(deletes := c.deletes + {id.value}))
  {
    if id.Some? {
      var c' := c.(deletes := c.deletes + {id.value});
      forall k {:trigger LandingOk(c', k)} | 0 <= k < |c'.log| ensures LandingOk(c', k) {
        assert LandingOk(c, k);
      }
    }
  }

  lemma {:induction false} ClicksKeep(s: State, clicks: seq<Click>)
    requires Inv(s)
    ensures SameUpload(s, Clicks(s, clicks))
    decreases |clicks|
  {
    if clicks != [] {
      var s1 := Clicked(s, clicks[0]);
      ClickKeeps(s, clicks[0]);
      ClicksKeep(s1, clicks[1..]);
      GrowsThrough(s.cloud, s1.cloud, Clicks(s, clicks).cloud);
    }
  }

  lemma {:induction false} PutStores(files: map<nat, Bytes>, stored: Stored, id: nat, batch: seq<nat>, puts: nat -> PutOutcome, i: nat)
    requires StoredOk(files, stored) && id in files
    requires i <= |batch| && forall n :: n in batch ==> 1 <= n <= TotalParts(|files[id]|)
    ensures StoredOk(files, PutFrom(stored, files[id], id, batch, puts, i))
    decreases |batch| - i
  {
    if i < |batch| {
      assert batch[i] in batch;
      var next := if Lands(puts(i)) then stored[(id, batch[i]) := Chunk(files[id], batch[i])] else stored;
      PutStores(files, next, id, batch, puts, i + 1);
    }
  }

  lemma {:induction false} PutGrows(stored: Stored, file: Bytes, id: nat, batch: seq<nat>, puts: nat -> PutOutcome, i: nat)
    requires i <= |batch|
    ensures var stored' := PutFrom(stored, file, id, batch, puts, i);
            && stored.Keys <= stored'.Keys
            && (forall j :: i <= j < |batch| && puts(j).Etagged? ==> (id, batch[j]) in stored')
    decreases |batch| - i
  {
    if i < |batch| {
      var next := if Lands(puts(i)) then stored[(id, batch[i]) := Chunk(file, batch[i])] else stored;
      PutGrows(next, file, id, batch, puts, i + 1);
    }
  }

  lemma PercentMonotone(j: nat, k: nat, total: nat)
    requires j <= k <= total
    ensures Reported(j, total) <= Reported(k, total) <= 99
  {
    if 0 < k {
      RoundPercentMonotone(j, k, total);
    }
  }

  lemma {:induction false} RecordFrame(s: State, file: Bytes, batch: seq<nat>)
    ensures var s' := RecordBatch(s, file, batch);
            s' == s.(uploaded := s'.uploaded, progress := s'.progress)
    decreases |batch|
  {
    if batch != [] {
      RecordFrame(RecordPart(s, file, batch[0]), file, batch[1..]);
    }
  }

  function PartsOf(file: Bytes, numbers: seq<nat>): seq<Part> {
    seq(|numbers|, i requires 0 <= i < |numbers| => PartOf(file, numbers[i]))
  }

  lemma {:induction false} RecordAppends(s: State, file: Bytes, batch: seq<nat>)
    ensures RecordBatch(s, file, batch).uploaded == s.uploaded + PartsOf(file, batch)
    decreases |batch|
  {
    if batch != [] {
      RecordAppends(RecordPart(s, file, batch[0]), file, batch[1..]);
      assert PartsOf(file, batch) == [PartOf(file, batch[0])] + PartsOf(file, batch[1..]);
    } else {
      assert s.uploaded + PartsOf(file, batch) == s.uploaded;
    }
  }

  lemma {:induction false} RecordProgress(s: State, file: Bytes, batch: seq<nat>)
    requires batch != [] && TotalParts(|file|) > 0
    ensures RecordBatch(s, file, batch).progress == Reported(|s.uploaded| + |batch|, TotalParts(|file|))
    decreases |batch|
  {
    if |batch| > 1 {
      RecordProgress(RecordPart(s, file, batch[0]), file, batch[1..]);
    } else {
      assert batch[1..] == [];
    }
  }

  lemma RecordAll(s: State, file: Bytes, batch: seq<nat>)
    requires batch != [] && TotalParts(|file|) > 0
    ensures RecordBatch(s, file, batch) ==
            s.(uploaded := s.uploaded + PartsOf(file, batch), progress := Reported(|s.uploaded| + |batch|, TotalParts(|file|)))
  {
    RecordFrame(s, file, batch);
    RecordAppends(s, file, batch);
    RecordProgress(s, file, batch);
  }

  /** What a run over `todo` needs: its upload was dropped, or what is left is what is missing. */
  ghost predicate RunReady(s: State, file: Bytes, id: nat, todo: seq<nat>) {
    && Inv(s) && id in s.cloud.files && s.cloud.files[id] == file
    && (forall n :: n in todo ==> 1 <= n <= TotalParts(|file|))
    && (s.uploadId.Some? ==> s.uploadId.value == id && todo == Numbers(|s.uploaded| + 1, TotalParts(|file|)))
  }

  /** How a run relates the states it joins: nothing sent, no part lost, no progress lost. */
  ghost predicate RunKept(s: State, s': State) {
    && Inv(s') && Served(s.cloud, s'.cloud)
    && (s'.uploadId.Some? ==>
          && s'.uploadId == s.uploadId && s'.file == s.file
          && s.uploaded <= s'.uploaded && s.progress <= s'.progress)
  }

  lemma ClicksInRun(s: State, clicks: seq<Click>, file: Bytes, id: nat, todo: seq<nat>)
    requires RunReady(s, file, id, todo)
    ensures RunReady(Clicks(s, clicks), file, id, todo) && RunKept(s, Clicks(s, clicks))
  {
    ClicksKeep(s, clicks);
  }

  lemma StoreGrows(c: Cloud, stored: Stored)
    requires CloudOk(c) && StoredOk(c.files, stored) && c.stored.Keys <= stored.Keys
    requires forall key :: key in stored ==> key.0 !in c.closed
    ensures CloudOk(c.(stored := stored)) && Served(c, c.(stored := stored))
  {
    var c' := c.(stored := stored);
    forall k {:trigger LandingOk(c', k)} | 0 <= k < |c'.log| ensures LandingOk(c', k) {
      assert LandingOk(c, k);
    }
  }

  /** Nothing is put where nothing lands. */
  lemma {:induction false} PutNothing(stored: Stored, file: Bytes, id: nat, batch: seq<nat>, puts: nat -> PutOutcome, i: nat)
    requires forall j :: !Lands(puts(j))
    ensures PutFrom(stored, file, id, batch, puts, i) == stored
    decreases |batch| - i
  {
    if i < |batch| {
      PutNothing(stored, file, id, batch, puts, i + 1);
    }
  }

  lemma PutsStayOpen(c: Cloud, file: Bytes, id: nat, batch: seq<nat>, puts: nat -> PutOutcome)
    requires ClosedOk(c)
    ensures var stored := PutFrom(c.stored, file, id, batch, Answered(c, id, puts), 0);
            && (forall key :: key in stored ==> key.0 !in c.closed)
            && c.stored.Keys <= stored.Keys
  {
    var answers := Answered(c, id, puts);
    PutGrows(c.stored, file, id, batch, answers, 0);
    if id in c.closed {
      PutNothing(c.stored, file, id, batch, answers, 0);
    } else {
      PutOnlyTo(c.stored, file, id, batch, answers, 0);
    }
  }

  lemma {:induction false} PutOnlyTo(stored: Stored, file: Bytes, id: nat, batch: seq<nat>, puts: nat -> PutOutcome, i: nat)
    ensures forall key :: key in PutFrom(stored, file, id, batch, puts, i) ==> key in stored || key.0 == id
    decreases |batch| - i
  {
    if i < |batch| {
      var next := if Lands(puts(i)) then stored[(id, batch[i]) := Chunk(file, batch[i])] else stored;
      PutOnlyTo(next, file, id, batch, puts, i + 1);
    }
  }

  lemma PutInRun(s: State, file: Bytes, id: nat, todo: seq<nat>, b: nat, puts: nat -> PutOutcome)
    requires RunReady(s, file, id, todo) && b <= |todo|
    ensures var answers := Answered(s.cloud, id, puts);
            var s' := Put(s, file, id, todo[..b], answers);
            && RunReady(s', file, id, todo) && RunKept(s, s')
            && (FirstFailure(answers, b, 0) == b ==> forall j :: 0 <= j < b ==> (id, todo[j]) in s'.cloud.stored)
  {
    var batch, answers := todo[..b], Answered(s.cloud, id, puts);
    var s' := Put(s, file, id, batch, answers);
    forall n | n in batch ensures 1 <= n <= TotalParts(|file|) {
      assert n in todo;
    }
    PutStores(s.cloud.files, s.cloud.stored, id, batch, answers, 0);
    PutsStayOpen(s.cloud, file, id, batch, puts);
    PutGrows(s.cloud.stored, file, id, batch, answers, 0);
    StoreGrows(s.cloud, s'.cloud.stored);
    forall j | FirstFailure(answers, b, 0) == b && 0 <= j < b ensures (id, todo[j]) in s'.cloud.stored {
      assert answers(j).Etagged? && batch[j] == todo[j];
    }
  }

  lemma NumbersSplit(from: nat, to: nat, b: nat)
    requires b <= |Numbers(from, to)|
    ensures Numbers(from, to)[b..] == Numbers(from + b, to)
    ensures b > 0 ==> Numbers(from, to)[..b] == Numbers(from, from + b - 1)
  {
  }

  lemma LandedMore(c: Cloud, id: nat, k: nat, todo: seq<nat>, total: nat, b: nat)
    requires Landed(c, id, k) && todo == Numbers(k + 1, total) && b <= |todo|
    requires id in c.closed || forall j :: 0 <= j < b ==> (id, todo[j]) in c.stored
    ensures Landed(c, id, k + b)
  {
    if id in c.closed {
      return;
    }
    forall n | 1 <= n <= k + b ensures (id, n) in c.stored {
      if n > k {
        assert todo[n - k - 1] == n;
      }
    }
  }

  /** Recording the next `b` parts of an upload whose recorded parts are its first ones. */
  lemma RecordNext(s: State, file: Bytes, id: nat, b: nat)
    requires Recorded1To(s, id, file) && 0 < b && |s.uploaded| + b <= TotalParts(|file|)
    requires Landed(s.cloud, id, |s.uploaded| + b)
    ensures var s' := RecordBatch(s, file, Numbers(|s.uploaded| + 1, |s.uploaded| + b));
            && s' == s.(uploaded := s'.uploaded, progress := s'.progress)
            && Recorded1To(s', id, file) && |s'.uploaded| == |s.uploaded| + b
            && s.uploaded <= s'.uploaded && s.progress <= s'.progress
  {
    var batch := Numbers(|s.uploaded| + 1, |s.uploaded| + b);
    RecordAll(s, file, batch);
    PercentMonotone(|s.uploaded|, |s.uploaded| + b, TotalParts(|file|));
  }

  /** The parts of `todo` after the first `b` are what is missing once `b` more are recorded. */
  lemma ReadyForRest(s: State, s': State, file: Bytes, id: nat, todo: seq<nat>, b: nat)
    requires RunReady(s, file, id, todo) && b <= |todo|
    requires s' == s.(uploaded := s'.uploaded, progress := s'.progress)
    requires s.uploadId.Some? ==>
               Recorded1To(s', id, file) && |s'.uploaded| == |s.uploaded| + b
               && s.uploaded <= s'.uploaded && s.progress <= s'.progress
    ensures RunReady(s', file, id, todo[b..]) && RunKept(s, s')
  {
    forall n | n in todo[b..] ensures 1 <= n <= TotalParts(|file|) {
      assert n in todo;
    }
    if s.uploadId.Some? {
      NumbersSplit(|s.uploaded| + 1, TotalParts(|file|), b);
    }
  }

  lemma RecordInRun(s: State, file: Bytes, id: nat, todo: seq<nat>, b: nat)
    requires RunReady(s, file, id, todo) && 0 < b <= |todo|
    requires id in s.cloud.closed || forall j :: 0 <= j < b ==> (id, todo[j]) in s.cloud.stored
    ensures var s' := RecordBatch(s, file, todo[..b]);
            RunReady(s', file, id, todo[b..]) && RunKept(s, s')
  {
    var s' := RecordBatch(s, file, todo[..b]);
    RecordFrame(s, file, todo[..b]);
    if s.uploadId.Some? {
      var k, total := |s.uploaded|, TotalParts(|file|);
      NumbersSplit(k + 1, total, b);
      LandedMore(s.cloud, id, k, todo, total, b);
      RecordNext(s, file, id, b);
    }
    ReadyForRest(s, s', file, id, todo, b);
  }

  /** A run that is paused or has lost its upload id will send nothing. */
  ghost predicate Dead(s: State) { s.paused || s.uploadId.None? }

  /** No click revives such a run, and every cancel kills it. */
  lemma {:induction false} StaysDead(s: State, clicks: seq<Click>)
    ensures Dead(s) || CancelClick in clicks ==> Dead(Clicks(s, clicks))
    decreases |clicks|
  {
    if clicks != [] {
      StaysDead(Clicked(s, clicks[0]), clicks[1..]);
    }
  }

  lemma KeptThrough(s: State, s1: State, s2: State)
    requires RunKept(s, s1) && RunKept(s1, s2)
    ensures RunKept(s, s2)
  {
    GrowsThrough(s.cloud, s1.cloud, s2.cloud);
  }

  /** After a batch the run is over, or paused, or ready for what is left of `todo`. */
  lemma BatchKeeps(s: State, file: Bytes, id: nat, todo: seq<nat>, b: nat, e: BatchEnv)
    requires RunReady(s, file, id, todo) && 0 < b <= |todo|
    ensures var (s', end) := Batch(s, file, id, todo[..b], e);
            && RunKept(s, s')
            && (end.Threw? || s'.paused || RunReady(s', file, id, todo[b..]))
  {
    var s1 := Clicks(s, e.duringPresign);
    ClicksInRun(s, e.duringPresign, file, id, todo);
    if !e.presigned || Aborted(id) in s.cloud.log {
      return;
    }
    if s1.paused {
      ClicksInRun(s1, e.duringPuts, file, id, todo);
      StaysDead(s1, e.duringPuts);
      forall n | n in todo[b..] ensures n in todo {
      }
      KeptThrough(s, s1, Clicks(s1, e.duringPuts));
    } else {
      var puts := Answered(s1.cloud, id, e.puts);
      var s2 := Put(s1, file, id, todo[..b], puts);
      PutInRun(s1, file, id, todo, b, e.puts);
      KeptThrough(s, s1, s2);
      var s3 := Clicks(s2, e.duringPuts);
      ClicksInRun(s2, e.duringPuts, file, id, todo);
      KeptThrough(s, s2, s3);
      if FirstFailure(puts, b, 0) == b {
        RecordInRun(s3, file, id, todo, b);
        KeptThrough(s, s3, RecordBatch(s3, file, todo[..b]));
      }
    }
  }

  /** A run keeps the invariant, sends nothing by itself, and ends undisturbed only with every
      part recorded. */
  lemma {:induction false} RunKeeps(s: State, file: Bytes, id: nat, todo: seq<nat>, script: nat -> BatchEnv, k: nat)
    requires RunReady(s, file, id, todo)
    ensures var (s', end) := RunBatches(s, file, id, todo, script, k);
            && RunKept(s, s')
            && (end.Finished? && !s'.paused && s'.uploadId.Some? ==> |s'.uploaded| == TotalParts(|file|))
    decreases |todo|
  {
    if todo != [] && !s.paused {
      var b := BatchSize(todo);
      BatchKeeps(s, file, id, todo, b, script(k));
      var (s', end) := Batch(s, file, id, todo[..b], script(k));
      if end.Finished? && !s'.paused {
        RunKeeps(s', file, id, todo[b..], script, k + 1);
        KeptThrough(s, s', RunBatches(s', file, id, todo[b..], script, k + 1).0);
      }
    }
  }

  // --- Histories -------------------------------------------------------------------------

  datatype Command =
    | Start(file: Bytes, init: StartEnv, script: nat -> BatchEnv, fin: FinishEnv)
    | Resume(script: nat -> BatchEnv, fin: FinishEnv)
    | Click(click: Click)

  function Step(s: State, c: Command): State {
    match c
    case Start(file, init, script, fin) => StartUpload(s, file, init, script, fin)
    case Resume(script, fin) => ResumeUpload(s, script, fin)
    case Click(click) => Clicked(s, click)
  }

  function Exec(s: State, history: seq<Command>): State {
    if history == [] then s else Step(Exec(s, history[..|history| - 1]), history[|history| - 1])
  }

  lemma RecordedNumbers(file: Bytes, k: nat)
    ensures forall n :: n in Recorded(PartsUpTo(file, k)) <==> 1 <= n <= k
  {
    forall n | 1 <= n <= k ensures n in Recorded(PartsUpTo(file, k)) {
      assert PartsUpTo(file, k)[n - 1] in PartsUpTo(file, k);
    }
  }

  lemma {:induction false} SkipRecorded(a: seq<nat>, b: seq<nat>, uploaded: seq<Part>)
    requires forall n :: n in a ==> n in Recorded(uploaded)
    ensures Missing(a + b, uploaded) == Missing(b, uploaded)
  {
    if a == [] {
      assert a + b == b;
    } else {
      assert a[0] in a && (a + b)[1..] == a[1..] + b;
      SkipRecorded(a[1..], b, uploaded);
    }
  }

  lemma {:induction false} AllMissing(numbers: seq<nat>, uploaded: seq<Part>)
    requires forall n :: n in numbers ==> n !in Recorded(uploaded)
    ensures Missing(numbers, uploaded) == numbers
  {
    if numbers != [] {
      AllMissing(numbers[1..], uploaded);
    }
  }

  lemma NumbersJoin(k: nat, total: nat)
    requires k <= total
    ensures Numbers(1, total) == Numbers(1, k) + Numbers(k + 1, total)
  {
  }

  /** What resume computes as missing is everything after the recorded prefix. */
  lemma MissingIsSuffix(file: Bytes, k: nat, total: nat)
    requires k <= total
    ensures Missing(Numbers(1, total), PartsUpTo(file, k)) == Numbers(k + 1, total)
  {
    RecordedNumbers(file, k);
    SkipRecorded(Numbers(1, k), Numbers(k + 1, total), PartsUpTo(file, k));
    AllMissing(Numbers(k + 1, total), PartsUpTo(file, k));
    NumbersJoin(k, total);
  }

  lemma SentOk(s: State, id: nat, file: Bytes)
    requires Inv(s) && s.uploadId == Some(id) && s.cloud.files[id] == file && |s.uploaded| == TotalParts(|file|)
    ensures var call := CompleteCall(id, s.uploaded, |file|, file);
            && Inv(Sent(s, call)) && Grows(s.cloud, Sent(s, call).cloud) && s.progress <= 100
            && Landed(Sent(s, call).cloud, id, TotalParts(|file|))
  {
    var call, total := CompleteCall(id, s.uploaded, |file|, file), TotalParts(|file|);
    var c' := Sent(s, call).cloud;
    PercentMonotone(|s.uploaded|, total, total);
    forall k {:trigger LandingOk(c', k)} | 0 <= k < |c'.log| ensures LandingOk(c', k) {
      assert LandingOk(s.cloud, k);
    }
  }

  /** The completion call on its way: sent, landed or not, and answered or not. */
  lemma FinishKeeps(s: State, end: RunEnd, file: Bytes, id: nat, env: FinishEnv)
    requires Inv(s) && id in s.cloud.files && s.cloud.files[id] == file
    requires s.uploadId.Some? ==> s.uploadId.value == id
    requires end.Finished? && !Dead(s) ==> |s.uploaded| == TotalParts(|file|)
    ensures var s' := Finish(s, end, file, id, env);
            && Inv(s') && Grows(s.cloud, s'.cloud)
            && (s'.uploadId.Some? ==> s'.uploadId == s.uploadId && s'.uploaded == s.uploaded && s.progress <= s'.progress)
            && (if end.Finished? && !Dead(s)
                then s'.cloud.completes == s.cloud.completes + [CompleteCall(id, s.uploaded, |file|, file)]
                else s'.cloud == s.cloud)
  {
    if end.Finished? && !Dead(s) {
      var call := CompleteCall(id, s.uploaded, |file|, file);
      var s0, s2 := Sent(s, call), Landing(Sent(s, call), call, env);
      SentOk(s, id, file);
      LandingKeeps(s0, call, env);
      GrowsThrough(s.cloud, s0.cloud, s2.cloud);
      ClicksKeep(s2, env.after);
      GrowsThrough(s.cloud, s2.cloud, Clicks(s2, env.after).cloud);
    }
  }

  lemma LandingKeeps(s: State, call: CompleteCall, env: FinishEnv)
    requires Inv(s) && call in s.cloud.completes && Landed(s.cloud, call.id, TotalParts(|call.file|))
    ensures SameUpload(s, Landing(s, call, env))
  {
    var s1 := Clicks(s, env.before);
    ClicksKeep(s, env.before);
    LandedStays(s.cloud, s1.cloud, call.id, TotalParts(|call.file|));
    if env.lands {
      LandKeeps(s1, call);
      GrowsThrough(s.cloud, s1.cloud, CompleteLanded(s1.cloud, call));
    }
  }

  lemma LandKeeps(s: State, call: CompleteCall)
    requires Inv(s) && call in s.cloud.completes && Landed(s.cloud, call.id, TotalParts(|call.file|))
    ensures Inv(s.(cloud := CompleteLanded(s.cloud, call))) && Served(s.cloud, CompleteLanded(s.cloud, call))
  {
    CompleteServed(s.cloud, call);
    if s.uploadId.Some? {
      LandedStays(s.cloud, CompleteLanded(s.cloud, call), s.uploadId.value, |s.uploaded|);
    }
  }

  /** What is left of a paused upload once it is resumed. */
  function Left(s: State): seq<nat>
    requires s.file.Some?
  {
    Numbers(|s.uploaded| + 1, TotalParts(|s.file.value|))
  }

  lemma ResumeReady(s: State)
    requires Inv(s) && s.file.Some? && s.uploadId.Some?
    ensures RunReady(s.(status := Uploading, paused := false), s.file.value, s.uploadId.value, Left(s))
    ensures Missing(Numbers(1, TotalParts(|s.file.value|)), s.uploaded) == Left(s)
  {
    MissingIsSuffix(s.file.value, |s.uploaded|, TotalParts(|s.file.value|));
  }

  /** A resume is a run over everything after the recorded prefix, followed by its finish. */
  lemma ResumeRuns(s: State, script: nat -> BatchEnv, fin: FinishEnv)
    requires Inv(s) && s.status == Paused && s.file.Some? && s.uploadId.Some?
    ensures var s', file, id := ResumeUpload(s, script, fin), s.file.value, s.uploadId.value;
            var s0 := s.(status := Uploading, paused := false);
            var s1 := RunBatches(s0, file, id, Left(s), script, 0).0;
            && RunReady(s0, file, id, Left(s)) && RunKept(s0, s1)
            && Inv(s') && Grows(s1.cloud, s'.cloud)
            && (s'.uploadId.Some? ==> s'.uploadId == s1.uploadId && s'.uploaded == s1.uploaded && s1.progress <= s'.progress)
  {
    var file, id, s0 := s.file.value, s.uploadId.value, s.(status := Uploading, paused := false);
    ResumeReady(s);
    RunKeeps(s0, file, id, Left(s), script, 0);
    var (s1, end) := RunBatches(s0, file, id, Left(s), script, 0);
    assert ResumeUpload(s, script, fin) == Finish(s1, end, file, id, fin);
    FinishKeeps(s1, end, file, id, fin);
  }

  lemma ResumeKeeps(s: State, script: nat -> BatchEnv, fin: FinishEnv)
    requires Inv(s)
    ensures var s' := ResumeUpload(s, script, fin);
            && Inv(s') && Grows(s.cloud, s'.cloud)
            && (s'.uploadId.Some? ==> s'.uploadId == s.uploadId && s.uploaded <= s'.uploaded && s.progress <= s'.progress)
  {
    if s.status == Paused && s.file.Some? && s.uploadId.Some? {
      ResumeRuns(s, script, fin);
      var s0 := s.(status := Uploading, paused := false);
      GrowsThrough(s.cloud, RunBatches(s0, s.file.value, s.uploadId.value, Left(s), script, 0).0.cloud, ResumeUpload(s, script, fin).cloud);
    }
  }

  lemma InitiatedOk(s: State, file: Bytes)
    requires CloudOk(s.cloud)
    requires s.uploadId.None? && s.uploaded == [] && s.progress == 0 && (s.file.Some? ==> s.file.value == file)
    ensures Grows(s.cloud, Initiated(s, file).cloud)
    ensures RunReady(Initiated(s, file), file, s.cloud.nextId, Numbers(1, TotalParts(|file|)))
  {
    var s' := Initiated(s, file);
    forall k {:trigger LandingOk(s'.cloud, k)} | 0 <= k < |s'.cloud.log| ensures LandingOk(s'.cloud, k) {
      assert LandingOk(s.cloud, k);
    }
    assert s'.uploaded == PartsUpTo(file, 0);
  }

  /** While initiate is awaited there is no upload id, and nothing recorded. */
  lemma {:induction false} ClicksBeforeId(s: State, clicks: seq<Click>, file: Bytes)
    requires s.uploadId.None? && s.uploaded == [] && s.progress == 0 && (s.file.Some? ==> s.file.value == file)
    ensures var s' := Clicks(s, clicks);
            s'.uploadId.None? && s'.uploaded == [] && s'.progress == 0 && (s'.file.Some? ==> s'.file.value == file)
    decreases |clicks|
  {
    if clicks != [] {
      ClicksBeforeId(Clicked(s, clicks[0]), clicks[1..], file);
    }
  }

  lemma StartKeeps(s: State, file: Bytes, init: StartEnv, script: nat -> BatchEnv, fin: FinishEnv)
    requires Inv(s)
    ensures var s' := StartUpload(s, file, init, script, fin);
            Inv(s') && Grows(s.cloud, s'.cloud)
  {
    var s0 := Reset(s).(status := Uploading, file := Some(file));
    var s1 := Clicks(s0, init.duringInitiate);
    ClicksKeep(s0, init.duringInitiate);
    ClicksBeforeId(s0, init.duringInitiate, file);
    if init.initiated {
      var s2 := Initiated(s1, file);
      InitiatedOk(s1, file);
      GrowsThrough(s.cloud, s1.cloud, s2.cloud);
      RunFromStartKeeps(s2, file, s1.cloud.nextId, script, fin);
      GrowsThrough(s.cloud, s2.cloud, RunFromStart(s2, file, s1.cloud.nextId, script, fin).cloud);
    }
  }

  lemma RunFromStartKeeps(s: State, file: Bytes, id: nat, script: nat -> BatchEnv, fin: FinishEnv)
    requires RunReady(s, file, id, Numbers(1, TotalParts(|file|)))
    ensures var s' := RunFromStart(s, file, id, script, fin);
            Inv(s') && Grows(s.cloud, s'.cloud)
  {
    var todo := Numbers(1, TotalParts(|file|));
    RunKeeps(s, file, id, todo, script, 0);
    var (s1, end) := RunBatches(s, file, id, todo, script, 0);
    var s2 := if end.Finished? && !Dead(s1) then s1.(status := Uploading) else s1;
    FinishKeeps(s2, end, file, id, fin);
    GrowsThrough(s.cloud, s2.cloud, Finish(s2, end, file, id, fin).cloud);
  }

  lemma {:induction false} InvAlways(history: seq<Command>)
    ensures Inv(Exec(START, history))
  {
    if history != [] {
      var before, c := history[..|history| - 1], history[|history| - 1];
      InvAlways(before);
      var s := Exec(START, before);
      match c {
        case Start(file, init, script, fin) => StartKeeps(s, file, init, script, fin);
        case Resume(script, fin) => ResumeKeeps(s, script, fin);
        case Click(click) => ClicksKeep(s, [click]); assert Clicks(s, [click]) == Clicked(s, click);
      }
    }
  }

  /** Whenever a completion call is sent, it lists the numbers 1..ceil(size / CHUNK) once each,
      bound to the ETags of their byte ranges. */
  lemma EveryCallIsComplete(history: seq<Command>, call: CompleteCall)
    requires call in Exec(START, history).cloud.completes
    ensures call.size == |call.file| && |call.parts| == TotalParts(|call.file|)
    ensures forall i :: 0 <= i < |call.parts| ==>
              call.parts[i] == Part(i + 1, ETag(Chunk(call.file, i + 1)))
  {
    InvAlways(history);
    CallLists(Exec(START, history).cloud, call);
  }

  lemma CallLists(c: Cloud, call: CompleteCall)
    requires CloudOk(c) && call in c.completes
    ensures call.size == |call.file| && |call.parts| == TotalParts(|call.file|)
    ensures forall i :: 0 <= i < |call.parts| ==>
              call.parts[i] == Part(i + 1, ETag(Chunk(call.file, i + 1)))
  {
    assert CallOk(c.files, call);
  }

  /** What such a call comes to when it lands is the file, exactly when no DELETE of its upload
      landed before it, no earlier call for its upload was accepted, and the file has a part and
      no more parts than the store can number. Otherwise it is refused. */
  lemma EveryCompleteReassembles(history: seq<Command>, k: nat)
    requires var log := Exec(START, history).cloud.log; k < |log| && log[k].Completed?
    ensures var c := Exec(START, history).cloud;
            var call := c.log[k].call;
            && call in c.completes
            && c.log[k].assembled ==
               if 1 <= TotalParts(|call.file|) <= MAX_PARTS
                  && (forall j :: 0 <= j < k ==> c.log[j] != Aborted(call.id))
                  && (forall j :: 0 <= j < k && c.log[j].Completed? && c.log[j].call.id == call.id ==> c.log[j].assembled.None?)
               then Some(call.file) else None
  {
    InvAlways(history);
    var c := Exec(START, history).cloud;
    assert LandingOk(c, k);
    var log, id := c.log[..k], c.log[k].call.id;
    assert Aborted(id) in log <==> exists j :: 0 <= j < k && c.log[j] == Aborted(id);
    if AssembledIn(log, id) {
      var x :| x in log && x.Completed? && x.call.id == id && x.assembled.Some?;
      var j :| 0 <= j < k && log[j] == x;
      assert c.log[j] == x;
    }
    forall j | 0 <= j < k && c.log[j].Completed? && c.log[j].call.id == id && c.log[j].assembled.Some? ensures AssembledIn(log, id) {
      assert log[j] in log;
    }
  }

  /** Progress is below 100 until every part is recorded, at most 100, and neither it nor any
      recorded part is lost by a pause, a failure or a resume, only by a reset. */
  lemma ProgressNeverDrops(history: seq<Command>, c: Command)
    requires !c.Start?
    ensures var s, s' := Exec(START, history), Exec(START, history + [c]);
            s'.uploadId.Some? ==>
              && s'.uploadId == s.uploadId && s.uploaded <= s'.uploaded
              && s.progress <= s'.progress <= 100
              && s'.uploadId.value in s'.cloud.files
              && (s'.progress == 100 ==>
                    |s'.uploaded| == TotalParts(|s'.cloud.files[s'.uploadId.value]|))
  {
    var s := Exec(START, history);
    InvAlways(history);
    InvAlways(history + [c]);
    assert (history + [c])[..|history|] == history;
    var s' := Exec(START, history + [c]);
    if c.Resume? {
      ResumeKeeps(s, c.script, c.fin);
    } else {
      ClicksKeep(s, [c.click]);
      assert Clicks(s, [c.click]) == s';
    }
    if s'.uploadId.Some? {
      PercentMonotone(|s'.uploaded|, |s'.uploaded|, TotalParts(|s'.cloud.files[s'.uploadId.value]|));
    }
  }
}
