/** What becomes of an upload: left alone, cancelled, deleted on the server, or run twice at once. */
module UploadOutcomes {
  import opened Basics
  import opened Wrappers
  import opened R2
  import opened MultipartUpload
  import opened UploadRuns

  // --- Undisturbed runs ------------------------------------------------------------------

  ghost predicate Quiet(e: BatchEnv) {
    e.presigned && e.duringPresign == [] && e.duringPuts == [] && forall i: nat :: e.puts(i).Etagged?
  }

  /** The server still takes parts of the upload. */
  predicate Takes(c: Cloud, id: nat) { id !in c.closed && Aborted(id) !in c.log }

  lemma QuietBatch(s: State, file: Bytes, id: nat, batch: seq<nat>, e: BatchEnv)
    requires !Dead(s) && Quiet(e) && Takes(s.cloud, id)
    ensures var (s', end) := Batch(s, file, id, batch, e);
            && end == Finished
            && s'.uploaded == s.uploaded + PartsOf(file, batch)
            && s' == s.(uploaded := s'.uploaded, progress := s'.progress, cloud := s.cloud.(stored := s'.cloud.stored))
  {
    var s1 := Put(s, file, id, batch, e.puts);
    assert FirstFailure(e.puts, |batch|, 0) == |batch|;
    RecordFrame(s1, file, batch);
    RecordAppends(s1, file, batch);
  }

  lemma PartsOfSplit(file: Bytes, todo: seq<nat>, b: nat)
    requires b <= |todo|
    ensures PartsOf(file, todo) == PartsOf(file, todo[..b]) + PartsOf(file, todo[b..])
  {
  }

  /** A run that nothing disturbs records every part it was given, after those already there. */
  lemma {:induction false} QuietRun(s: State, file: Bytes, id: nat, todo: seq<nat>, script: nat -> BatchEnv, k: nat)
    requires !Dead(s) && Takes(s.cloud, id) && forall i: nat :: Quiet(script(i))
    ensures var (s', end) := RunBatches(s, file, id, todo, script, k);
            && end == Finished
            && s'.uploaded == s.uploaded + PartsOf(file, todo)
            && s' == s.(uploaded := s'.uploaded, progress := s'.progress, cloud := s.cloud.(stored := s'.cloud.stored))
    decreases |todo|
  {
    if todo == [] {
      assert s.uploaded + PartsOf(file, todo) == s.uploaded;
    } else {
      var b := BatchSize(todo);
      QuietBatch(s, file, id, todo[..b], script(k));
      var s1 := Batch(s, file, id, todo[..b], script(k)).0;
      QuietRun(s1, file, id, todo[b..], script, k + 1);
      PartsOfSplit(file, todo, b);
      assert s.uploaded + (PartsOf(file, todo[..b]) + PartsOf(file, todo[b..])) == s1.uploaded + PartsOf(file, todo[b..]);
    }
  }

  /** A completion call that reaches the server and is answered, with nothing in between. */
  const UNDISTURBED := FinishEnv([], true, [], true)

  /** From a run that recorded everything, an undisturbed completion call ends in success exactly
      when the server assembles the file. */
  lemma QuietFinish(s: State, file: Bytes, id: nat)
    requires Inv(s) && !Dead(s) && s.uploadId == Some(id) && s.cloud.files[id] == file && |s.uploaded| == TotalParts(|file|)
    ensures var s', call := Finish(s, Finished, file, id, UNDISTURBED), CompleteCall(id, s.uploaded, |file|, file);
            && s'.cloud.completes == s.cloud.completes + [call]
            && s'.cloud.log == s.cloud.log + [Completed(call, Expected(s.cloud.log, call))]
            && s'.status == if Expected(s.cloud.log, call).Some? then Success else Error
  {
    var call := CompleteCall(id, s.uploaded, |file|, file);
    SentOk(s, id, file);
    AssembleIs(Sent(s, call).cloud, call);
  }

  /** What the server still makes of an upload: its file, unless it was deleted or completed
      before, or the file has no part or too many. */
  ghost predicate Completable(c: Cloud, id: nat, file: Bytes) {
    Aborted(id) !in c.log && !AssembledIn(c.log, id) && 1 <= TotalParts(|file|) <= MAX_PARTS
  }

  lemma RefusedBatch(s: State, file: Bytes, id: nat, batch: seq<nat>, e: BatchEnv)
    requires !Dead(s) && Quiet(e) && !Takes(s.cloud, id) && batch != []
    ensures Batch(s, file, id, batch, e) == (s, Threw(false))
  {
    if Aborted(id) !in s.cloud.log {
      var puts := Answered(s.cloud, id, e.puts);
      PutNothing(s.cloud.stored, file, id, batch, puts, 0);
      assert FirstFailure(puts, |batch|, 0) == 0;
    }
  }

  /** Nothing left to put, or an upload that still takes parts: the resume reaches its call. */
  lemma QuietResumeFinishes(s: State, script: nat -> BatchEnv)
    requires Inv(s) && s.status == Paused && s.file.Some? && s.uploadId.Some? && forall i: nat :: Quiet(script(i))
    requires Left(s) == [] || Takes(s.cloud, s.uploadId.value)
    ensures var (s1, end) := RunBatches(s.(status := Uploading, paused := false), s.file.value, s.uploadId.value, Left(s), script, 0);
            && end == Finished && Inv(s1) && !Dead(s1) && s1.uploadId == s.uploadId && s1.cloud.files == s.cloud.files
            && s1.cloud.log == s.cloud.log && |s1.uploaded| == TotalParts(|s.file.value|)
  {
    var file, id, s0 := s.file.value, s.uploadId.value, s.(status := Uploading, paused := false);
    ResumeReady(s);
    RunKeeps(s0, file, id, Left(s), script, 0);
    if Left(s) != [] {
      QuietRun(s0, file, id, Left(s), script, 0);
    }
  }

  lemma QuietResume(s: State, script: nat -> BatchEnv)
    requires Inv(s) && s.status == Paused && s.file.Some? && s.uploadId.Some? && forall i: nat :: Quiet(script(i))
    ensures var s', file, id := ResumeUpload(s, script, UNDISTURBED), s.file.value, s.uploadId.value;
            && s'.status == (if Completable(s.cloud, id, file) then Success else Error)
            && (s'.status == Success ==>
                  s'.progress == 100 && |s'.cloud.log| == |s.cloud.log| + 1 && Last(s'.cloud.log).Completed?
                  && Last(s'.cloud.log).call.id == id && Last(s'.cloud.log).assembled == Some(file))
  {
    var file, id, s0 := s.file.value, s.uploadId.value, s.(status := Uploading, paused := false);
    ResumeReady(s);
    if Left(s) != [] && !Takes(s.cloud, id) {
      RefusedBatch(s0, file, id, Left(s)[..BatchSize(Left(s))], script(0));
    } else {
      QuietResumeFinishes(s, script);
      var s1 := RunBatches(s0, file, id, Left(s), script, 0).0;
      assert s1.uploadId == Some(id) && s1.cloud.files[id] == file;
      QuietFinish(s1, file, id);
      assert ResumeUpload(s, script, UNDISTURBED) == Finish(s1, Finished, file, id, UNDISTURBED);
    }
  }

  /** From any history that left an upload paused, one undisturbed resume ends in success, with
      the file assembled, exactly when the server still completes it; otherwise in an error. */
  lemma QuietResumeIff(history: seq<Command>, script: nat -> BatchEnv)
    requires forall i: nat :: Quiet(script(i))
    requires var s := Exec(START, history); s.status == Paused && s.file.Some? && s.uploadId.Some?
    ensures var s, s' := Exec(START, history), ResumeUpload(Exec(START, history), script, UNDISTURBED);
            var file, id := s.file.value, s.uploadId.value;
            && s'.status == (if Completable(s.cloud, id, file) then Success else Error)
            && (s'.status == Success ==>
                  s'.progress == 100 && |s'.cloud.log| == |s.cloud.log| + 1 && Last(s'.cloud.log).Completed?
                  && Last(s'.cloud.log).call.id == id && Last(s'.cloud.log).assembled == Some(file))
  {
    InvAlways(history);
    QuietResume(Exec(START, history), script);
  }

  lemma FirstBatchOfRun(s: State, file: Bytes, id: nat, todo: seq<nat>, script: nat -> BatchEnv)
    requires RunReady(s, file, id, todo) && !s.paused && todo != [] && Quiet(script(0)) && Takes(s.cloud, id)
    ensures var s' := RunBatches(s, file, id, todo, script, 0).0;
            s'.uploadId.Some? ==> |s'.uploaded| >= |s.uploaded| + BatchSize(todo)
  {
    var b, e := BatchSize(todo), script(0);
    var s1 := Put(s, file, id, todo[..b], e.puts);
    PutInRun(s, file, id, todo, b, e.puts);
    assert FirstFailure(e.puts, b, 0) == b;
    RecordInRun(s1, file, id, todo, b);
    RecordAppends(s1, file, todo[..b]);
    RunKeeps(RecordBatch(s1, file, todo[..b]), file, id, todo[b..], script, 1);
  }

  /** One batch that succeeds brings a resumed upload up to three parts nearer its end,
      whatever happens in the batches after it, unless the upload is cancelled or was deleted. */
  lemma FirstBatchCounts(s: State, script: nat -> BatchEnv, fin: FinishEnv)
    requires Inv(s) && s.status == Paused && s.file.Some? && s.uploadId.Some?
    requires Quiet(script(0)) && Takes(s.cloud, s.uploadId.value)
    ensures var s' := ResumeUpload(s, script, fin);
            s'.uploadId.Some? ==> |s'.uploaded| >= Min(|s.uploaded| + 3, TotalParts(|s.file.value|))
  {
    ResumeRuns(s, script, fin);
    var file, id, s0 := s.file.value, s.uploadId.value, s.(status := Uploading, paused := false);
    if Left(s) != [] {
      FirstBatchOfRun(s0, file, id, Left(s), script);
    }
  }

  // --- Cancelling ------------------------------------------------------------------------

  predicate Presigned(c: Cloud, id: nat, e: BatchEnv) { e.presigned && Aborted(id) !in c.log }

  /** The clicks a run meets while it awaits, in order. */
  function Heard(s: State, file: Bytes, id: nat, todo: seq<nat>, script: nat -> BatchEnv, k: nat): seq<Click>
    decreases |todo|
  {
    if todo == [] || s.paused then []
    else
      var b, e := BatchSize(todo), script(k);
      var (s', end) := Batch(s, file, id, todo[..b], e);
      e.duringPresign + (if Presigned(s.cloud, id, e) then e.duringPuts else []) +
      (if end.Threw? then [] else Heard(s', file, id, todo[b..], script, k + 1))
  }

  predicate HearsCancel(c: Cloud, id: nat, e: BatchEnv) {
    CancelClick in e.duringPresign || (Presigned(c, id, e) && CancelClick in e.duringPuts)
  }

  lemma CancelKillsBatch(s: State, file: Bytes, id: nat, batch: seq<nat>, e: BatchEnv)
    requires Dead(s) || HearsCancel(s.cloud, id, e)
    ensures Dead(Batch(s, file, id, batch, e).0)
  {
    var s1 := Clicks(s, e.duringPresign);
    StaysDead(s, e.duringPresign);
    if Presigned(s.cloud, id, e) {
      var s2 := if s1.paused then s1 else Put(s1, file, id, batch, Answered(s1.cloud, id, e.puts));
      StaysDead(s2, e.duringPuts);
      RecordFrame(Clicks(s2, e.duringPuts), file, batch);
    }
  }

  lemma {:induction false} CancelKillsRun(s: State, file: Bytes, id: nat, todo: seq<nat>, script: nat -> BatchEnv, k: nat)
    requires Dead(s) || CancelClick in Heard(s, file, id, todo, script, k)
    ensures Dead(RunBatches(s, file, id, todo, script, k).0)
    decreases |todo|
  {
    if todo != [] && !s.paused {
      var b, e := BatchSize(todo), script(k);
      var (s', end) := Batch(s, file, id, todo[..b], e);
      if Dead(s) || HearsCancel(s.cloud, id, e) {
        CancelKillsBatch(s, file, id, todo[..b], e);
      }
      if end.Finished? {
        CancelKillsRun(s', file, id, todo[b..], script, k + 1);
      }
    }
  }

  /** What a start meets once the upload id is known. */
  function HeardByStart(s: State, file: Bytes, init: StartEnv, script: nat -> BatchEnv): seq<Click> {
    var s1 := Clicks(Reset(s).(status := Uploading, file := Some(file)), init.duringInitiate);
    if init.initiated then Heard(Initiated(s1, file), file, s1.cloud.nextId, Numbers(1, TotalParts(|file|)), script, 0) else []
  }

  lemma StartRuns(s: State, file: Bytes, init: StartEnv, script: nat -> BatchEnv)
    requires Inv(s) && init.initiated
    ensures var s1 := Clicks(Reset(s).(status := Uploading, file := Some(file)), init.duringInitiate);
            var id, todo := s1.cloud.nextId, Numbers(1, TotalParts(|file|));
            && RunReady(Initiated(s1, file), file, id, todo) && Takes(Initiated(s1, file).cloud, id)
            && Initiated(s1, file).cloud.completes == s.cloud.completes
            && RunKept(Initiated(s1, file), RunBatches(Initiated(s1, file), file, id, todo, script, 0).0)
            && (CancelClick in init.duringInitiate ==> !s1.paused)
            && !AssembledIn(Initiated(s1, file).cloud.log, id)
  {
    var s0 := Reset(s).(status := Uploading, file := Some(file));
    var s1 := Clicks(s0, init.duringInitiate);
    ClicksKeep(s0, init.duringInitiate);
    ClicksBeforeId(s0, init.duringInitiate, file);
    CancelUnpauses(s0, init.duringInitiate);
    InitiatedOk(s1, file);
    RunKeeps(Initiated(s1, file), file, s1.cloud.nextId, Numbers(1, TotalParts(|file|)), script, 0);
  }

  /** Before the upload id is known a cancel only resets, and no later click pauses again. */
  lemma {:induction false} CancelUnpauses(s: State, clicks: seq<Click>)
    requires s.uploadId.None?
    ensures CancelClick in clicks || (!s.paused && s.status != Uploading) ==>
              !Clicks(s, clicks).paused && Clicks(s, clicks).status != Uploading
    decreases |clicks|
  {
    if clicks != [] {
      CancelUnpauses(Clicked(s, clicks[0]), clicks[1..]);
    }
  }

  /** A cancel heard by a start once the upload id is known, at any await, keeps it from sending
      its completion call, whatever else happens. */
  lemma CancelStopsStart(s: State, file: Bytes, init: StartEnv, script: nat -> BatchEnv, fin: FinishEnv)
    requires Inv(s) && CancelClick in HeardByStart(s, file, init, script)
    ensures StartUpload(s, file, init, script, fin).cloud.completes == s.cloud.completes
  {
    StartRuns(s, file, init, script);
    var s1 := Clicks(Reset(s).(status := Uploading, file := Some(file)), init.duringInitiate);
    CancelKillsRun(Initiated(s1, file), file, s1.cloud.nextId, Numbers(1, TotalParts(|file|)), script, 0);
  }

  /** So does one heard by a resume. */
  lemma CancelStopsResume(s: State, script: nat -> BatchEnv, fin: FinishEnv)
    requires Inv(s) && s.status == Paused && s.file.Some? && s.uploadId.Some?
    requires CancelClick in Heard(s.(status := Uploading, paused := false), s.file.value, s.uploadId.value, Left(s), script, 0)
    ensures ResumeUpload(s, script, fin).cloud.completes == s.cloud.completes
  {
    ResumeReady(s);
    ResumeRuns(s, script, fin);
    CancelKillsRun(s.(status := Uploading, paused := false), s.file.value, s.uploadId.value, Left(s), script, 0);
  }

  // --- Pausing ---------------------------------------------------------------------------

  /** A pause takes effect while uploading, and then does this and no more. */
  lemma PauseIs(s: State)
    ensures Clicked(s, PauseClick) == if s.status == Uploading then s.(paused := true, status := Paused) else s
  {
  }

  /** Such a run is either dead already or can be paused. */
  ghost predicate Pausable(s: State) { Dead(s) || s.status == Uploading }

  lemma {:induction false} PauseKillsClicks(s: State, clicks: seq<Click>)
    requires Pausable(s)
    ensures Pausable(Clicks(s, clicks)) && (Dead(s) || PauseClick in clicks ==> Dead(Clicks(s, clicks)))
    decreases |clicks|
  {
    if clicks != [] {
      PauseKillsClicks(Clicked(s, clicks[0]), clicks[1..]);
    }
  }

  predicate HearsPause(c: Cloud, id: nat, e: BatchEnv) {
    PauseClick in e.duringPresign || (Presigned(c, id, e) && PauseClick in e.duringPuts)
  }

  lemma PauseKillsBatch(s: State, file: Bytes, id: nat, batch: seq<nat>, e: BatchEnv)
    requires Pausable(s)
    ensures var s' := Batch(s, file, id, batch, e).0;
            Pausable(s') && (Dead(s) || HearsPause(s.cloud, id, e) ==> Dead(s'))
  {
    var s1 := Clicks(s, e.duringPresign);
    PauseKillsClicks(s, e.duringPresign);
    if Presigned(s.cloud, id, e) {
      var s2 := if s1.paused then s1 else Put(s1, file, id, batch, Answered(s1.cloud, id, e.puts));
      PauseKillsClicks(s2, e.duringPuts);
      RecordFrame(Clicks(s2, e.duringPuts), file, batch);
    }
  }

  /** A pause heard at any await of a run that is uploading leaves it paused or dropped. */
  lemma {:induction false} PauseKillsRun(s: State, file: Bytes, id: nat, todo: seq<nat>, script: nat -> BatchEnv, k: nat)
    requires Pausable(s) && (Dead(s) || PauseClick in Heard(s, file, id, todo, script, k))
    ensures Dead(RunBatches(s, file, id, todo, script, k).0)
    decreases |todo|
  {
    if todo != [] && !s.paused {
      var b, e := BatchSize(todo), script(k);
      var (s', end) := Batch(s, file, id, todo[..b], e);
      PauseKillsBatch(s, file, id, todo[..b], e);
      if end.Finished? {
        PauseKillsRun(s', file, id, todo[b..], script, k + 1);
      }
    }
  }

  /** A pause heard by a start, at any await after the initiate call that left it uploading, keeps
      it from sending its completion call, whatever else happens. */
  lemma PauseStopsStart(s: State, file: Bytes, init: StartEnv, script: nat -> BatchEnv, fin: FinishEnv)
    requires Inv(s) && PauseClick in HeardByStart(s, file, init, script)
    requires Clicks(Reset(s).(status := Uploading, file := Some(file)), init.duringInitiate).status == Uploading
    ensures StartUpload(s, file, init, script, fin).cloud.completes == s.cloud.completes
  {
    StartRuns(s, file, init, script);
    var s1 := Clicks(Reset(s).(status := Uploading, file := Some(file)), init.duringInitiate);
    PauseKillsRun(Initiated(s1, file), file, s1.cloud.nextId, Numbers(1, TotalParts(|file|)), script, 0);
  }

  /** So does one heard by a resume, at any await. */
  lemma PauseStopsResume(s: State, script: nat -> BatchEnv, fin: FinishEnv)
    requires Inv(s) && s.status == Paused && s.file.Some? && s.uploadId.Some?
    requires PauseClick in Heard(s.(status := Uploading, paused := false), s.file.value, s.uploadId.value, Left(s), script, 0)
    ensures ResumeUpload(s, script, fin).cloud.completes == s.cloud.completes
  {
    ResumeReady(s);
    ResumeRuns(s, script, fin);
    PauseKillsRun(s.(status := Uploading, paused := false), s.file.value, s.uploadId.value, Left(s), script, 0);
  }

  /** Clicks put nothing into the store. */
  lemma {:induction false} ClicksStoreNothing(s: State, clicks: seq<Click>)
    ensures var stored := Clicks(s, clicks).cloud.stored;
            stored.Keys <= s.cloud.stored.Keys && forall key :: key in stored ==> stored[key] == s.cloud.stored[key]
    decreases |clicks|
  {
    if clicks != [] {
      ClicksStoreNothing(Clicked(s, clicks[0]), clicks[1..]);
    }
  }

  /** A pause heard while a batch is being presigned: nothing of the batch is put or recorded. */
  lemma PausedBatchPutsNothing(s: State, file: Bytes, id: nat, batch: seq<nat>, e: BatchEnv)
    requires Running(s) && PauseClick in e.duringPresign && CancelClick !in e.duringPresign && !HearsCancel(s.cloud, id, e)
    ensures var s' := Batch(s, file, id, batch, e).0;
            && s'.uploaded == s.uploaded && s'.progress == s.progress
            && s'.cloud.stored.Keys <= s.cloud.stored.Keys && forall key :: key in s'.cloud.stored ==> s'.cloud.stored[key] == s.cloud.stored[key]
  {
    var s1 := Clicks(s, e.duringPresign);
    ClicksHold(s, e.duringPresign);
    ClicksStoreNothing(s, e.duringPresign);
    if Presigned(s.cloud, id, e) {
      ClicksHold(s1, e.duringPuts);
      ClicksStoreNothing(s1, e.duringPuts);
    }
  }

  // A pause with no cancel about leaves an upload that can be resumed.

  predicate Held(s: State) { s.paused && s.status == Paused && s.uploadId.Some? && s.cancels == 0 }

  predicate Running(s: State) { !s.paused && s.status == Uploading && s.uploadId.Some? && s.cancels == 0 }

  /** Held from now on, or running as before. */
  ghost predicate HeldIf(s: State, s': State, paused: bool) {
    && s'.uploadId == s.uploadId && s'.file == s.file
    && (if Held(s) || paused then Held(s') else Running(s'))
  }

  lemma {:induction false} ClicksHold(s: State, clicks: seq<Click>)
    requires (Held(s) || Running(s)) && CancelClick !in clicks
    ensures HeldIf(s, Clicks(s, clicks), PauseClick in clicks)
    ensures Clicks(s, clicks).uploaded == s.uploaded && Clicks(s, clicks).progress == s.progress
    decreases |clicks|
  {
    if clicks != [] {
      ClicksHold(Clicked(s, clicks[0]), clicks[1..]);
    }
  }

  lemma BatchHolds(s: State, file: Bytes, id: nat, batch: seq<nat>, e: BatchEnv)
    requires (Held(s) || Running(s)) && !HearsCancel(s.cloud, id, e)
    ensures HeldIf(s, Batch(s, file, id, batch, e).0, HearsPause(s.cloud, id, e))
  {
    var s1 := Clicks(s, e.duringPresign);
    ClicksHold(s, e.duringPresign);
    if Presigned(s.cloud, id, e) {
      var s2 := if s1.paused then s1 else Put(s1, file, id, batch, Answered(s1.cloud, id, e.puts));
      ClicksHold(s2, e.duringPuts);
      RecordFrame(Clicks(s2, e.duringPuts), file, batch);
    }
  }

  lemma {:induction false} RunHolds(s: State, file: Bytes, id: nat, todo: seq<nat>, script: nat -> BatchEnv, k: nat)
    requires (Held(s) || Running(s)) && CancelClick !in Heard(s, file, id, todo, script, k)
    ensures HeldIf(s, RunBatches(s, file, id, todo, script, k).0, PauseClick in Heard(s, file, id, todo, script, k))
    decreases |todo|
  {
    if todo != [] && !s.paused {
      var b, e := BatchSize(todo), script(k);
      var (s', end) := Batch(s, file, id, todo[..b], e);
      BatchHolds(s, file, id, todo[..b], e);
      if end.Finished? {
        RunHolds(s', file, id, todo[b..], script, k + 1);
      }
    }
  }

  /** A pause heard by a resume, and no cancel: the upload is left paused, with its id, its file and
      every part recorded before, and no call is sent; whatever fails. */
  lemma PauseHoldsResume(s: State, script: nat -> BatchEnv, fin: FinishEnv)
    requires Inv(s) && s.status == Paused && s.file.Some? && s.uploadId.Some? && s.cancels == 0
    requires var heard := Heard(s.(status := Uploading, paused := false), s.file.value, s.uploadId.value, Left(s), script, 0);
             PauseClick in heard && CancelClick !in heard
    ensures var s' := ResumeUpload(s, script, fin);
            && s'.status == Paused && s'.paused && s'.uploadId == s.uploadId && s'.file == s.file && s.uploaded <= s'.uploaded
            && s'.cloud.completes == s.cloud.completes
  {
    ResumeReady(s);
    ResumeRuns(s, script, fin);
    RunHolds(s.(status := Uploading, paused := false), s.file.value, s.uploadId.value, Left(s), script, 0);
  }

  /** Likewise a pause heard by a start, during the initiate call or after it. */
  lemma PauseHoldsStart(s: State, file: Bytes, init: StartEnv, script: nat -> BatchEnv, fin: FinishEnv)
    requires Inv(s) && s.cancels == 0 && init.initiated
    requires PauseClick in init.duringInitiate || PauseClick in HeardByStart(s, file, init, script)
    requires CancelClick !in init.duringInitiate && CancelClick !in HeardByStart(s, file, init, script)
    ensures var s' := StartUpload(s, file, init, script, fin);
            s'.status == Paused && s'.paused && s'.uploadId == Some(s.cloud.nextId) && s'.file == Some(file) && s'.cloud.completes == s.cloud.completes
  {
    StartRuns(s, file, init, script);
    var s0 := Reset(s).(status := Uploading, file := Some(file));
    var s1 := Clicks(s0, init.duringInitiate);
    ClicksBeforeHold(s0, init.duringInitiate);
    ClicksKeep(s0, init.duringInitiate);
    RunHolds(Initiated(s1, file), file, s1.cloud.nextId, Numbers(1, TotalParts(|file|)), script, 0);
  }

  lemma {:induction false} ClicksBeforeHold(s: State, clicks: seq<Click>)
    requires s.uploadId.None? && s.cancels == 0 && s.status in {Uploading, Paused} && (s.paused <==> s.status == Paused)
    requires CancelClick !in clicks
    ensures var s' := Clicks(s, clicks);
            && s'.uploadId.None? && s'.cancels == 0 && s'.file == s.file && (s'.paused <==> s'.status == Paused)
            && s'.status == if s.paused || PauseClick in clicks then Paused else Uploading
    decreases |clicks|
  {
    if clicks != [] {
      ClicksBeforeHold(Clicked(s, clicks[0]), clicks[1..]);
    }
  }

  // --- When a completion call is sent ------------------------------------------------------

  /** Everything succeeds and the user does nothing but cancel and pause, if anything. */
  ghost predicate Smooth(e: BatchEnv) {
    && e.presigned && (forall i: nat :: e.puts(i).Etagged?)
    && (forall c :: c in e.duringPresign || c in e.duringPuts ==> c == CancelClick || c == PauseClick)
  }

  /** A pause is lost on a run that is not shown as uploading. */
  lemma {:induction false} PausesLost(s: State, clicks: seq<Click>)
    requires forall c :: c in clicks ==> c == CancelClick || c == PauseClick
    requires CancelClick !in clicks && (s.status == Uploading ==> PauseClick !in clicks)
    ensures Clicks(s, clicks) == s
    decreases |clicks|
  {
    if clicks != [] {
      assert clicks[0] in clicks && clicks[0] != CancelClick;
      assert forall c :: c in clicks[1..] ==> c in clicks;
      PausesLost(s, clicks[1..]);
    }
  }

  /** A batch whose clicks are all lost is as quiet as one without. */
  lemma SmoothBatch(s: State, file: Bytes, id: nat, batch: seq<nat>, e: BatchEnv)
    requires !Dead(s) && Smooth(e) && Takes(s.cloud, id) && !HearsCancel(s.cloud, id, e)
    requires s.status == Uploading ==> !HearsPause(s.cloud, id, e)
    ensures Batch(s, file, id, batch, e) == Batch(s, file, id, batch, e.(duringPresign := [], duringPuts := []))
  {
    PausesLost(s, e.duringPresign);
    PausesLost(Put(s, file, id, batch, Answered(s.cloud, id, e.puts)), e.duringPuts);
  }

  lemma UnstoppedBatch(s: State, file: Bytes, id: nat, batch: seq<nat>, e: BatchEnv)
    requires !Dead(s) && Smooth(e) && Takes(s.cloud, id) && !HearsCancel(s.cloud, id, e)
    requires s.status == Uploading ==> !HearsPause(s.cloud, id, e)
    ensures var (s', end) := Batch(s, file, id, batch, e);
            && end == Finished && !Dead(s') && s'.status == s.status
            && Takes(s'.cloud, id) && s'.cloud.completes == s.cloud.completes
  {
    SmoothBatch(s, file, id, batch, e);
    QuietBatch(s, file, id, batch, e.(duringPresign := [], duringPuts := []));
  }

  lemma {:induction false} UnstoppedRun(s: State, file: Bytes, id: nat, todo: seq<nat>, script: nat -> BatchEnv, k: nat)
    requires !Dead(s) && Takes(s.cloud, id) && forall i: nat :: Smooth(script(i))
    requires CancelClick !in Heard(s, file, id, todo, script, k)
    requires s.status == Uploading ==> PauseClick !in Heard(s, file, id, todo, script, k)
    ensures var (s', end) := RunBatches(s, file, id, todo, script, k);
            end == Finished && !Dead(s') && s'.cloud.completes == s.cloud.completes
    decreases |todo|
  {
    if todo != [] {
      var b, e := BatchSize(todo), script(k);
      assert Smooth(e);
      UnstoppedBatch(s, file, id, todo[..b], e);
      UnstoppedRun(Batch(s, file, id, todo[..b], e).0, file, id, todo[b..], script, k + 1);
    }
  }

  /** Where only clicks can keep a start from completing, it sends its completion call exactly when
      it is not left paused by the initiate call, hears no cancel after it, and no pause while it is
      shown as uploading. A cancel heard during the initiate call does not count: it undoes any
      pause, and its reset is undone by the answer; but it is not shown as uploading then. */
  lemma StartSendsIff(s: State, file: Bytes, init: StartEnv, script: nat -> BatchEnv, fin: FinishEnv)
    requires Inv(s) && init.initiated && forall i: nat :: Smooth(script(i))
    ensures var s1 := Clicks(Reset(s).(status := Uploading, file := Some(file)), init.duringInitiate);
            var heard := HeardByStart(s, file, init, script);
            && (|StartUpload(s, file, init, script, fin).cloud.completes| > |s.cloud.completes| <==>
                  !s1.paused && CancelClick !in heard && !(s1.status == Uploading && PauseClick in heard))
            && (CancelClick in init.duringInitiate ==> !s1.paused && s1.status != Uploading)
  {
    StartRuns(s, file, init, script);
    var s0 := Reset(s).(status := Uploading, file := Some(file));
    var s1 := Clicks(s0, init.duringInitiate);
    var s2, id, todo := Initiated(s1, file), s1.cloud.nextId, Numbers(1, TotalParts(|file|));
    CancelUnpauses(s0, init.duringInitiate);
    if CancelClick in HeardByStart(s, file, init, script) {
      CancelStopsStart(s, file, init, script, fin);
    } else if s1.status == Uploading && PauseClick in HeardByStart(s, file, init, script) {
      PauseStopsStart(s, file, init, script, fin);
    } else if !s1.paused {
      UnstoppedRun(s2, file, id, todo, script, 0);
      FinishSends(s2, file, id, todo, script, fin);
    }
  }

  lemma FinishSends(s: State, file: Bytes, id: nat, todo: seq<nat>, script: nat -> BatchEnv, fin: FinishEnv)
    requires RunReady(s, file, id, todo) && todo == Numbers(1, TotalParts(|file|))
    requires var (s1, end) := RunBatches(s, file, id, todo, script, 0); end == Finished && !Dead(s1)
    ensures |RunFromStart(s, file, id, script, fin).cloud.completes| == |s.cloud.completes| + 1
  {
    RunKeeps(s, file, id, todo, script, 0);
    var s1 := RunBatches(s, file, id, todo, script, 0).0;
    FinishKeeps(s1.(status := Uploading), Finished, file, id, fin);
  }

  /** A resume, likewise, exactly when it hears neither. */
  lemma ResumeSendsIff(s: State, script: nat -> BatchEnv, fin: FinishEnv)
    requires Inv(s) && s.status == Paused && s.file.Some? && s.uploadId.Some? && Takes(s.cloud, s.uploadId.value)
    requires forall i: nat :: Smooth(script(i))
    ensures var heard := Heard(s.(status := Uploading, paused := false), s.file.value, s.uploadId.value, Left(s), script, 0);
            |ResumeUpload(s, script, fin).cloud.completes| > |s.cloud.completes| <==> CancelClick !in heard && PauseClick !in heard
  {
    var file, id, s0 := s.file.value, s.uploadId.value, s.(status := Uploading, paused := false);
    ResumeReady(s);
    if CancelClick in Heard(s0, file, id, Left(s), script, 0) {
      CancelStopsResume(s, script, fin);
    } else if PauseClick in Heard(s0, file, id, Left(s), script, 0) {
      PauseStopsResume(s, script, fin);
    } else {
      RunKeeps(s0, file, id, Left(s), script, 0);
      UnstoppedRun(s0, file, id, Left(s), script, 0);
      FinishKeeps(RunBatches(s0, file, id, Left(s), script, 0).0, Finished, file, id, fin);
    }
  }

  /** Resuming takes a paused upload. */
  lemma ResumeNeedsPause(s: State, script: nat -> BatchEnv, fin: FinishEnv)
    requires s.status != Paused || s.file.None? || s.uploadId.None?
    ensures ResumeUpload(s, script, fin) == s
  {
  }

  /** A cancel clicked while initiate is awaited is lost: whatever else is clicked then, if nothing
      disturbs what follows the whole file is sent and completed. */
  lemma EarlyCancelIsLost(s: State, file: Bytes, clicks: seq<Click>, script: nat -> BatchEnv)
    requires Inv(s) && CancelClick in clicks && (forall i: nat :: Quiet(script(i))) && 1 <= TotalParts(|file|) <= MAX_PARTS
    ensures var s' := StartUpload(s, file, StartEnv(clicks, true), script, UNDISTURBED);
            && s'.status == Success && s'.cloud.log != []
            && Last(s'.cloud.log).Completed? && Last(s'.cloud.log).assembled == Some(file)
  {
    StartRuns(s, file, StartEnv(clicks, true), script);
    var s1 := Clicks(Reset(s).(status := Uploading, file := Some(file)), clicks);
    var s2, id, todo := Initiated(s1, file), s1.cloud.nextId, Numbers(1, TotalParts(|file|));
    QuietRun(s2, file, id, todo, script, 0);
    RunKeeps(s2, file, id, todo, script, 0);
    var s3 := RunBatches(s2, file, id, todo, script, 0).0;
    QuietFinish(s3.(status := Uploading), file, id);
  }

  // --- Why one run at a time -------------------------------------------------------------

  /** Two live runs of one upload and what each has left to put: a resume clicked while the run
      that was paused still awaits lets that run go on. */
  datatype TwoRuns = TwoRuns(state: State, first: seq<nat>, second: seq<nat>)

  /** One of them, if it is not done, puts and records its next batch. */
  function NextBatch(r: TwoRuns, file: Bytes, id: nat, isFirst: bool, e: BatchEnv): TwoRuns {
    var todo := if isFirst then r.first else r.second;
    if todo == [] then r
    else
      var s, rest := Batch(r.state, file, id, todo[..BatchSize(todo)], e).0, todo[BatchSize(todo)..];
      if isFirst then TwoRuns(s, rest, r.second) else TwoRuns(s, r.first, rest)
  }

  function Interleave(r: TwoRuns, file: Bytes, id: nat, turns: seq<bool>, script: nat -> BatchEnv, k: nat): TwoRuns
    decreases |turns|
  {
    if turns == [] then r else Interleave(NextBatch(r, file, id, turns[0], script(k)), file, id, turns[1..], script, k + 1)
  }

  predicate NumbersWithin(todo: seq<nat>, total: nat) { forall n :: n in todo ==> 1 <= n <= total }

  predicate PartsWithin(parts: seq<Part>, total: nat) { forall p :: p in parts ==> 1 <= p.number <= total }

  lemma WithinSplit(file: Bytes, todo: seq<nat>, b: nat, uploaded: seq<Part>, total: nat)
    requires NumbersWithin(todo, total) && b <= |todo| && PartsWithin(uploaded, total)
    ensures NumbersWithin(todo[b..], total) && PartsWithin(uploaded + PartsOf(file, todo[..b]), total)
  {
    forall n | n in todo[b..] ensures n in todo {
    }
    forall p | p in PartsOf(file, todo[..b]) ensures 1 <= p.number <= total {
      var i :| 0 <= i < b && p == PartOf(file, todo[i]);
      assert todo[i] in todo;
    }
  }

  /** Each of the two records what it puts. */
  lemma NextBatchRecords(r: TwoRuns, file: Bytes, id: nat, isFirst: bool, e: BatchEnv, total: nat)
    requires !Dead(r.state) && Takes(r.state.cloud, id) && Quiet(e)
    requires NumbersWithin(r.first, total) && NumbersWithin(r.second, total) && PartsWithin(r.state.uploaded, total)
    ensures var r' := NextBatch(r, file, id, isFirst, e);
            && !Dead(r'.state) && Takes(r'.state.cloud, id)
            && NumbersWithin(r'.first, total) && NumbersWithin(r'.second, total) && PartsWithin(r'.state.uploaded, total)
            && |r'.state.uploaded| + |r'.first| + |r'.second| == |r.state.uploaded| + |r.first| + |r.second|
            && |r'.second| <= |r.second|
            && (if isFirst then r'.second == r.second else r.second != [] ==> |r'.second| < |r.second|)
  {
    var todo := if isFirst then r.first else r.second;
    if todo != [] {
      QuietBatch(r.state, file, id, todo[..BatchSize(todo)], e);
      WithinSplit(file, todo, BatchSize(todo), r.state.uploaded, total);
    }
  }

  lemma {:induction false} InterleaveRecords(r: TwoRuns, file: Bytes, id: nat, turns: seq<bool>, script: nat -> BatchEnv, k: nat, total: nat)
    requires !Dead(r.state) && Takes(r.state.cloud, id) && forall i: nat :: Quiet(script(i))
    requires NumbersWithin(r.first, total) && NumbersWithin(r.second, total) && PartsWithin(r.state.uploaded, total)
    ensures var r' := Interleave(r, file, id, turns, script, k);
            && !Dead(r'.state) && Takes(r'.state.cloud, id) && PartsWithin(r'.state.uploaded, total)
            && |r'.state.uploaded| + |r'.first| + |r'.second| == |r.state.uploaded| + |r.first| + |r.second|
            && |r'.second| <= |r.second|
    decreases |turns|
  {
    if turns != [] {
      NextBatchRecords(r, file, id, turns[0], script(k), total);
      InterleaveRecords(NextBatch(r, file, id, turns[0], script(k)), file, id, turns[1..], script, k + 1, total);
    }
  }

  lemma PutsAlike(stored: Stored, file: Bytes, id: nat, batch: seq<nat>, e: BatchEnv, e': BatchEnv, i: nat)
    requires Quiet(e) && Quiet(e')
    ensures PutFrom(stored, file, id, batch, e.puts, i) == PutFrom(stored, file, id, batch, e'.puts, i)
    decreases |batch| - i
  {
    if i < |batch| {
      assert Lands(e.puts(i)) && Lands(e'.puts(i));
      PutsAlike(stored[(id, batch[i]) := Chunk(file, batch[i])], file, id, batch, e, e', i + 1);
    }
  }

  lemma QuietAlike(s: State, file: Bytes, id: nat, batch: seq<nat>, e: BatchEnv, e': BatchEnv)
    requires !Dead(s) && Quiet(e) && Quiet(e') && Takes(s.cloud, id)
    ensures Batch(s, file, id, batch, e) == Batch(s, file, id, batch, e')
  {
    assert FirstFailure(e.puts, |batch|, 0) == |batch| && FirstFailure(e'.puts, |batch|, 0) == |batch|;
    PutsAlike(s.cloud.stored, file, id, batch, e, e', 0);
  }

  /** A turn of the first is the next batch of the run it would be alone. */
  lemma FirstTurn(r: TwoRuns, file: Bytes, id: nat, script: nat -> BatchEnv, k: nat, j: nat)
    requires !Dead(r.state) && Takes(r.state.cloud, id) && Quiet(script(k)) && Quiet(script(j)) && r.first != []
    ensures var r1 := NextBatch(r, file, id, true, script(k));
            && r1.second == r.second
            && RunBatches(r.state, file, id, r.first, script, j) == RunBatches(r1.state, file, id, r1.first, script, j + 1)
  {
    QuietBatch(r.state, file, id, r.first[..BatchSize(r.first)], script(j));
    QuietAlike(r.state, file, id, r.first[..BatchSize(r.first)], script(k), script(j));
  }

  /** While the second records nothing, the first is the run it would be alone. */
  lemma {:induction false} FirstAlone(r: TwoRuns, file: Bytes, id: nat, turns: seq<bool>, script: nat -> BatchEnv, k: nat, j: nat, total: nat)
    requires !Dead(r.state) && Takes(r.state.cloud, id) && forall i: nat :: Quiet(script(i))
    requires NumbersWithin(r.first, total) && NumbersWithin(r.second, total) && PartsWithin(r.state.uploaded, total)
    requires var r' := Interleave(r, file, id, turns, script, k); r'.first == [] && r'.second == r.second
    ensures Interleave(r, file, id, turns, script, k).state == RunBatches(r.state, file, id, r.first, script, j).0
    decreases |turns|
  {
    if turns != [] {
      var r1 := NextBatch(r, file, id, turns[0], script(k));
      NextBatchRecords(r, file, id, turns[0], script(k), total);
      InterleaveRecords(r1, file, id, turns[1..], script, k + 1, total);
      if turns[0] && r.first != [] {
        FirstTurn(r, file, id, script, k, j);
        FirstAlone(r1, file, id, turns[1..], script, k + 1, j + 1, total);
      } else {
        assert r1 == r;
        FirstAlone(r1, file, id, turns[1..], script, k + 1, j, total);
      }
    }
  }

  /** Two runs live at once, both with all that is missing to put, their batches in any order:
      the call that one sends when it is done is accepted exactly when the other has recorded
      nothing by then, and the upload would complete at all. So once both have recorded
      anything neither can succeed, which is why one run at a time is assumed. */
  lemma OverlapAcceptedIff(s: State, file: Bytes, id: nat, turns: seq<bool>, script: nat -> BatchEnv)
    requires Inv(s) && !Dead(s) && s.uploadId == Some(id) && id in s.cloud.files && s.cloud.files[id] == file
    requires Takes(s.cloud, id) && forall i: nat :: Quiet(script(i))
    requires var todo := Numbers(|s.uploaded| + 1, TotalParts(|file|));
             Interleave(TwoRuns(s, todo, todo), file, id, turns, script, 0).first == []
    ensures var todo := Numbers(|s.uploaded| + 1, TotalParts(|file|));
            var r := Interleave(TwoRuns(s, todo, todo), file, id, turns, script, 0);
            Finish(r.state, Finished, file, id, UNDISTURBED).status == (if r.second == todo && Completable(s.cloud, id, file) then Success else Error)
  {
    var total := TotalParts(|file|);
    var todo := Numbers(|s.uploaded| + 1, total);
    var r := Interleave(TwoRuns(s, todo, todo), file, id, turns, script, 0);
    PartsInRange(s, file, id);
    InterleaveRecords(TwoRuns(s, todo, todo), file, id, turns, script, 0, total);
    if r.second == todo {
      FirstAlone(TwoRuns(s, todo, todo), file, id, turns, script, 0, 0, total);
      RunKeeps(s, file, id, todo, script, 0);
      QuietRun(s, file, id, todo, script, 0);
      QuietFinish(r.state, file, id);
    } else {
      SecondIsSuffix(TwoRuns(s, todo, todo), file, id, turns, script, 0);
      TooManyRefused(r.state.cloud.stored, id, r.state.uploaded, total);
    }
  }

  lemma {:induction false} SecondIsSuffix(r: TwoRuns, file: Bytes, id: nat, turns: seq<bool>, script: nat -> BatchEnv, k: nat)
    ensures var second := Interleave(r, file, id, turns, script, k).second;
            |second| <= |r.second| && (|second| == |r.second| ==> second == r.second)
    decreases |turns|
  {
    if turns != [] {
      SecondIsSuffix(NextBatch(r, file, id, turns[0], script(k)), file, id, turns[1..], script, k + 1);
    }
  }

  lemma PartsInRange(s: State, file: Bytes, id: nat)
    requires Inv(s) && s.uploadId == Some(id) && id in s.cloud.files && s.cloud.files[id] == file
    ensures var todo := Numbers(|s.uploaded| + 1, TotalParts(|file|));
            && NumbersWithin(todo, TotalParts(|file|)) && PartsWithin(s.uploaded, TotalParts(|file|))
            && |s.uploaded| + |todo| == TotalParts(|file|)
  {
  }

  lemma TooManyRefused(stored: Stored, id: nat, parts: seq<Part>, total: nat)
    requires |parts| > total && forall p :: p in parts ==> 1 <= p.number <= total
    ensures Complete(stored, id, parts) == None
  {
    TooManyToAscend(parts, total);
  }

  lemma SortedInRange(parts: seq<Part>, total: nat)
    requires forall p :: p in parts ==> 1 <= p.number <= total
    ensures |SortByNumber(parts)| == |parts|
    ensures forall p :: p in SortByNumber(parts) ==> 1 <= p.number <= total
  {
    SortSorts(parts);
    var sorted := SortByNumber(parts);
    assert |multiset(sorted)| == |multiset(parts)|;
    forall p | p in sorted ensures 1 <= p.number <= total {
      assert p in multiset(parts);
    }
  }

  /** More parts than there are numbers cannot be sorted into a strictly ascending list. */
  lemma TooManyToAscend(parts: seq<Part>, total: nat)
    requires |parts| > total && forall p :: p in parts ==> 1 <= p.number <= total
    ensures !StrictlyAscending(SortByNumber(parts))
  {
    SortedInRange(parts, total);
    var sorted := SortByNumber(parts);
    if StrictlyAscending(sorted) {
      assert sorted[0] in sorted && sorted[|sorted| - 1] in sorted;
      ClimbsByOne(sorted, |sorted| - 1);
    }
  }

  lemma {:induction false} ClimbsByOne(sorted: seq<Part>, i: nat)
    requires StrictlyAscending(sorted) && i < |sorted|
    ensures sorted[i].number >= sorted[0].number + i
  {
    if i > 0 {
      ClimbsByOne(sorted, i - 1);
    }
  }

  /** A file within the 4 GiB limit has at most 820 parts. */
  lemma PartsWithinLimit(size: nat)
    requires 0 < size <= 4 * 1024 * 1024 * 1024
    ensures 1 <= TotalParts(size) <= 820 <= MAX_PARTS
  {
  }
}
