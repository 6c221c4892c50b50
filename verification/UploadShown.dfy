/** What the user is shown of an upload: its progress, and its status however it ends; and what a
    cancel leaves behind. */
module UploadShown {
  import opened Basics
  import opened Wrappers
  import opened R2
  import opened MultipartUpload
  import opened UploadRuns
  import opened UploadOutcomes

  // --- Parts and progress ------------------------------------------------------------------

  /** A file is cut into as few parts as cover it: 5 MiB each, and what is left. */
  lemma PartsCover(file: Bytes, n: nat)
    requires 1 <= n <= TotalParts(|file|)
    ensures 5_242_880 * (TotalParts(|file|) - 1) < |file| <= 5_242_880 * TotalParts(|file|)
    ensures Chunk(file, n) == file[5_242_880 * (n - 1)..if n < TotalParts(|file|) then 5_242_880 * n else |file|]
  {
  }

  /** `percent` is the whole number nearest to the share `n` of `total`, upwards at a half. */
  ghost predicate Nearest(percent: nat, n: nat, total: nat) {
    2 * total * percent <= 200 * n + total < 2 * total * (percent + 1)
  }

  lemma NearestPercent(n: nat, total: nat)
    requires n <= total && total > 0
    ensures var p := Reported(n, total);
            p <= 99 && (p < 99 ==> Nearest(p, n, total)) && (p == 99 ==> 200 * n + total >= 2 * total * 99)
  {
    if n > 0 {
      var d, r := 2 * total, RoundPercent(n, total);
      Quotient(200 * n + total, d);
      assert d * r <= 200 * n + total < d * (r + 1);
      if r >= 99 {
        AtLeast(d, r);
      }
    }
  }

  lemma AtLeast(d: nat, r: nat)
    requires r >= 99
    ensures d * r >= d * 99
  {
  }

  lemma ProgressOf(s: State)
    requires Inv(s) && s.uploadId.Some?
    ensures s.uploadId.value in s.cloud.files
    ensures var n, total := |s.uploaded|, TotalParts(|s.cloud.files[s.uploadId.value]|);
            n <= total && (s.progress == Reported(n, total) || (s.progress == 100 && n == total))
  {
  }

  /** After every history the progress of an upload is the share of its parts that is recorded, to
      the nearest percent but at most 99; or 100, with every part recorded. */
  lemma ProgressShown(history: seq<Command>)
    requires Exec(START, history).uploadId.Some?
    ensures var s := Exec(START, history);
            && s.uploadId.value in s.cloud.files
            && var p, n, total := s.progress, |s.uploaded|, TotalParts(|s.cloud.files[s.uploadId.value]|);
               && n <= total && p <= 100 && (p == 100 ==> n == total)
               && (p < 99 && total > 0 ==> 2 * total * p <= 200 * n + total < 2 * total * (p + 1))
               && (p == 99 ==> 200 * n + total >= 2 * total * 99)
               && (p != 100 && total == 0 ==> p == 0)
  {
    var s := Exec(START, history);
    InvAlways(history);
    ProgressOf(s);
    var total := TotalParts(|s.cloud.files[s.uploadId.value]|);
    if total > 0 {
      NearestPercent(|s.uploaded|, total);
    }
  }

  // --- Cancelling --------------------------------------------------------------------------

  /** A cancel leaves nothing: without an upload id at once, otherwise when its DELETE is answered,
      whether or not that succeeded; and the DELETE has been sent. */
  lemma CancelEnds(s: State)
    ensures var s' := Clicks(s, if s.uploadId.Some? then [CancelClick, CancelSettled] else [CancelClick]);
            && s'.status == Idle && s'.progress == 0 && s'.file == None && s'.uploadId == None
            && s'.uploaded == [] && !s'.paused && s'.cancels == s.cancels
            && s'.cloud == if s.uploadId.Some? then s.cloud.(deletes := s.cloud.deletes + {s.uploadId.value}) else s.cloud
  {
    var clicks := if s.uploadId.Some? then [CancelClick, CancelSettled] else [CancelClick];
    var s1 := Clicked(s, CancelClick);
    if s.uploadId.Some? {
      assert clicks[1..] == [CancelSettled] && clicks[1..][1..] == [];
      assert Clicks(s1, [CancelSettled]) == Clicked(s1, CancelSettled);
    } else {
      assert clicks[1..] == [];
    }
  }

  lemma {:induction false} ExecGrows(history: seq<Command>, rest: seq<Command>)
    ensures Grows(Exec(START, history).cloud, Exec(START, history + rest).cloud)
    decreases |rest|
  {
    if rest == [] {
      assert history + rest == history;
    } else {
      var before, c := rest[..|rest| - 1], rest[|rest| - 1];
      assert history + rest == (history + before) + [c];
      ExecGrows(history, before);
      InvAlways(history + before);
      OneMoreGrows(Exec(START, history).cloud, history + before, c);
    }
  }

  lemma OneMoreGrows(c: Cloud, before: seq<Command>, last: Command)
    requires Inv(Exec(START, before)) && Grows(c, Exec(START, before).cloud)
    ensures Grows(c, Exec(START, before + [last]).cloud)
  {
    var s := Exec(START, before);
    assert (before + [last])[..|before|] == before;
    StepGrows(s, last);
    GrowsThrough(c, s.cloud, Step(s, last).cloud);
  }

  lemma StepGrows(s: State, c: Command)
    requires Inv(s)
    ensures Grows(s.cloud, Step(s, c).cloud)
  {
    match c {
      case Start(file, init, script, fin) => StartKeeps(s, file, init, script, fin);
      case Resume(script, fin) => ResumeKeeps(s, script, fin);
      case Click(click) => ClicksKeep(s, [click]); assert Clicks(s, [click]) == Clicked(s, click);
    }
  }

  /** Once the store has aborted an upload that was cancelled, it holds none of its parts, and never
      will again, whatever is started, resumed or clicked. */
  lemma AbortEmpties(history: seq<Command>, id: nat, rest: seq<Command>)
    requires var c := Exec(START, history).cloud; id in c.deletes && Aborted(id) !in c.log
    ensures var c := Exec(START, history + [Command.Click(DeleteLands(id, true))] + rest).cloud;
            Aborted(id) in c.log && forall n: nat :: (id, n) !in c.stored
  {
    var landed := history + [Command.Click(DeleteLands(id, true))];
    var s := Exec(START, history);
    assert landed[..|landed| - 1] == history;
    assert Exec(START, landed) == Clicked(s, DeleteLands(id, true));
    var log := Exec(START, landed).cloud.log;
    assert log[|s.cloud.log|] == Aborted(id);
    ExecGrows(landed, rest);
    InvAlways(landed + rest);
    assert Exec(START, landed + rest).cloud.log[|s.cloud.log|] == Aborted(id);
  }

  // --- How a start or a resume ends ----------------------------------------------------------

  /** An initiate call that fails is shown as an error, unless a pause was clicked while it was
      awaited and no cancel; and nothing is sent. */
  lemma InitiateFails(s: State, file: Bytes, init: StartEnv, script: nat -> BatchEnv, fin: FinishEnv)
    requires Inv(s) && s.cancels == 0 && !init.initiated
    ensures var s', clicks := StartUpload(s, file, init, script, fin), init.duringInitiate;
            && s'.status == (if PauseClick in clicks && CancelClick !in clicks then Paused else Error)
            && s'.uploadId.None? && s'.uploaded == [] && s'.cloud.completes == s.cloud.completes
  {
    var s0 := Reset(s).(status := Uploading, file := Some(file));
    ClicksKeep(s0, init.duringInitiate);
    ClicksBeforeId(s0, init.duringInitiate, file);
    if CancelClick in init.duringInitiate {
      CancelUnpauses(s0, init.duringInitiate);
    } else {
      ClicksBeforeHold(s0, init.duringInitiate);
    }
  }

  /** Whether PUT number `i` of a batch fails: it is rejected, as a closed upload rejects every one,
      or brings no ETag. */
  ghost predicate PutFails(c: Cloud, id: nat, e: BatchEnv, i: nat) { id in c.closed || !e.puts(i).Etagged? }

  lemma ClicksRecordNothing(s: State, clicks: seq<Click>)
    ensures Clicks(s, clicks).uploaded in {s.uploaded, []}
    decreases |clicks|
  {
    if clicks != [] {
      ClicksRecordNothing(Clicked(s, clicks[0]), clicks[1..]);
    }
  }

  lemma AnsweredIff(c: Cloud, id: nat, e: BatchEnv, i: nat)
    ensures var put := Answered(c, id, e.puts)(i);
            && (put.Etagged? <==> !PutFails(c, id, e, i))
            && (PutFails(c, id, e, i) ==>
                  (put.Rejected? && put.isCancel <==> e.puts(i).Rejected? && e.puts(i).isCancel))
  {
  }

  /** Number `i` is the first PUT of the batch that fails. */
  ghost predicate FailsFirst(c: Cloud, id: nat, e: BatchEnv, length: nat, i: nat) {
    i < length && PutFails(c, id, e, i) && forall k: nat :: k < i ==> !PutFails(c, id, e, k)
  }

  /** A batch fails exactly when it is not presigned, as it is not once the video is gone, or when
      it was not paused by then and a PUT fails. Then nothing of it is recorded. */
  lemma BatchThrowsIff(s: State, file: Bytes, id: nat, batch: seq<nat>, e: BatchEnv)
    ensures var (s', end) := Batch(s, file, id, batch, e);
            var s1 := Clicks(s, e.duringPresign);
            && (end.Threw? <==>
                  !e.presigned || Aborted(id) in s.cloud.log ||
                  (!s1.paused && exists i: nat :: i < |batch| && PutFails(s1.cloud, id, e, i)))
            && (end.Threw? ==> s'.uploaded in {s.uploaded, []})
  {
    var s1 := Clicks(s, e.duringPresign);
    ClicksRecordNothing(s, e.duringPresign);
    if Presigned(s.cloud, id, e) && !s1.paused {
      var puts := Answered(s1.cloud, id, e.puts);
      ClicksRecordNothing(Put(s1, file, id, batch, puts), e.duringPuts);
      var j := FirstFailure(puts, |batch|, 0);
      AnsweredIff(s1.cloud, id, e, j);
      forall i: nat | i < j ensures !PutFails(s1.cloud, id, e, i) {
        AnsweredIff(s1.cloud, id, e, i);
      }
    }
  }

  /** The failure counts as a cancellation exactly when the first PUT that fails was aborted. */
  lemma BatchAbortedIff(s: State, file: Bytes, id: nat, batch: seq<nat>, e: BatchEnv, i: nat)
    requires var s1 := Clicks(s, e.duringPresign);
             Presigned(s.cloud, id, e) && !s1.paused && FailsFirst(s1.cloud, id, e, |batch|, i)
    ensures Batch(s, file, id, batch, e).1 == Threw(e.puts(i).Rejected? && e.puts(i).isCancel)
  {
    var s1 := Clicks(s, e.duringPresign);
    var puts := Answered(s1.cloud, id, e.puts);
    var j := FirstFailure(puts, |batch|, 0);
    AnsweredIff(s1.cloud, id, e, i);
    if j < |batch| {
      AnsweredIff(s1.cloud, id, e, j);
    }
    assert j == i;
  }

  /** A resume whose first batch, with nothing clicked, has a PUT that fails: shown as an error, or
      as uploading still when that PUT was aborted; nothing is lost and no call is sent. */
  lemma FirstFailureShown(s: State, script: nat -> BatchEnv, fin: FinishEnv, i: nat)
    requires Inv(s) && s.status == Paused && s.file.Some? && s.uploadId.Some? && Takes(s.cloud, s.uploadId.value)
    requires script(0).presigned && script(0).duringPresign == [] && script(0).duringPuts == []
    requires i < 3 && i < |Left(s)| && !script(0).puts(i).Etagged? && forall k: nat :: k < i ==> script(0).puts(k).Etagged?
    ensures var s', put := ResumeUpload(s, script, fin), script(0).puts(i);
            && s'.status == (if put.Rejected? && put.isCancel then Uploading else Error)
            && s'.uploaded == s.uploaded && s'.uploadId == s.uploadId && s'.cloud.completes == s.cloud.completes
  {
    var file, id, s0 := s.file.value, s.uploadId.value, s.(status := Uploading, paused := false);
    ResumeReady(s);
    var e, b := script(0), BatchSize(Left(s));
    assert FirstFailure(e.puts, b, 0) == i;
    var (s1, end) := Batch(s0, file, id, Left(s)[..b], e);
    assert RunBatches(s0, file, id, Left(s), script, 0) == (s1, end);
  }

  lemma BatchRecordsAtMost(s: State, file: Bytes, id: nat, batch: seq<nat>, e: BatchEnv)
    ensures |Batch(s, file, id, batch, e).0.uploaded| <= |s.uploaded| + |batch|
  {
    var s1 := Clicks(s, e.duringPresign);
    ClicksRecordNothing(s, e.duringPresign);
    if Presigned(s.cloud, id, e) {
      var s2 := if s1.paused then s1 else Put(s1, file, id, batch, Answered(s1.cloud, id, e.puts));
      ClicksRecordNothing(s2, e.duringPuts);
      RecordAppends(Clicks(s2, e.duringPuts), file, batch);
    }
  }

  /** After a pause heard by the first batch of a resume at most three parts more are recorded. */
  lemma AtMostThreeMore(s: State, script: nat -> BatchEnv, fin: FinishEnv)
    requires Inv(s) && s.status == Paused && s.file.Some? && s.uploadId.Some?
    requires HearsPause(s.cloud, s.uploadId.value, script(0))
    ensures var s' := ResumeUpload(s, script, fin);
            s'.uploadId.Some? ==> |s'.uploaded| <= |s.uploaded| + 3
  {
    ResumeRuns(s, script, fin);
    var file, id, s0, todo := s.file.value, s.uploadId.value, s.(status := Uploading, paused := false), Left(s);
    if todo != [] {
      var b := BatchSize(todo);
      var (s1, end) := Batch(s0, file, id, todo[..b], script(0));
      BatchRecordsAtMost(s0, file, id, todo[..b], script(0));
      PauseKillsBatch(s0, file, id, todo[..b], script(0));
      BatchKeeps(s0, file, id, todo, b, script(0));
      if end.Finished? && !s1.paused {
        RunKeeps(s1, file, id, todo[b..], script, 1);
      }
    }
  }

  /** A completion call on its way, with no cancel: success when it lands, assembles and is
      answered; otherwise paused when a pause was clicked meanwhile, and an error when not. */
  lemma CallOutcome(s: State, file: Bytes, id: nat, env: FinishEnv)
    requires Running(s) && CancelClick !in env.before && CancelClick !in env.after
    ensures var s', sent := Finish(s, Finished, file, id, env), Sent(s, CompleteCall(id, s.uploaded, |file|, file));
            var assembled := Assemble(Clicks(sent, env.before).cloud, CompleteCall(id, s.uploaded, |file|, file));
            && s'.progress == 100 && s'.uploaded == s.uploaded && s'.uploadId == s.uploadId
            && s'.status == if env.lands && env.answered && assembled.Some? then Success
                            else if PauseClick in env.before || PauseClick in env.after then Paused else Error
  {
    var call := CompleteCall(id, s.uploaded, |file|, file);
    var sent := Sent(s, call);
    ClicksHold(sent, env.before);
    ClicksHold(Landing(sent, call, env), env.after);
  }

  // Without a cancel an upload keeps its id.

  ghost predicate Spared(s: State, s': State) { s'.uploadId == s.uploadId && s'.cancels == s.cancels }

  lemma {:induction false} ClicksSpare(s: State, clicks: seq<Click>)
    requires s.uploadId.Some? && s.cancels == 0 && CancelClick !in clicks
    ensures Spared(s, Clicks(s, clicks))
    decreases |clicks|
  {
    if clicks != [] {
      ClicksSpare(Clicked(s, clicks[0]), clicks[1..]);
    }
  }

  lemma BatchSpares(s: State, file: Bytes, id: nat, batch: seq<nat>, e: BatchEnv)
    requires s.uploadId.Some? && s.cancels == 0 && !HearsCancel(s.cloud, id, e)
    ensures Spared(s, Batch(s, file, id, batch, e).0)
  {
    var s1 := Clicks(s, e.duringPresign);
    ClicksSpare(s, e.duringPresign);
    if Presigned(s.cloud, id, e) {
      var s2 := if s1.paused then s1 else Put(s1, file, id, batch, Answered(s1.cloud, id, e.puts));
      ClicksSpare(s2, e.duringPuts);
      RecordFrame(Clicks(s2, e.duringPuts), file, batch);
    }
  }

  lemma {:induction false} RunSpares(s: State, file: Bytes, id: nat, todo: seq<nat>, script: nat -> BatchEnv, k: nat)
    requires s.uploadId.Some? && s.cancels == 0 && CancelClick !in Heard(s, file, id, todo, script, k)
    ensures Spared(s, RunBatches(s, file, id, todo, script, k).0)
    decreases |todo|
  {
    if todo != [] && !s.paused {
      var b, e := BatchSize(todo), script(k);
      var (s', end) := Batch(s, file, id, todo[..b], e);
      BatchSpares(s, file, id, todo[..b], e);
      if end.Finished? {
        RunSpares(s', file, id, todo[b..], script, k + 1);
      }
    }
  }

  // Nothing but a completion call makes the server assemble.

  ghost predicate AssembledAlike(c: Cloud, c': Cloud, id: nat) { AssembledIn(c'.log, id) <==> AssembledIn(c.log, id) }

  lemma {:induction false} ClicksAssembleNothing(s: State, clicks: seq<Click>, id: nat)
    ensures AssembledAlike(s.cloud, Clicks(s, clicks).cloud, id)
    decreases |clicks|
  {
    if clicks != [] {
      if clicks[0].DeleteLands? {
        AssembledExtends(s.cloud.log, Aborted(clicks[0].id), id);
      }
      ClicksAssembleNothing(Clicked(s, clicks[0]), clicks[1..], id);
    }
  }

  lemma BatchAssemblesNothing(s: State, file: Bytes, id: nat, batch: seq<nat>, e: BatchEnv)
    ensures AssembledAlike(s.cloud, Batch(s, file, id, batch, e).0.cloud, id)
  {
    var s1 := Clicks(s, e.duringPresign);
    ClicksAssembleNothing(s, e.duringPresign, id);
    if Presigned(s.cloud, id, e) {
      var s2 := if s1.paused then s1 else Put(s1, file, id, batch, Answered(s1.cloud, id, e.puts));
      ClicksAssembleNothing(s2, e.duringPuts, id);
      RecordFrame(Clicks(s2, e.duringPuts), file, batch);
    }
  }

  lemma {:induction false} RunAssemblesNothing(s: State, file: Bytes, id: nat, todo: seq<nat>, script: nat -> BatchEnv, k: nat)
    ensures AssembledAlike(s.cloud, RunBatches(s, file, id, todo, script, k).0.cloud, id)
    decreases |todo|
  {
    if todo != [] && !s.paused {
      var (s', end) := Batch(s, file, id, todo[..BatchSize(todo)], script(k));
      BatchAssemblesNothing(s, file, id, todo[..BatchSize(todo)], script(k));
      if end.Finished? {
        RunAssemblesNothing(s', file, id, todo[BatchSize(todo)..], script, k + 1);
      }
    }
  }

  lemma LandingAssembles(s: State, call: CompleteCall, env: FinishEnv)
    ensures var s' := Clicks(Landing(s, call, env), env.after);
            AssembledIn(s'.cloud.log, call.id) <==>
              AssembledIn(s.cloud.log, call.id) || (env.lands && Assemble(Clicks(s, env.before).cloud, call).Some?)
  {
    var s1 := Clicks(s, env.before);
    ClicksAssembleNothing(s, env.before, call.id);
    AssembledExtends(s1.cloud.log, Completed(call, Assemble(s1.cloud, call)), call.id);
    ClicksAssembleNothing(Landing(s, call, env), env.after, call.id);
  }

  /** A start that sends its call, with no cancel meanwhile: shown as success exactly when the server
      assembled its upload and the answer came back; otherwise as paused when a pause was clicked
      during the call, even where pauses were lost before it, and as an error when not. */
  lemma StartOutcome(s: State, file: Bytes, init: StartEnv, script: nat -> BatchEnv, fin: FinishEnv)
    requires Inv(s) && s.cancels == 0 && init.initiated
    requires |StartUpload(s, file, init, script, fin).cloud.completes| > |s.cloud.completes|
    requires CancelClick !in fin.before && CancelClick !in fin.after
    ensures var s' := StartUpload(s, file, init, script, fin);
            && s'.progress == 100 && s'.uploadId.Some?
            && s'.status == if AssembledIn(s'.cloud.log, s'.uploadId.value) && fin.answered then Success
                            else if PauseClick in fin.before || PauseClick in fin.after then Paused else Error
  {
    StartRuns(s, file, init, script);
    var s0 := Reset(s).(status := Uploading, file := Some(file));
    var s1 := Clicks(s0, init.duringInitiate);
    var s2, id, todo := Initiated(s1, file), s1.cloud.nextId, Numbers(1, TotalParts(|file|));
    NoCancels(s0, init.duringInitiate);
    if CancelClick in HeardByStart(s, file, init, script) {
      CancelStopsStart(s, file, init, script, fin);
    } else {
      RunSpares(s2, file, id, todo, script, 0);
      RunAssemblesNothing(s2, file, id, todo, script, 0);
      var s3 := RunBatches(s2, file, id, todo, script, 0).0.(status := Uploading);
      var call := CompleteCall(id, s3.uploaded, |file|, file);
      CallOutcome(s3, file, id, fin);
      LandingAssembles(Sent(s3, call), call, fin);
    }
  }

  lemma {:induction false} NoCancels(s: State, clicks: seq<Click>)
    requires s.uploadId.None? && s.cancels == 0
    ensures Clicks(s, clicks).uploadId.None? && Clicks(s, clicks).cancels == 0
    decreases |clicks|
  {
    if clicks != [] {
      NoCancels(Clicked(s, clicks[0]), clicks[1..]);
    }
  }
}
