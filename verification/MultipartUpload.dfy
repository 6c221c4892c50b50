/** The resumable upload hook: 5 MiB byte ranges put in batches of three, paused, cancelled or
    failed at any await, resumed from the missing part numbers, completed by one call. */
module MultipartUpload {
  import opened Basics
  import opened Wrappers
  import opened R2

  const CHUNK_SIZE: nat := 5_242_880 // 5 MiB
  const MAX_CONCURRENCY: nat := 3

  datatype Status = Idle | Uploading | Paused | Error | Success

  // --- Byte ranges ---------------------------------------------------------------------

  /** The length of n whole chunks. */
  function Chunks(n: nat): nat { n * 5_242_880 }

  function TotalParts(size: nat): nat { (size + 5_242_879) / 5_242_880 }

  /** Part `n` of a file; parts are numbered from 1. */
  function Chunk(file: Bytes, n: nat): Bytes {
    if n == 0 then [] else file[Min(Chunks(n - 1), |file|)..Min(Chunks(n), |file|)]
  }

  function PartOf(file: Bytes, n: nat): Part { Part(n, ETag(Chunk(file, n))) }

  /** The numbers from..to, both included. */
  function Numbers(from: nat, to: nat): seq<nat> {
    if from > to then [] else seq(to - from + 1, i requires 0 <= i => from + i)
  }

  /** Parts 1..k, each with the ETag of its own byte range. */
  function PartsUpTo(file: Bytes, k: nat): seq<Part> {
    seq(k, i requires 0 <= i => PartOf(file, i + 1))
  }

  function Recorded(uploaded: seq<Part>): set<nat> {
    set p | p in uploaded :: p.number
  }

  function Missing(numbers: seq<nat>, uploaded: seq<Part>): seq<nat> {
    if numbers == [] then []
    else (if numbers[0] in Recorded(uploaded) then [] else [numbers[0]]) + Missing(numbers[1..], uploaded)
  }

  // --- State ---------------------------------------------------------------------------

  /** One call of the completion endpoint; `file` is the file that run was started with. */
  datatype CompleteCall = CompleteCall(id: nat, parts: seq<Part>, size: nat, file: Bytes)

  /** What the server has done: answered the DELETE of an upload, or a completion call, which
      assembled an object or was refused. */
  datatype Handled = Aborted(id: nat) | Completed(call: CompleteCall, assembled: Option<Bytes>)

  /** The server's side: parts stored, the file behind each upload id, the completion calls and
      the DELETEs sent to it, the uploads the store has closed, and what has landed, in order. */
  datatype Cloud = Cloud(stored: Stored, files: map<nat, Bytes>, completes: seq<CompleteCall>, deletes: set<nat>,
                         closed: set<nat>, log: seq<Handled>, nextId: nat)

  const NO_UPLOADS := Cloud(map[], map[], [], {}, {}, [], 0)

  /** The hook's refs and visible state. `uploadId` stands for the upload and resource ids,
      which are set and cleared together; `cancels` counts cancel calls awaiting their DELETE. */
  datatype State = State(status: Status, progress: nat, file: Option<Bytes>, uploadId: Option<nat>,
                         uploaded: seq<Part>, paused: bool, cancels: nat, cloud: Cloud)

  const START := State(Idle, 0, None, None, [], false, 0, NO_UPLOADS)

  // --- The server ----------------------------------------------------------------------

  /** A closed upload has no parts left, and takes no more. */
  function Closed(c: Cloud, id: nat): Cloud {
    c.(closed := c.closed + {id}, stored := map key | key in c.stored && key.0 != id :: c.stored[key])
  }

  /** A DELETE soft-deletes the video, once, whether or not the store manages to abort the upload. */
  function DeleteLanded(c: Cloud, id: nat, aborted: bool): Cloud {
    if id !in c.deletes || Aborted(id) in c.log then c
    else
      var logged := c.(log := c.log + [Aborted(id)]);
      if aborted then Closed(logged, id) else logged
  }

  /** A completion call is refused when the video is gone, or by the store. */
  function Assemble(c: Cloud, call: CompleteCall): Option<Bytes> {
    if Aborted(call.id) in c.log then None else Complete(c.stored, call.id, call.parts)
  }

  function CompleteLanded(c: Cloud, call: CompleteCall): Cloud {
    var assembled := Assemble(c, call);
    var logged := c.(log := c.log + [Completed(call, assembled)]);
    if assembled.Some? then Closed(logged, call.id) else logged
  }

  // --- What may happen while a run awaits ----------------------------------------------

  /** What the user clicks, a cancel's DELETE answered, and a DELETE handled by the server, with
      or without the store's abort. */
  datatype Click = PauseClick | CancelClick | CancelSettled | DeleteLands(id: nat, aborted: bool)

  /** How one PUT ends. A rejected PUT may or may not have been stored. */
  datatype PutOutcome = Etagged | NoEtag | Rejected(isCancel: bool, landed: bool)

  datatype BatchEnv = BatchEnv(duringPresign: seq<Click>, presigned: bool,
                               duringPuts: seq<Click>, puts: nat -> PutOutcome)

  /** Whether the completion call reaches the server, whether its answer comes back, and what
      happens before and after it lands. */
  datatype FinishEnv = FinishEnv(before: seq<Click>, lands: bool, after: seq<Click>, answered: bool)

  datatype RunEnd = Finished | Threw(isCancel: bool)

  // --- Synchronous steps ---------------------------------------------------------------

  function Reset(s: State): State {
    s.(status := Idle, progress := 0, file := None, uploadId := None, uploaded := [], paused := false)
  }

  function Clicked(s: State, c: Click): State {
    match c
    case PauseClick => if s.status != Uploading then s else s.(paused := true, status := Paused)
    case CancelClick =>
      if s.uploadId.None? then Reset(s)
      else s.(paused := true, cancels := s.cancels + 1, cloud := s.cloud.(deletes := s.cloud.deletes + {s.uploadId.value}))
    case CancelSettled => if s.cancels == 0 then s else Reset(s).(cancels := s.cancels - 1)
    case DeleteLands(id, aborted) => s.(cloud := DeleteLanded(s.cloud, id, aborted))
  }

  function Clicks(s: State, clicks: seq<Click>): State
    decreases |clicks|
  {
    if clicks == [] then s else Clicks(Clicked(s, clicks[0]), clicks[1..])
  }

  function RecordPart(s: State, file: Bytes, n: nat): State {
    var uploaded := s.uploaded + [PartOf(file, n)];
    var total := TotalParts(|file|);
    s.(uploaded := uploaded, progress := if total == 0 then 99 else Min(RoundPercent(|uploaded|, total), 99))
  }

  function RecordBatch(s: State, file: Bytes, batch: seq<nat>): State
    decreases |batch|
  {
    if batch == [] then s else RecordBatch(RecordPart(s, file, batch[0]), file, batch[1..])
  }

  predicate Lands(o: PutOutcome) { o.Rejected? ==> o.landed }

  /** A closed upload rejects every PUT. */
  function Answered(c: Cloud, id: nat, puts: nat -> PutOutcome): nat -> PutOutcome {
    if id !in c.closed then puts
    else (i: nat) => Rejected(puts(i).Rejected? && puts(i).isCancel, false)
  }

  /** The PUTs that reach the store, from position `i` of the batch on. */
  function PutFrom(stored: Stored, file: Bytes, id: nat, batch: seq<nat>, puts: nat -> PutOutcome, i: nat): Stored
    decreases |batch| - i
  {
    if i >= |batch| then stored
    else
      var now := if Lands(puts(i)) then stored[(id, batch[i]) := Chunk(file, batch[i])] else stored;
      PutFrom(now, file, id, batch, puts, i + 1)
  }

  /** The first PUT at or after position `i` that rejects its promise, or the batch length. */
  function FirstFailure(puts: nat -> PutOutcome, length: nat, i: nat): (j: nat)
    requires i <= length
    ensures i <= j <= length && (j < length ==> !puts(j).Etagged?)
    ensures forall k :: i <= k < j ==> puts(k).Etagged?
    decreases length - i
  {
    if i == length || !puts(i).Etagged? then i else FirstFailure(puts, length, i + 1)
  }

  function Failed(s: State, isCancel: bool): State {
    if isCancel || s.paused then s else s.(status := Error)
  }

  // --- Runs ----------------------------------------------------------------------------

  /** One batch: presign, put and record, unless a failure stops the run or a pause skips the
      rest. The parts of a deleted video are not presigned. */
  function Batch(s: State, file: Bytes, id: nat, batch: seq<nat>, e: BatchEnv): (State, RunEnd) {
    var s1 := Clicks(s, e.duringPresign);
    if !e.presigned || Aborted(id) in s.cloud.log then (s1, Threw(false))
    else if s1.paused then (Clicks(s1, e.duringPuts), Finished)
    else
      var puts := Answered(s1.cloud, id, e.puts);
      var s2 := Clicks(Put(s1, file, id, batch, puts), e.duringPuts);
      var j := FirstFailure(puts, |batch|, 0);
      if j < |batch| then (s2, Threw(puts(j).Rejected? && puts(j).isCancel))
      else (RecordBatch(s2, file, batch), Finished)
  }

  function BatchSize(todo: seq<nat>): nat { Min(MAX_CONCURRENCY, |todo|) }

  /** The batches of one run over `todo`; batch number `k` meets the events `script(k)`. */
  function RunBatches(s: State, file: Bytes, id: nat, todo: seq<nat>, script: nat -> BatchEnv, k: nat): (State, RunEnd)
    decreases |todo|
  {
    if todo == [] || s.paused then (s, Finished)
    else
      var b := BatchSize(todo);
      var (s', end) := Batch(s, file, id, todo[..b], script(k));
      if end.Threw? then (s', end) else RunBatches(s', file, id, todo[b..], script, k + 1)
  }

  /** The rest of a run from position `i` on is its next batch and the rest after that. */
  lemma NextBatchOfRun(s: State, file: Bytes, id: nat, todo: seq<nat>, script: nat -> BatchEnv, i: nat, k: nat)
    requires i < |todo| && !s.paused
    ensures var next := Min(i + MAX_CONCURRENCY, |todo|);
            var (s', end) := Batch(s, file, id, todo[i..next], script(k));
            RunBatches(s, file, id, todo[i..], script, k) ==
              if end.Threw? then (s', end) else RunBatches(s', file, id, todo[next..], script, k + 1)
  {
    var rest := todo[i..];
    var b := BatchSize(rest);
    assert rest[..b] == todo[i..i + b] && rest[b..] == todo[i + b..];
  }

  function Put(s: State, file: Bytes, id: nat, batch: seq<nat>, puts: nat -> PutOutcome): State {
    s.(cloud := s.cloud.(stored := PutFrom(s.cloud.stored, file, id, batch, puts, 0)))
  }

  function Sent(s: State, call: CompleteCall): State {
    s.(progress := 100, cloud := s.cloud.(completes := s.cloud.completes + [call]))
  }

  /** The completion call, as far as the server. */
  function Landing(s: State, call: CompleteCall, env: FinishEnv): State {
    var s1 := Clicks(s, env.before);
    if env.lands then s1.(cloud := CompleteLanded(s1.cloud, call)) else s1
  }

  /** After the batches: give up, stop quietly, or send the completion call. */
  function Finish(s: State, end: RunEnd, file: Bytes, id: nat, env: FinishEnv): State {
    if end.Threw? then Failed(s, end.isCancel)
    else if s.paused || s.uploadId.None? then s
    else
      var call := CompleteCall(id, s.uploaded, |file|, file);
      var sent := Sent(s, call);
      var after := Clicks(Landing(sent, call, env), env.after);
      if env.lands && env.answered && Assemble(Clicks(sent, env.before).cloud, call).Some?
      then after.(status := Success) else Failed(after, false)
  }

  datatype StartEnv = StartEnv(duringInitiate: seq<Click>, initiated: bool)

  function Initiated(s: State, file: Bytes): State {
    var id := s.cloud.nextId;
    s.(uploadId := Some(id), cloud := s.cloud.(files := s.cloud.files[id := file], nextId := id + 1))
  }

  function StartUpload(s: State, file: Bytes, init: StartEnv, script: nat -> BatchEnv, fin: FinishEnv): State {
    var s0 := Clicks(Reset(s).(status := Uploading, file := Some(file)), init.duringInitiate);
    if init.initiated then RunFromStart(Initiated(s0, file), file, s0.cloud.nextId, script, fin) else Failed(s0, false)
  }

  function RunFromStart(s: State, file: Bytes, id: nat, script: nat -> BatchEnv, fin: FinishEnv): State {
    var (s1, end) := RunBatches(s, file, id, Numbers(1, TotalParts(|file|)), script, 0);
    Finish(if end.Finished? && !s1.paused && s1.uploadId.Some? then s1.(status := Uploading) else s1, end, file, id, fin)
  }

  function ResumeUpload(s: State, script: nat -> BatchEnv, fin: FinishEnv): State {
    if s.status != Paused || s.file.None? || s.uploadId.None? then s
    else
      var file, id := s.file.value, s.uploadId.value;
      var todo := Missing(Numbers(1, TotalParts(|file|)), s.uploaded);
      var (s1, end) := RunBatches(s.(status := Uploading, paused := false), file, id, todo, script, 0);
      Finish(s1, end, file, if s1.uploadId.Some? then s1.uploadId.value else id, fin)
  }

  // --- The hook ------------------------------------------------------------------------

  class Upload {
    var status: Status
    var progress: nat
    var file: Option<Bytes>
    var uploadId: Option<nat>
    var uploadedParts: seq<Part>
    var isPaused: bool
    var cancels: nat
    var cloud: Cloud

    ghost function Now(): State
      reads this
    {
      State(status, progress, file, uploadId, uploadedParts, isPaused, cancels, cloud)
    }

    constructor ()
      ensures Now() == START
    {
      status, progress, file, uploadId := Idle, 0, None, None;
      uploadedParts, isPaused, cancels := [], false, 0;
      cloud := NO_UPLOADS;
    }

    method ResetState()
      modifies this
      ensures Now() == Reset(old(Now()))
    {
      status, progress, file, uploadId, uploadedParts, isPaused := Idle, 0, None, None, [], false;
    }

    method PauseUpload()
      modifies this
      ensures Now() == Clicked(old(Now()), PauseClick)
    {
      if status != Uploading {
        return;
      }
      isPaused := true;
      status := Paused;
    }

    /** Up to its first await, or to the end when there is nothing to delete. */
    method CancelUpload()
      modifies this
      ensures Now() == Clicked(old(Now()), CancelClick)
    {
      isPaused := true;
      if uploadId.Some? {
        cancels := cancels + 1;
        cloud := cloud.(deletes := cloud.deletes + {uploadId.value});
      } else {
        ResetState();
      }
    }

    /** The rest of a cancel whose DELETE has been answered. */
    method SettleCancel()
      modifies this
      ensures Now() == Clicked(old(Now()), CancelSettled)
    {
      if cancels > 0 {
        ResetState();
        cancels := cancels - 1;
      }
    }

    /** The server's side of a DELETE; a second one finds no video. */
    method LandDelete(id: nat, aborted: bool)
      modifies this`cloud
      ensures Now() == Clicked(old(Now()), DeleteLands(id, aborted))
    {
      if id !in cloud.deletes || Aborted(id) in cloud.log {
        return;
      }
      if aborted {
        CloseUpload(id);
      }
      cloud := cloud.(log := cloud.log + [Aborted(id)]);
    }

    /** The store drops the parts of an upload it has aborted or completed. */
    method CloseUpload(id: nat)
      modifies this`cloud
      ensures cloud == Closed(old(cloud), id)
    {
      cloud := cloud.(closed := cloud.closed + {id}, stored := map key | key in cloud.stored && key.0 != id :: cloud.stored[key]);
    }

    /** The server's side of a completion call. */
    method LandComplete(call: CompleteCall) returns (assembled: Option<Bytes>)
      modifies this`cloud
      ensures cloud == CompleteLanded(old(cloud), call)
      ensures assembled == Assemble(old(cloud), call)
    {
      assembled := None;
      if Aborted(call.id) !in cloud.log {
        assembled := Complete(cloud.stored, call.id, call.parts);
      }
      if assembled.Some? {
        CloseUpload(call.id);
      }
      cloud := cloud.(log := cloud.log + [Completed(call, assembled)]);
    }

    /** What happens while a call is awaited. */
    method Await(clicks: seq<Click>)
      modifies this
      ensures Now() == Clicks(old(Now()), clicks)
    {
      for i := 0 to |clicks|
        invariant Clicks(Now(), clicks[i..]) == Clicks(old(Now()), clicks)
      {
        assert clicks[i..][1..] == clicks[i + 1..];
        match clicks[i] {
          case PauseClick => PauseUpload();
          case CancelClick => CancelUpload();
          case CancelSettled => SettleCancel();
          case DeleteLands(id, aborted) => LandDelete(id, aborted);
        }
      }
    }

    /** The PUTs of a batch; each reaches the store or not on its own. */
    method PutBatch(file: Bytes, id: nat, batch: seq<nat>, puts: nat -> PutOutcome)
      modifies this`cloud
      ensures Now() == Put(old(Now()), file, id, batch, puts)
    {
      for i := 0 to |batch|
        invariant Now() == old(Now()).(cloud := old(cloud).(stored := cloud.stored))
        invariant PutFrom(cloud.stored, file, id, batch, puts, i) == PutFrom(old(cloud.stored), file, id, batch, puts, 0)
      {
        if Lands(puts(i)) {
          cloud := cloud.(stored := cloud.stored[(id, batch[i]) := Chunk(file, batch[i])]);
        }
      }
    }

    method RecordResults(file: Bytes, batch: seq<nat>)
      modifies this
      ensures Now() == RecordBatch(old(Now()), file, batch)
    {
      var total := TotalParts(|file|);
      for i := 0 to |batch|
        invariant RecordBatch(Now(), file, batch[i..]) == RecordBatch(old(Now()), file, batch)
      {
        assert batch[i..][1..] == batch[i + 1..];
        uploadedParts := uploadedParts + [PartOf(file, batch[i])];
        progress := if total == 0 then 99 else Min(RoundPercent(|uploadedParts|, total), 99);
      }
    }

    /** The body of the loop, up to where it throws. */
    method SendBatch(file: Bytes, id: nat, batch: seq<nat>, e: BatchEnv) returns (end: RunEnd)
      modifies this
      ensures (Now(), end) == Batch(old(Now()), file, id, batch, e)
    {
      var videoGone := Aborted(id) in cloud.log;
      Await(e.duringPresign);
      if !e.presigned || videoGone {
        return Threw(false);
      }
      if isPaused {
        Await(e.duringPuts);
        return Finished;
      }
      var puts := Answered(cloud, id, e.puts);
      PutBatch(file, id, batch, puts);
      Await(e.duringPuts);
      var j := FirstFailure(puts, |batch|, 0);
      if j < |batch| {
        return Threw(puts(j).Rejected? && puts(j).isCancel);
      }
      RecordResults(file, batch);
      return Finished;
    }

    method UploadParts(file: Bytes, id: nat, todo: seq<nat>, script: nat -> BatchEnv) returns (end: RunEnd)
      modifies this
      ensures (Now(), end) == RunBatches(old(Now()), file, id, todo, script, 0)
    {
      var i, k := 0, 0;
      while i < |todo|
        invariant 0 <= i
        invariant RunBatches(Now(), file, id, todo[Min(i, |todo|)..], script, k) == RunBatches(old(Now()), file, id, todo, script, 0)
        decreases |todo| - i
      {
        if isPaused {
          break;
        }
        var next := Min(i + MAX_CONCURRENCY, |todo|);
        NextBatchOfRun(Now(), file, id, todo, script, i, k);
        end := SendBatch(file, id, todo[i..next], script(k));
        if end.Threw? {
          return;
        }
        i, k := i + MAX_CONCURRENCY, k + 1;
      }
      end := Finished;
    }

    /** What follows `UploadParts` in both callers, including their catch blocks. */
    method FinishRun(end: RunEnd, file: Bytes, id: nat, env: FinishEnv)
      modifies this
      ensures Now() == Finish(old(Now()), end, file, id, env)
    {
      if end.Finished? {
        if isPaused || uploadId.None? {
          return;
        }
        var call := CompleteCall(id, uploadedParts, |file|, file);
        progress := 100;
        cloud := cloud.(completes := cloud.completes + [call]);
        Await(env.before);
        var assembled := None;
        if env.lands {
          assembled := LandComplete(call);
        }
        Await(env.after);
        if env.answered && assembled.Some? {
          status := Success;
        } else if !isPaused {
          status := Error;
        }
      } else if !end.isCancel && !isPaused {
        status := Error;
      }
    }

    method Start(file: Bytes, init: StartEnv, script: nat -> BatchEnv, fin: FinishEnv)
      modifies this
      ensures Now() == StartUpload(old(Now()), file, init, script, fin)
    {
      ResetState();
      status, this.file, isPaused := Uploading, Some(file), false;
      assert Now() == Reset(old(Now())).(status := Uploading, file := Some(file));
      Await(init.duringInitiate);
      ghost var s0 := Now();
      if !init.initiated {
        if !isPaused {
          status := Error;
        }
        return;
      }
      var id := cloud.nextId;
      cloud := cloud.(files := cloud.files[id := file], nextId := id + 1);
      uploadId := Some(id);
      assert Now() == Initiated(s0, file);
      UploadAll(file, id, script, fin);
    }

    /** The part of `startUpload` that follows the answer to the initiate call. */
    method UploadAll(file: Bytes, id: nat, script: nat -> BatchEnv, fin: FinishEnv)
      modifies this
      ensures Now() == RunFromStart(old(Now()), file, id, script, fin)
    {
      var end := UploadParts(file, id, Numbers(1, TotalParts(|file|)), script);
      if end.Finished? && !isPaused && uploadId.Some? {
        status := Uploading;
      }
      FinishRun(end, file, id, fin);
    }

    method Resume(script: nat -> BatchEnv, fin: FinishEnv)
      modifies this
      ensures Now() == ResumeUpload(old(Now()), script, fin)
    {
      if status != Paused || file.None? || uploadId.None? {
        return;
      }
      status, isPaused := Uploading, false;
      var f, id := file.value, uploadId.value;
      var todo := Missing(Numbers(1, TotalParts(|f|)), uploadedParts);
      var end := UploadParts(f, id, todo, script);
      FinishRun(end, f, if uploadId.Some? then uploadId.value else id, fin);
    }
  }
}
