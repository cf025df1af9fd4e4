/**
 The pipeline and the sequential migration agree: on every migration whose directory operations
 work, each finished run of the pipeline leaves what MigratePod leaves, and every run of MigratePod,
 followed by the cleanup, is a run of the pipeline.
 */
module Schedule {
  import opened FanOut
  import opened Storage
  import opened Model
  import opened Upload
  import opened Sentinel
  import opened Pipeline
  import opened PipelineTheorems
  import opened Sequential
  import Termination

  /** Both programs on the same inputs with the same outcomes: only the directory operations have to
      work; checkpoints, uploads, the sentinel and the deletion may fail in any way. */
  lemma PipelineAgreesWithMigratePod(cfg: Config, files: seq<string>, run: seq<Sys>, ms: seq<Move>)
    requires Uploads(cfg) && DistinctSnapshots(cfg) && ReadsDir(cfg, cfg.src0, files)
    requires Run(cfg, run, ms) && AllDone(cfg, run[|ms|])
    ensures run[|ms|].st.dest == MigratedDest(cfg, cfg.src0, cfg.dest0, files)
    ensures run[|ms|].podGone == MigratedPodGone(cfg, false)
    ensures !cfg.cleanOk ==> run[|ms|].st.src == MigratedSource(cfg, cfg.src0)
  {
    FinishedRun(cfg, run, ms, files);
  }

  /* ----- one upload after the other is a run of the uploader ----- */

  predicate AtPhase(s: UpState, k: nat, p: Phase) {
    s.u.pc == Uploading && k < |s.u.files| == |s.u.fan.ws| && s.u.fan.ws[k] == p
  }

  /** The end of worker `k`'s attempt, as the rest of the schedule sees it. */
  ghost predicate Attempted(s: UpState, s': UpState, k: nat)
    requires k < |s.u.files| && k < |s.u.fan.ws|
  {
    && s'.u == s.u.(fan := s.u.fan.(ws := s.u.fan.ws[k := Leaving]))
    && s'.st.src == s.st.src
    && s'.st.trace == s.st.trace + [Uploaded(s.u.files[k])]
  }

  lemma AttemptOpened(cfg: Config, run: seq<UpState>, ms: seq<UpMove>, k: nat)
    returns (run': seq<UpState>, ms': seq<UpMove>)
    requires UpRun(cfg, run, ms) && AtPhase(run[|ms|], k, Opened)
    ensures UpRun(cfg, run', ms') && run'[0] == run[0] && Attempted(run[|ms|], run'[|ms'|], k)
  {
    run', ms' := Extend(cfg, run, ms, Worker(Work(k)));
  }

  lemma AttemptUnderway(cfg: Config, run: seq<UpState>, ms: seq<UpMove>, k: nat)
    returns (run': seq<UpState>, ms': seq<UpMove>)
    requires UpRun(cfg, run, ms) && AtPhase(run[|ms|], k, Underway)
    ensures UpRun(cfg, run', ms') && run'[0] == run[0] && Attempted(run[|ms|], run'[|ms'|], k)
  {
    var ws := run[|ms|].u.fan.ws;
    run', ms' := Extend(cfg, run, ms, Worker(Work(k)));
    if run'[|ms'|].u.fan.ws[k].Opened? {
      run', ms' := AttemptOpened(cfg, run', ms', k);
      assert ws[k := Opened][k := Leaving] == ws[k := Leaving];
    }
  }

  /** The effects of worker `k` up to the end of its attempt. */
  lemma AttemptUpload(cfg: Config, run: seq<UpState>, ms: seq<UpMove>, k: nat)
    returns (run': seq<UpState>, ms': seq<UpMove>)
    requires UpRun(cfg, run, ms) && AtPhase(run[|ms|], k, Begun)
    ensures UpRun(cfg, run', ms') && run'[0] == run[0] && Attempted(run[|ms|], run'[|ms'|], k)
  {
    var ws := run[|ms|].u.fan.ws;
    run', ms' := Extend(cfg, run, ms, Worker(Work(k)));
    if run'[|ms'|].u.fan.ws[k].Underway? {
      run', ms' := AttemptUnderway(cfg, run', ms', k);
      assert ws[k := Underway][k := Leaving] == ws[k := Leaving];
    }
  }

  /** One upload from start to end. */
  lemma UploadNext(cfg: Config, run: seq<UpState>, ms: seq<UpMove>, k: nat)
    returns (run': seq<UpState>, ms': seq<UpMove>)
    requires UpRun(cfg, run, ms)
    requires var u := run[|ms|].u; k < |u.files| && u.pc == Uploading && u.fan == OneByOne(|u.files|, k)
    ensures UpRun(cfg, run', ms') && run'[0] == run[0]
    ensures var s, s' := run[|ms|], run'[|ms'|];
            && s'.u == s.u.(fan := OneByOne(|s.u.files|, k + 1))
            && s'.st.trace == s.st.trace + [Uploaded(s.u.files[k])]
  {
    var ws := run[|ms|].u.fan.ws;
    OneByOneNext(|ws|, k);
    run', ms' := Extend(cfg, run, ms, Worker(Add));
    run', ms' := Extend(cfg, run', ms', Worker(Go));
    run', ms' := AttemptUpload(cfg, run', ms', k);
    run', ms' := Extend(cfg, run', ms', Worker(Work(k)));
    assert run'[|ms'|].u.fan.ws == ws[k := Finished];
  }

  lemma {:induction false} UploadInOrder(cfg: Config, s: UpState, k: nat)
    returns (run: seq<UpState>, ms: seq<UpMove>)
    requires UpInitial(s) && k <= |s.u.files|
    ensures UpRun(cfg, run, ms) && run[0] == s
    ensures run[|ms|].u == s.u.(fan := OneByOne(|s.u.files|, k))
    ensures run[|ms|].st.trace == UploadTrace(s.u.files[..k])
  {
    var files := s.u.files;
    if k == 0 {
      run, ms := [s], [];
      assert Start(|files|) == OneByOne(|files|, 0);
    } else {
      run, ms := UploadInOrder(cfg, s, k - 1);
      run, ms := UploadNext(cfg, run, ms, k - 1);
      assert files[..k][..k - 1] == files[..k - 1];
    }
  }

  lemma PostLast(cfg: Config, run: seq<UpState>, ms: seq<UpMove>) returns (run': seq<UpState>, ms': seq<UpMove>)
    requires UpRun(cfg, run, ms) && run[|ms|].u.pc == Touching && |run[|ms|].u.fan.ws| == |run[|ms|].u.files|
    ensures UpRun(cfg, run', ms') && run'[0] == run[0] && run'[|ms'|].u.pc == Returned
    ensures run'[|ms'|].st.trace == run[|ms|].st.trace + [SentinelPosted]
  {
    run', ms' := Extend(cfg, run, ms, Touch);
    run', ms' := Extend(cfg, run', ms', PostSentinel);
    if run'[|ms'|].u.pc == Filling {
      run', ms' := Extend(cfg, run', ms', FillSentinel);
    }
  }

  /** The order of MigrateCheckpoint's loop, followed by the sentinel, is one that the parallel
      uploader can take. */
  lemma LoopOrderIsARun(cfg: Config, s: UpState) returns (run: seq<UpState>, ms: seq<UpMove>)
    requires UpInitial(s)
    ensures UpRun(cfg, run, ms) && run[0] == s && run[|ms|].u.pc == Returned
    ensures run[|ms|].st.trace == UploadTrace(s.u.files) + [SentinelPosted]
  {
    run, ms := UploadInOrder(cfg, s, |s.u.files|);
    assert s.u.files[..|s.u.files|] == s.u.files;
    run, ms := Extend(cfg, run, ms, Worker(Wait));
    run, ms := Extend(cfg, run, ms, Worker(Join));
    run, ms := PostLast(cfg, run, ms);
  }

  /* ----- the runs of MigratePod are runs of the pipeline ----- */

  lemma Then(cfg: Config, run: seq<Sys>, ms: seq<Move>, m: Move) returns (run': seq<Sys>, ms': seq<Move>)
    requires Run(cfg, run, ms) && Enabled(cfg, run[|ms|], m)
    ensures Run(cfg, run', ms') && run'[|ms'|] == Next(cfg, run[|ms|], m)
  {
    run', ms' := run + [Next(cfg, run[|ms|], m)], ms + [m];
  }

  /** The fan-out after its first `k` workers have been started and have ended one by one. */
  function OneByOne(n: nat, k: nat): Fan {
    Fan(k, false, false, false, 0, seq(n, i => if i < k then Finished else Idle))
  }

  lemma OneByOneNext(n: nat, k: nat)
    requires k < n
    ensures var f := OneByOne(n, k);
            f.(next := k + 1, ws := f.ws[k := Finished]) == OneByOne(n, k + 1)
  {
    var f := OneByOne(n, k);
    assert f.ws[k := Finished] == OneByOne(n, k + 1).ws;
  }

  lemma StartCheckpoint(cfg: Config, run: seq<Sys>, ms: seq<Move>, k: nat) returns (run': seq<Sys>, ms': seq<Move>)
    requires Run(cfg, run, ms) && run[|ms|].stage1 == Capturing
    requires k < |cfg.containers| && run[|ms|].capture == OneByOne(|cfg.containers|, k)
    ensures Run(cfg, run', ms')
    ensures var s := run[|ms|];
            run'[|ms'|] == s.(capture := Fan(k + 1, false, false, false, 1, s.capture.ws[k := Begun]))
  {
    run', ms' := Then(cfg, run, ms, Checkpoint(Add));
    run', ms' := Then(cfg, run', ms', Checkpoint(Go));
  }

  /** One checkpoint from start to end. */
  lemma CheckpointNext(cfg: Config, run: seq<Sys>, ms: seq<Move>, k: nat) returns (run': seq<Sys>, ms': seq<Move>)
    requires Run(cfg, run, ms) && run[|ms|].stage1 == Capturing
    requires k < |cfg.containers| && run[|ms|].capture == OneByOne(|cfg.containers|, k)
    ensures Run(cfg, run', ms')
    ensures var s := run[|ms|];
            run'[|ms'|] == s.(capture := OneByOne(|cfg.containers|, k + 1),
                              st := s.st.(src := Answer(cfg, s.st.src, k),
                                          trace := s.st.trace + [Issued(k)] + [Answered(k)]))
  {
    var ws := run[|ms|].capture.ws;
    OneByOneNext(|ws|, k);
    run', ms' := StartCheckpoint(cfg, run, ms, k);
    run', ms' := Then(cfg, run', ms', Checkpoint(Work(k)));
    run', ms' := Then(cfg, run', ms', Checkpoint(Work(k)));
    run', ms' := Then(cfg, run', ms', Checkpoint(Work(k)));
    assert run'[|ms'|].capture.ws == ws[k := Finished];
  }

  /** Clear, create the directory, checkpoint the first `k` containers one after the other. */
  lemma {:induction false} CheckpointInOrder(cfg: Config, k: nat) returns (run: seq<Sys>, ms: seq<Move>)
    requires cfg.removeOk && cfg.mkdirOk && k <= |cfg.containers|
    ensures Run(cfg, run, ms)
    ensures run[|ms|] == Init(cfg).(
              stage1 := Capturing, capture := OneByOne(|cfg.containers|, k),
              st := Store(CaptureAll(cfg, map[], k), cfg.dest0, [], [], [Cleared, DirMade] + CaptureTrace(k)))
  {
    if k == 0 {
      run, ms := Then(cfg, [Init(cfg)], [], Clear);
      run, ms := Then(cfg, run, ms, MakeDir);
      assert Start(|cfg.containers|) == OneByOne(|cfg.containers|, 0);
    } else {
      run, ms := CheckpointInOrder(cfg, k - 1);
      run, ms := CheckpointNext(cfg, run, ms, k - 1);
      assert [Cleared, DirMade] + CaptureTrace(k) ==
             [Cleared, DirMade] + CaptureTrace(k - 1) + [Issued(k - 1)] + [Answered(k - 1)];
    }
  }

  /** What the stage-2 part of the schedule relies on. */
  predicate AtStage2(cfg: Config, s: Sys) {
    && s.main == Draining && s.stage1 == Ended && s.closer == Joining
    && s.wg == 1 && s.closes1 == 1 && s.closes2 == 0 && s.capture.joined
  }

  /** ... join them and hand the path over. */
  lemma HandOver(cfg: Config) returns (run: seq<Sys>, ms: seq<Move>)
    requires PathSent(cfg)
    ensures Run(cfg, run, ms)
    ensures var s := run[|ms|];
            && s.main == Adding && s.stage1 == Closing && s.stage2 == Absent && s.closer == Unborn
            && s.wg == 0 && s.closes1 == 0 && s.closes2 == 0 && s.capture.joined
            && s.st == Store(Snapshots(cfg), cfg.dest0, [], [], CapturePart(cfg))
  {
    run, ms := JoinCheckpoints(cfg);
    run, ms := Then(cfg, run, ms, Chown);
    run, ms := Then(cfg, run, ms, HandPath);
  }

  lemma JoinCheckpoints(cfg: Config) returns (run: seq<Sys>, ms: seq<Move>)
    requires cfg.removeOk && cfg.mkdirOk
    ensures Run(cfg, run, ms)
    ensures var s := run[|ms|];
            && s == Init(cfg).(stage1 := Chowning, capture := s.capture, st := s.st) && s.capture.joined
            && s.st == Store(Snapshots(cfg), cfg.dest0, [], [], [Cleared, DirMade] + CaptureTrace(|cfg.containers|))
  {
    run, ms := CheckpointInOrder(cfg, |cfg.containers|);
    run, ms := Then(cfg, run, ms, Checkpoint(Wait));
    run, ms := Then(cfg, run, ms, Checkpoint(Join));
  }

  /** ... then delete the pod before stage 2 does anything. */
  lemma DeleteFirst(cfg: Config) returns (run: seq<Sys>, ms: seq<Move>)
    requires PathSent(cfg) && !cfg.terminateErr
    ensures Run(cfg, run, ms) && AtStage2(cfg, run[|ms|]) && run[|ms|].stage2 == Listing
    ensures run[|ms|].st == Store(Snapshots(cfg), cfg.dest0, [], [], CapturePart(cfg) + [Deleted])
  {
    run, ms := HandOver(cfg);
    run, ms := Then(cfg, run, ms, AddWorker);
    run, ms := Then(cfg, run, ms, StartWorker);
    run, ms := Then(cfg, run, ms, CloseCheckpoints);
    run, ms := Then(cfg, run, ms, EndRange);
    run, ms := Then(cfg, run, ms, StartCloser);
    run, ms := Then(cfg, run, ms, DeletePod);
    run, ms := Then(cfg, run, ms, AwaitDeletion);
  }

  lemma ListFirst(cfg: Config, files: seq<string>) returns (run: seq<Sys>, ms: seq<Move>)
    requires Uploads(cfg) && !cfg.terminateErr && IsListing(files, Snapshots(cfg).Keys)
    ensures Run(cfg, run, ms) && run[|ms|].stage2 == Moving && AtStage2(cfg, run[|ms|])
    ensures run[|ms|].up == Begin(files, Snapshots(cfg))
    ensures run[|ms|].st == Store(Snapshots(cfg), cfg.dest0, [], [], CapturePart(cfg) + [Deleted])
  {
    run, ms := DeleteFirst(cfg);
    run, ms := Then(cfg, run, ms, ListDir(files));
  }

  /** The store of an uploader whose caller has already logged `past`. */
  function Resumed(st: Store, past: seq<Effect>): Store {
    st.(trace := past + st.trace)
  }

  /** The uploader neither reads nor rewrites what was logged before. */
  lemma ResumedStep(cfg: Config, s: UpState, past: seq<Effect>, m: UpMove)
    requires UpEnabled(cfg, s.u, s.st, m)
    ensures UpEnabled(cfg, s.u, Resumed(s.st, past), m)
    ensures UploaderNext(cfg, s.u, Resumed(s.st, past), m) == UpNext(cfg, s, m).u
    ensures StoreNext(cfg, s.u, Resumed(s.st, past), m) == Resumed(UpNext(cfg, s, m).st, past)
  {
    var t, t' := s.st.trace, UpNext(cfg, s, m).st.trace;
    if t' != t {
      var e := t'[|t|];
      assert past + t + [e] == past + (t + [e]);
    }
  }

  /** The pipeline at `s` with its upload where the uploader's run is. */
  ghost predicate Follows(s: Sys, s': Sys, u: UpState, past: seq<Effect>) {
    s' == s.(up := u.u, st := Resumed(u.st, past), stage2 := if u.u.pc == Returned then Handing else Moving)
  }

  /** One step of the uploader is a step of the pipeline. */
  lemma FollowStep(cfg: Config, s: Sys, s': Sys, u: UpState, past: seq<Effect>, m: UpMove) returns (pm: Move)
    requires Follows(s, s', u, past) && UpEnabled(cfg, u.u, u.st, m)
    ensures Enabled(cfg, s', pm) && Follows(s, Next(cfg, s', pm), UpNext(cfg, u, m), past)
  {
    ResumedStep(cfg, u, past, m);
    pm := if m.Watch? then Observed else Transfer(m);
  }

  /** Stage 2 can follow any run of the uploader. */
  lemma {:induction false} FollowUpload(cfg: Config, run: seq<Sys>, ms: seq<Move>, past: seq<Effect>,
                                        upRun: seq<UpState>, upMs: seq<UpMove>, k: nat)
    returns (run': seq<Sys>, ms': seq<Move>)
    requires Run(cfg, run, ms) && UpRun(cfg, upRun, upMs) && k < |upRun|
    requires Follows(run[|ms|], run[|ms|], upRun[0], past)
    ensures Run(cfg, run', ms') && Follows(run[|ms|], run'[|ms'|], upRun[k], past)
  {
    if k == 0 {
      run', ms' := run, ms;
    } else {
      run', ms' := FollowUpload(cfg, run, ms, past, upRun, upMs, k - 1);
      var pm := FollowStep(cfg, run[|ms|], run'[|ms'|], upRun[k - 1], past, upMs[k - 1]);
      run', ms' := Then(cfg, run', ms', pm);
    }
  }

  /* ----- when the pipeline is safe ----- */

  /** A restore has started although some upload is not over. */
  predicate TooEarly(s: Sys) {
    s.st.restores != [] && exists i :: 0 <= i < |s.up.fan.ws| && !s.up.fan.ws[i].Over()
  }

  /** Stage 2 can list the directory before the pod is deleted. */
  lemma ListAtOnce(cfg: Config, files: seq<string>) returns (run: seq<Sys>, ms: seq<Move>)
    requires Uploads(cfg) && IsListing(files, Snapshots(cfg).Keys)
    ensures Run(cfg, run, ms) && run[|ms|].stage2 == Moving && run[|ms|].up == Begin(files, Snapshots(cfg))
    ensures run[|ms|].st == Store(Snapshots(cfg), cfg.dest0, [], [], CapturePart(cfg))
  {
    run, ms := HandOver(cfg);
    run, ms := Then(cfg, run, ms, AddWorker);
    run, ms := Then(cfg, run, ms, StartWorker);
    run, ms := Then(cfg, run, ms, ListDir(files));
  }

  lemma AlarmInPipeline(cfg: Config, i: nat) returns (run: seq<Sys>, ms: seq<Move>)
    requires Uploads(cfg) && i < |cfg.containers| && cfg.snap(i).Some?
    requires Alarms(cfg, cfg.snap(i).value.name, cfg.dest0)
    ensures Run(cfg, run, ms) && TooEarly(run[|ms|])
  {
    var src, n := Snapshots(cfg), cfg.snap(i).value.name;
    var files := ListingExists(src.Keys);
    SortedDistinct(files);
    CaptureAllHolds(cfg, |cfg.containers|);
    assert i in Everyone(cfg);
    assert n in src && n in files;
    var x: nat :| x < |files| && files[x] == n;
    var upRun, upMs := AlarmIsUnsafe(cfg, UpState(Begin(files, src), Store(src, cfg.dest0, [], [], [])), x);
    run, ms := ListAtOnce(cfg, files);
    assert CapturePart(cfg) + [] == CapturePart(cfg);
    run, ms := FollowUpload(cfg, run, ms, CapturePart(cfg), upRun, upMs, |upMs|);
  }

  /** In no run of the pipeline a restore starts too early, exactly if stage 2 never uploads or no
      snapshot's creation is taken for the sentinel's. */
  lemma PipelineSafeExactly(cfg: Config)
    ensures (!Uploads(cfg) || NoAlarms(cfg)) <==>
            forall run, ms, k :: Run(cfg, run, ms) && 0 <= k < |run| ==> !TooEarly(run[k])
  {
    if !Uploads(cfg) || NoAlarms(cfg) {
      forall run, ms, k | Run(cfg, run, ms) && 0 <= k < |run| ensures !TooEarly(run[k]) {
        NeverTooEarly(cfg, run, ms, k);
      }
    } else {
      var i: nat :| i < |cfg.containers| && cfg.snap(i).Some? && Alarms(cfg, cfg.snap(i).value.name, cfg.dest0);
      var run, ms := AlarmInPipeline(cfg, i);
      assert Run(cfg, run, ms) && 0 <= |ms| < |run| && TooEarly(run[|ms|]);
    }
  }

  /* ----- the end of the schedule ----- */

  /** Hand the path on, clean up and let every goroutine end. */
  lemma FinishLast(cfg: Config, run: seq<Sys>, ms: seq<Move>) returns (run': seq<Sys>, ms': seq<Move>)
    requires Run(cfg, run, ms) && AtStage2(cfg, run[|ms|]) && run[|ms|].stage2 == Handing && run[|ms|].up.fan.joined
    ensures Run(cfg, run', ms') && AllDone(cfg, run'[|ms'|])
    ensures run'[|ms'|].st.trace == run[|ms|].st.trace + [Cleaned]
  {
    run', ms' := Then(cfg, run, ms, HandResult);
    run', ms' := Then(cfg, run', ms', Clean);
    run', ms' := Then(cfg, run', ms', Leave);
    run', ms' := Then(cfg, run', ms', WaitWorkers);
    run', ms' := Then(cfg, run', ms', CloseResults);
    run', ms' := Then(cfg, run', ms', EndDrain);
  }

  /** Every run of MigratePod is a schedule of the pipeline: whatever its uploader does, its effects
      in its order, followed by the cleanup, are those of a finished run. */
  lemma MigratePodIsASchedule(cfg: Config, files: seq<string>, upRun: seq<UpState>, upMs: seq<UpMove>,
                              getOk: bool, events: seq<Termination.WatchEvent>)
    returns (run: seq<Sys>, ms: seq<Move>)
    requires Uploads(cfg) && TerminatesAsCoded(cfg, getOk, events) && ReadsDir(cfg, cfg.src0, files)
    requires UploaderRun(cfg, Taken(cfg, cfg.src0), cfg.dest0, files, upRun, upMs)
    ensures Run(cfg, run, ms) && AllDone(cfg, run[|ms|])
    ensures run[|ms|].st.trace == MigratedTrace(cfg, upRun[|upMs|].st.trace) + [Cleaned]
  {
    var past := CapturePart(cfg) + [Deleted];
    SortedDistinct(files);
    UpRunInv(cfg, upRun, upMs, |upMs|);
    run, ms := ListFirst(cfg, files);
    assert past + [] == past;
    run, ms := FollowUpload(cfg, run, ms, past, upRun, upMs, |upMs|);
    run, ms := FinishLast(cfg, run, ms);
  }

  /** In particular the effects one after the other, in list order. */
  lemma SequentialOrderIsASchedule(cfg: Config, files: seq<string>,
                                   getOk: bool, events: seq<Termination.WatchEvent>)
    returns (run: seq<Sys>, ms: seq<Move>)
    requires Uploads(cfg) && TerminatesAsCoded(cfg, getOk, events) && ReadsDir(cfg, cfg.src0, files)
    ensures Run(cfg, run, ms) && AllDone(cfg, run[|ms|])
    ensures run[|ms|].st.trace == MigratedTrace(cfg, UploadTrace(files) + [SentinelPosted]) + [Cleaned]
  {
    var src := Taken(cfg, cfg.src0);
    SortedDistinct(files);
    var upRun, upMs := LoopOrderIsARun(cfg, UpState(Begin(files, src), Store(src, cfg.dest0, [], [], [])));
    run, ms := MigratePodIsASchedule(cfg, files, upRun, upMs, getOk, events);
  }
}
