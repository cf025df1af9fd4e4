/** What holds of every run of the migration pipeline. */
module PipelineTheorems {
  import opened FanOut
  import opened Storage
  import opened Model
  import opened Text
  import opened Capture
  import opened Upload
  import opened Sentinel
  import opened Pipeline
  import opened PipelineInv
  import Termination

  /* ----- channels and WaitGroups ----- */

  /** In every state of every run no goroutine is about to panic; each channel is closed at most
      once; each WaitGroup counts the workers that were added and are not done; and once a Wait has
      begun, nothing is added any more. */
  lemma ChannelsAndWaitGroupsAreSafe(cfg: Config, run: seq<Sys>, ms: seq<Move>, k: nat)
    requires Run(cfg, run, ms) && k < |run|
    ensures var s := run[k];
            && !PanicsNext(s)
            && s.closes1 <= 1 && s.closes2 <= 1
            && s.wg == (if s.main == Starting then 1 else 0) + (if s.stage2 in {Absent, Gone} then 0 else 1)
            && s.capture.wg == Total(s.capture.ws, Busy) + (if s.capture.added then 1 else 0)
            && s.up.fan.wg == Total(s.up.fan.ws, Busy) + (if s.up.fan.added then 1 else 0)
            && (s.closer != Unborn ==> !Enabled(cfg, s, AddWorker) && !Enabled(cfg, s, StartWorker))
            && (s.capture.waiting ==> !FanEnabled(s.capture, Add) && !FanEnabled(s.capture, Go))
            && (s.up.fan.waiting ==> !FanEnabled(s.up.fan, Add) && !FanEnabled(s.up.fan, Go))
  {
    RunInv(cfg, run, ms, k);
    var s := run[k];
    NoNegativeCounter(s.capture);
    StartInv(0);
    assert FanInv(s.up.fan);
    NoNegativeCounter(s.up.fan);
  }

  /* ----- order of effects ----- */

  /** The pod is deleted at most once, and at that moment no checkpoint request is outstanding and
      none will be issued, however stage 1 ended. */
  lemma DeleteNeverOvertakesCheckpoint(cfg: Config, run: seq<Sys>, ms: seq<Move>, k: nat)
    requires Run(cfg, run, ms) && k < |run|
    ensures DeleteLast(run[k].st.trace) && Times(run[k].st.trace, Deleted) <= 1
    ensures Deleted in run[k].st.trace ==>
              && (forall i :: 0 <= i < |run[k].capture.ws| ==> !run[k].capture.ws[i].Active())
              && (forall m :: !Enabled(cfg, run[k], Checkpoint(m)))
  {
    RunInv(cfg, run, ms, k);
    TimesIn(run[k].st.trace, Deleted);
  }

  /** The removal of the source directory happens at most once, and only after all uploads and the
      sentinel's have been attempted; so every upload finds its file in place. */
  lemma CleanupNeverRacesUpload(cfg: Config, run: seq<Sys>, ms: seq<Move>, k: nat)
    requires Run(cfg, run, ms) && k < |run|
    ensures CleanLast(run[k].st.trace, run[k].up.files) && Times(run[k].st.trace, Cleaned) <= 1
    ensures run[k].stage2 == Moving && run[k].up.pc in {Uploading, Touching} ==> run[k].st.src == run[k].up.listed
    ensures run[k].stage2 == Moving && run[k].up.pc in {Posting, Filling} ==>
              run[k].st.src == Touched(cfg, run[k].up.listed)
  {
    RunInv(cfg, run, ms, k);
  }

  /* ----- the sentinel, in the whole pipeline ----- */

  /** No snapshot is named like the sentinel. */
  ghost predicate QuietSnapshots(cfg: Config) {
    forall i: nat :: i < |cfg.containers| && cfg.snap(i).Some? ==> !Contains(cfg.snap(i).value.name, SENTINEL)
  }

  /** No snapshot's upload is taken for the sentinel's; in particular if none is named like it. */
  ghost predicate NoAlarms(cfg: Config) {
    forall i: nat :: i < |cfg.containers| && cfg.snap(i).Some? ==> !Alarms(cfg, cfg.snap(i).value.name, cfg.dest0)
  }

  lemma QuietListing(cfg: Config, s: Sys)
    requires Moved(cfg, s) && NoAlarms(cfg)
    ensures Quiet(cfg, s.up.files, cfg.dest0)
  {
    forall k | 0 <= k < |s.up.files| ensures !Alarms(cfg, s.up.files[k], cfg.dest0) {
      var n := s.up.files[k];
      var i: nat :| i in Everyone(cfg) && i < |cfg.containers| && cfg.snap(i) == Some(Snapshot(n, s.up.listed[n]));
    }
  }

  /** Sentinel safety for the pipeline: in every interleaving a restore starts only when every
      upload is over, and it finds, whole, every snapshot whose upload did not fail. */
  lemma RestoreFindsEverySnapshot(cfg: Config, run: seq<Sys>, ms: seq<Move>, k: nat)
    requires Run(cfg, run, ms) && k < |run|
    requires NoAlarms(cfg) && DistinctSnapshots(cfg)
    ensures |run[k].st.restores| <= 1
    ensures run[k].st.restores != [] ==>
              run[k].up.fan.joined && forall j :: 0 <= j < |run[k].up.fan.ws| ==> run[k].up.fan.ws[j].Finished?
    ensures forall r, i: nat ::
              (r in run[k].st.restores && i < |cfg.containers| && cfg.snap(i).Some? &&
               cfg.snap(i).value.name != SENTINEL && cfg.upload(cfg.snap(i).value.name).Stores?) ==>
              Get(r, cfg.snap(i).value.name) == Some(Whole(cfg.snap(i).value.content))
  {
    RunInv(cfg, run, ms, k);
    var s := run[k];
    if s.st.restores != [] {
      assert Started(cfg, s);
      QuietListing(cfg, s);
      RestoreIsLate(cfg, s);
      forall r, i: nat | r in s.st.restores && i < |cfg.containers| && cfg.snap(i).Some?
                         && cfg.snap(i).value.name != SENTINEL && cfg.upload(cfg.snap(i).value.name).Stores?
        ensures Get(r, cfg.snap(i).value.name) == Some(Whole(cfg.snap(i).value.content))
      {
        var j :| 0 <= j < |s.st.restores| && s.st.restores[j] == r;
        FoundSnapshot(cfg, s, j, i);
      }
    }
  }

  /** Without uploads, or without alarms, no restore starts before all uploads are over. */
  lemma NeverTooEarly(cfg: Config, run: seq<Sys>, ms: seq<Move>, k: nat)
    requires Run(cfg, run, ms) && k < |run| && (!Uploads(cfg) || NoAlarms(cfg))
    ensures run[k].st.restores != [] ==> forall i :: 0 <= i < |run[k].up.fan.ws| ==> run[k].up.fan.ws[i].Over()
  {
    RunInv(cfg, run, ms, k);
    if run[k].st.restores != [] {
      StartedUploads(cfg, run[k]);
      QuietListing(cfg, run[k]);
      RestoreIsLate(cfg, run[k]);
    }
  }

  lemma StartedUploads(cfg: Config, s: Sys)
    requires Control(s) && Branches(cfg, s) && Transferred(cfg, s) && s.st.restores != []
    ensures Uploads(cfg) && Moved(cfg, s)
  {
  }

  lemma RestoreIsLate(cfg: Config, s: Sys)
    requires Moved(cfg, s) && SignalInv(cfg, s.up, s.st, cfg.dest0) && s.st.restores != []
    ensures |s.st.restores| == 1
    ensures s.up.fan.joined && forall j :: 0 <= j < |s.up.fan.ws| ==> s.up.fan.ws[j].Finished?
  {
  }

  lemma FoundSnapshot(cfg: Config, s: Sys, j: nat, i: nat)
    requires Moved(cfg, s) && DistinctSnapshots(cfg)
    requires j < |s.st.restores| && SignalInv(cfg, s.up, s.st, cfg.dest0)
    requires i < |cfg.containers| && cfg.snap(i).Some? && cfg.snap(i).value.name != SENTINEL
    requires cfg.upload(cfg.snap(i).value.name).Stores?
    ensures Get(s.st.restores[j], cfg.snap(i).value.name) == Some(Whole(cfg.snap(i).value.content))
  {
    TakenSnapshot(cfg, s.up.listed, i);
    assert FindsUploads(cfg, s.up, cfg.dest0, s.st.restores[j]);
    FoundFile(cfg, s.up, cfg.dest0, s.st.restores[j], cfg.snap(i).value.name);
  }

  lemma FoundFile(cfg: Config, u: Uploader, dest0: DestDir, found: DestDir, n: string)
    requires IsListing(u.files, u.listed.Keys) && n in u.listed && n != SENTINEL && cfg.upload(n).Stores?
    requires FindsUploads(cfg, u, dest0, found)
    ensures Get(found, n) == Some(Whole(u.listed[n]))
  {
    SortedDistinct(u.files);
    UploadAllAt(dest0, u.listed, u.files, cfg.upload);
    assert n in u.files;
    var x: nat :| x < |u.files| && u.files[x] == n;
  }

  /* ----- termination ----- */

  function MainWeight(pc: MainPc): nat {
    match pc
    case Ranging => 10 case Adding => 12 case Starting => 11 case Spawning => 9 case Deleting => 8
    case Awaiting => 7 case Draining => 2 case Cleaning => 3 case Exited => 0
  }

  function Stage1Weight(pc: Stage1Pc): nat {
    match pc
    case Clearing => 10 case Making => 9 case Capturing => 8 case Chowning => 7 case Offering => 6
    case Closing => 1 case Ended => 0
  }

  function Stage2Weight(cfg: Config, s: Sys): nat {
    match s.stage2
    case Absent => 7 * |cfg.containers| + 18
    case Listing => 7 * |cfg.containers| + 16
    case Moving => UpMeasure(s.up, s.st.(events := [])) + 6
    case Handing => 5
    case Exiting => 1
    case Gone => 0
  }

  function CloserWeight(pc: CloserPc): nat {
    match pc case Unborn => 3 case Joining => 2 case Shutting => 1 case Shut => 0
  }

  /** Decreases with every step of any goroutine. */
  function SysMeasure(cfg: Config, s: Sys): nat {
    MainWeight(s.main) + Stage1Weight(s.stage1) + Measure(s.capture) + Stage2Weight(cfg, s) + CloserWeight(s.closer)
    + |s.st.events|
  }

  lemma CaptureDecreases(f: Fan, fm: FanMove)
    requires FanInv(f) && FanEnabled(f, fm) && forall i :: 0 <= i < |f.ws| ==> !f.ws[i].Opened?
    ensures Measure(CaptureFan(f, fm)) < Measure(f)
  {
    if fm.Work? {
      AdvanceInv(f, fm.i, CaptureFan(f, fm).ws[fm.i]);
    } else {
      SpawnInv(f, fm);
    }
  }

  lemma CheckpointDecreases(cfg: Config, s: Sys, m: Move)
    requires m.Checkpoint? && FanInv(s.capture) && Enabled(cfg, s, m)
    ensures SysMeasure(cfg, Next(cfg, s, m)) < SysMeasure(cfg, s)
  {
    CaptureDecreases(s.capture, m.m);
  }

  lemma ListDecreases(cfg: Config, s: Sys, m: Move)
    requires m.ListDir? && Inv(cfg, s) && Enabled(cfg, s, m)
    ensures SysMeasure(cfg, Next(cfg, s, m)) < SysMeasure(cfg, s)
  {
    if cfg.readDirOk {
      ListingSize(m.files, s.st.src.Keys);
      SnapshotCount(cfg, s.st.src, OverSet(s.capture.ws));
      StartInv(|m.files|);
    }
  }

  lemma TransferDecreases(cfg: Config, s: Sys, m: Move)
    requires m.Transfer? && Inv(cfg, s) && Enabled(cfg, s, m)
    ensures SysMeasure(cfg, Next(cfg, s, m)) < SysMeasure(cfg, s)
  {
    UpStepShape(cfg, s.up, s.st, m.um);
  }

  lemma EarlyDecrease(cfg: Config, s: Sys, m: Move)
    requires Control(s) && Enabled(cfg, s, m) && EarlyMove(m) && !m.Checkpoint?
    ensures SysMeasure(cfg, Next(cfg, s, m)) < SysMeasure(cfg, s)
  {
  }

  lemma LateDecrease(cfg: Config, s: Sys, m: Move)
    requires Control(s) && Enabled(cfg, s, m) && !EarlyMove(m) && !m.ListDir? && !m.Transfer?
    ensures SysMeasure(cfg, Next(cfg, s, m)) < SysMeasure(cfg, s)
  {
  }

  /** Every step lowers the measure. */
  lemma MeasureStep(cfg: Config, s: Sys, m: Move)
    requires Inv(cfg, s) && Enabled(cfg, s, m)
    ensures SysMeasure(cfg, Next(cfg, s, m)) < SysMeasure(cfg, s)
  {
    if m.Checkpoint? {
      CheckpointDecreases(cfg, s, m);
    } else if m.ListDir? {
      ListDecreases(cfg, s, m);
    } else if m.Transfer? {
      TransferDecreases(cfg, s, m);
    } else if EarlyMove(m) {
      EarlyDecrease(cfg, s, m);
    } else {
      LateDecrease(cfg, s, m);
    }
  }

  /** No run is longer than a bound linear in the number of containers. */
  lemma {:induction false} RunsAreFinite(cfg: Config, run: seq<Sys>, ms: seq<Move>, k: nat)
    requires Run(cfg, run, ms) && k < |run|
    ensures k + SysMeasure(cfg, run[k]) <= 14 * |cfg.containers| + 44
  {
    if k == 0 {
      StartInv(|cfg.containers|);
    } else {
      RunsAreFinite(cfg, run, ms, k - 1);
      RunInv(cfg, run, ms, k - 1);
      MeasureStep(cfg, run[k - 1], ms[k - 1]);
    }
  }

  /* ----- progress ----- */

  /** The stage-2 worker is left at its send because main has returned without draining. */
  predicate Stranded(s: Sys) {
    s.main == Exited && s.stage2 == Handing
  }

  /** As long as a goroutine is unfinished some goroutine of the call can step, unless the stage-2
      worker is stranded. */
  lemma Progress(cfg: Config, s: Sys) returns (m: Move)
    requires Inv(cfg, s) && !AllDone(cfg, s) && !Stranded(s)
    ensures Enabled(cfg, s, m) && m != Observed
  {
    if !Stage1Over(s) || s.stage1 == Closing {
      m := Stage1Progress(cfg, s);
    } else if s.stage2 in {Listing, Moving, Exiting} {
      m := Stage2Progress(cfg, s);
    } else if s.closer == Joining && s.stage2 != Handing && s.main != Starting {
      m := WaitWorkers;
    } else if s.closer == Shutting {
      m := CloseResults;
    } else {
      m := match s.main
           case Ranging => EndRange
           case Adding => AddWorker
           case Starting => StartWorker
           case Spawning => StartCloser
           case Deleting => DeletePod
           case Awaiting => AwaitDeletion
           case Draining => if s.stage2 == Handing then HandResult else EndDrain
           case Cleaning => Clean
           case Exited => EndRange;
    }
  }

  lemma Stage1Progress(cfg: Config, s: Sys) returns (m: Move)
    requires Inv(cfg, s) && s.stage1 != Ended
    ensures Enabled(cfg, s, m) && m != Observed
  {
    match s.stage1
    case Clearing => m := Clear;
    case Making => m := MakeDir;
    case Capturing =>
      var fm := FanProgress(s.capture);
      m := Checkpoint(fm);
    case Chowning => m := Chown;
    case Offering => m := HandPath;
    case Closing => m := CloseCheckpoints;
  }

  lemma Stage2Progress(cfg: Config, s: Sys) returns (m: Move)
    requires Inv(cfg, s) && s.stage2 in {Listing, Moving, Exiting}
    ensures Enabled(cfg, s, m) && m != Observed
  {
    match s.stage2
    case Listing =>
      var files := ListingExists(s.st.src.Keys);
      m := ListDir(files);
    case Moving =>
      var um := UpProgress(cfg, s.up, s.st, cfg.dest0);
      m := Transfer(um);
    case Exiting => m := Leave;
  }

  /** The call has run to the point where no goroutine of it can step. */
  ghost predicate Stuck(cfg: Config, s: Sys) {
    forall m :: Enabled(cfg, s, m) ==> m == Observed
  }

  /** Deadlock freedom, with its exact condition: a run that cannot go on has ended with all
      goroutines finished, unless TerminateCheckpointedPod reported an error in a migration whose
      stage 2 uploads.  In that case the stage-2 worker stays at its send for ever. */
  lemma MaximalRunsFinish(cfg: Config, run: seq<Sys>, ms: seq<Move>)
    requires Run(cfg, run, ms) && Stuck(cfg, run[|ms|])
    ensures AllDone(cfg, run[|ms|]) <==> !(cfg.terminateErr && Uploads(cfg))
    ensures !AllDone(cfg, run[|ms|]) ==> Stranded(run[|ms|])
  {
    RunInv(cfg, run, ms, |ms|);
    var s := run[|ms|];
    if !AllDone(cfg, s) && !Stranded(s) {
      var m := Progress(cfg, s);
    }
  }

  /** The pipeline's `terminateErr` is what TerminateCheckpointedPod really returns. */
  predicate TerminatesAsCoded(cfg: Config, getOk: bool, events: seq<Termination.WatchEvent>) {
    cfg.terminateErr <==> Termination.TerminationError(getOk, cfg.deleteOk, events).Some?
  }

  /** Deadlock freedom and termination of the code as it is: whatever the API server and the watch
      answer, a run that cannot go on has ended with all goroutines finished, and every run comes to
      that point within a number of steps linear in the number of containers. */
  lemma EveryGoroutineFinishes(cfg: Config, run: seq<Sys>, ms: seq<Move>,
                               getOk: bool, events: seq<Termination.WatchEvent>)
    requires Run(cfg, run, ms) && TerminatesAsCoded(cfg, getOk, events)
    ensures |ms| <= 14 * |cfg.containers| + 44
    ensures Stuck(cfg, run[|ms|]) ==> AllDone(cfg, run[|ms|])
    ensures !Stranded(run[|ms|])
  {
    RunsAreFinite(cfg, run, ms, |ms|);
    RunInv(cfg, run, ms, |ms|);
    if Stuck(cfg, run[|ms|]) { MaximalRunsFinish(cfg, run, ms); }
  }

  /* ----- the result of a finished run ----- */

  /** The source directory after the first `k` requests, in list order. */
  function CaptureAll(cfg: Config, src: SourceDir, k: nat): SourceDir {
    if k == 0 then src else Answer(cfg, CaptureAll(cfg, src, k - 1), k - 1)
  }

  lemma {:induction false} CaptureAllHolds(cfg: Config, k: nat)
    requires k <= |cfg.containers|
    ensures HoldsSnapshots(cfg, CaptureAll(cfg, map[], k), FirstOnes(k))
  {
    if k == 0 {
    } else {
      CaptureAllHolds(cfg, k - 1);
      var before, after := CaptureAll(cfg, map[], k - 1), CaptureAll(cfg, map[], k);
      var lo, hi := FirstOnes(k - 1), FirstOnes(k);
      forall n | n in after
        ensures exists i: nat :: i in hi && i < |cfg.containers| && cfg.snap(i) == Some(Snapshot(n, after[n]))
      {
        if cfg.snap(k - 1).Some? && cfg.snap(k - 1).value.name == n {
          assert k - 1 in hi;
        } else {
          var i: nat :| i in lo && i < |cfg.containers| && cfg.snap(i) == Some(Snapshot(n, before[n]));
          assert i in hi;
        }
      }
      forall i: nat | i in hi && i < |cfg.containers| && cfg.snap(i).Some? ensures cfg.snap(i).value.name in after {
        assert i == k - 1 || i in lo;
      }
    }
  }

  /** The snapshots of a run in which stage 1 succeeds. */
  function Snapshots(cfg: Config): SourceDir {
    CaptureAll(cfg, map[], |cfg.containers|)
  }

  lemma FinishedStage2(cfg: Config, s: Sys)
    requires Control(s) && Branches(cfg, s) && Transferred(cfg, s) && AllDone(cfg, s)
    ensures Started(cfg, s) <==> Uploads(cfg)
    ensures Uploads(cfg) ==> Moved(cfg, s) && s.up.pc == Returned
    ensures !Uploads(cfg) ==> NothingMoved(cfg, s)
  {
  }

  /** The source directory that a finished run leaves. */
  function LeftBehind(cfg: Config): SourceDir {
    if Uploads(cfg) then if cfg.cleanOk then map[] else Touched(cfg, Snapshots(cfg))
    else if !cfg.removeOk then cfg.src0
    else if !cfg.mkdirOk then map[]
    else Snapshots(cfg)
  }

  lemma ListedSnapshots(cfg: Config, listed: SourceDir)
    requires HoldsSnapshots(cfg, listed, Everyone(cfg)) && DistinctSnapshots(cfg)
    ensures listed == Snapshots(cfg)
  {
    CaptureAllHolds(cfg, |cfg.containers|);
    SnapshotsDetermineDirectory(cfg, listed, Snapshots(cfg), Everyone(cfg));
  }

  lemma EarlyExitLeaves(cfg: Config, s: Sys)
    requires CaptureShape(cfg, s) && CaptureDir(cfg, s) && s.stage1 == Ended && !Started(cfg, s)
    requires !Uploads(cfg) && DistinctSnapshots(cfg)
    ensures s.st.src == LeftBehind(cfg)
  {
    if cfg.removeOk {
      if cfg.mkdirOk {
        assert OverSet(s.capture.ws) == Everyone(cfg);
        ListedSnapshots(cfg, s.st.src);
      } else {
        assert OverSet(s.capture.ws) == iset{};
        assert s.st.src == map[];
      }
    }
  }

  /** Every finished run has deleted the pod (if the API server agreed), whether or not stage 1
      and stage 2 did their work.  If they did, the destination is the one the sequential upload
      of the snapshots followed by the sentinel leaves, and the source directory was removed once.
      If they did not, the destination is untouched: the pod is gone and nothing was migrated. */
  lemma FinishedRun(cfg: Config, run: seq<Sys>, ms: seq<Move>, files: seq<string>)
    requires Run(cfg, run, ms) && AllDone(cfg, run[|ms|])
    requires DistinctSnapshots(cfg) && IsListing(files, Snapshots(cfg).Keys)
    ensures run[|ms|].podGone == cfg.deleteOk && Times(run[|ms|].st.trace, Deleted) == 1
    ensures run[|ms|].st.src == LeftBehind(cfg)
    ensures Uploads(cfg) <==> cfg.removeOk && cfg.mkdirOk && cfg.chownOk && cfg.readDirOk
    ensures !cfg.removeOk ==> run[|ms|].st.src == cfg.src0
    ensures cfg.removeOk && !cfg.mkdirOk ==> run[|ms|].st.src == map[]
    ensures Uploads(cfg) && cfg.cleanOk ==> run[|ms|].st.src == map[]
    ensures Uploads(cfg) ==>
              && run[|ms|].st.dest == UploadThenSignal(cfg, cfg.dest0, Snapshots(cfg), files)
              && Times(run[|ms|].st.trace, Cleaned) == 1
    ensures !Uploads(cfg) ==>
              && run[|ms|].st.dest == cfg.dest0 && run[|ms|].st.restores == []
              && Times(run[|ms|].st.trace, Cleaned) == 0
  {
    RunInv(cfg, run, ms, |ms|);
    var s := run[|ms|];
    FinishedStage2(cfg, s);
    if Uploads(cfg) {
      ListedSnapshots(cfg, s.up.listed);
      ListingUnique(s.up.files, files, Snapshots(cfg).Keys);
      UploadConfluence(cfg, s.up, s.st, cfg.dest0);
    } else {
      EarlyExitLeaves(cfg, s);
    }
  }

  /** The source directory after the first `k` answers, on the inputs: under each name the last
      snapshot of that name, and otherwise what was there before. */
  lemma {:induction false} LastSnapshotWins(cfg: Config, src: SourceDir, k: nat)
    ensures forall i: nat :: i < k && cfg.snap(i).Some? && NoneLater(cfg, i, k) ==>
              Get(CaptureAll(cfg, src, k), cfg.snap(i).value.name) == Some(cfg.snap(i).value.content)
    ensures forall n :: (forall i: nat :: i < k && cfg.snap(i).Some? ==> cfg.snap(i).value.name != n) ==>
              Get(CaptureAll(cfg, src, k), n) == Get(src, n)
  {
    if k == 0 {
    } else {
      LastSnapshotWins(cfg, src, k - 1);
      forall i: nat | i < k && cfg.snap(i).Some? && NoneLater(cfg, i, k)
        ensures Get(CaptureAll(cfg, src, k), cfg.snap(i).value.name) == Some(cfg.snap(i).value.content)
      {
        assert i < k - 1 ==> NoneLater(cfg, i, k - 1);
      }
    }
  }

  /** No snapshot after the `i`-th and before the `k`-th has the same name. */
  ghost predicate NoneLater(cfg: Config, i: nat, k: nat) {
    cfg.snap(i).Some? &&
    forall j: nat :: i < j < k && cfg.snap(j).Some? ==> cfg.snap(j).value.name != cfg.snap(i).value.name
  }

  /** What a migration leaves under the sentinel's name at a destination that had none. */
  lemma FinishedSentinel(cfg: Config, run: seq<Sys>, ms: seq<Move>)
    requires Run(cfg, run, ms) && AllDone(cfg, run[|ms|]) && DistinctSnapshots(cfg) && QuietSnapshots(cfg)
    requires "dummy" !in cfg.dest0
    ensures Get(run[|ms|].st.dest, "dummy") ==
            if !(Uploads(cfg) && cfg.touchOk) then None
            else match cfg.sentinel
                 case Stores => Some(Whole(""))
                 case CopyFails(_) => Some(Truncated(""))
                 case _ => None
  {
    var taken := Snapshots(cfg);
    var files := ListingExists(taken.Keys);
    SortedDistinct(files);
    FinishedRun(cfg, run, ms, files);
    CaptureAllHolds(cfg, |cfg.containers|);
    NoSentinelListed(cfg, taken);
    ReferenceSentinel(cfg, cfg.dest0, taken, files);
  }

  /** A whole copy of the snapshot is left, at the destination or at the source. */
  predicate Kept(s: Sys, snapshot: Snapshot) {
    || Get(s.st.dest, snapshot.name) == Some(Whole(snapshot.content))
    || Get(s.st.src, snapshot.name) == Some(snapshot.content)
  }

  /** When the work of a deleted pod survives.  A snapshot whose name is new on both sides is whole
      at the destination exactly if stage 2 uploads and its own upload did not fail; and a whole copy
      of it exists anywhere exactly if that is so, or the cleanup failed, or stage 2 did not upload
      although the snapshots were taken. */
  lemma SnapshotSurvivesExactly(cfg: Config, run: seq<Sys>, ms: seq<Move>, i: nat)
    requires Run(cfg, run, ms) && AllDone(cfg, run[|ms|]) && DistinctSnapshots(cfg)
    requires i < |cfg.containers| && cfg.snap(i).Some?
    requires var n := cfg.snap(i).value.name; n != SENTINEL && n !in cfg.dest0 && n !in cfg.src0
    ensures var snapshot := cfg.snap(i).value;
            var stored := cfg.upload(snapshot.name).Stores?;
            && (Get(run[|ms|].st.dest, snapshot.name) == Some(Whole(snapshot.content)) <==> Uploads(cfg) && stored)
            && (Kept(run[|ms|], snapshot) <==>
                if Uploads(cfg) then stored || !cfg.cleanOk else cfg.removeOk && cfg.mkdirOk)
  {
    var taken := Snapshots(cfg);
    var files := ListingExists(taken.Keys);
    FinishedRun(cfg, run, ms, files);
    CaptureAllHolds(cfg, |cfg.containers|);
    TakenSnapshot(cfg, taken, i);
    if Uploads(cfg) { SortedDistinct(files); UploadedAt(cfg, taken, files, cfg.snap(i).value.name); }
  }

  lemma TakenSnapshot(cfg: Config, listed: SourceDir, i: nat)
    requires HoldsSnapshots(cfg, listed, Everyone(cfg)) && DistinctSnapshots(cfg)
    requires i < |cfg.containers| && cfg.snap(i).Some?
    ensures Get(listed, cfg.snap(i).value.name) == Some(cfg.snap(i).value.content)
  {
    var n := cfg.snap(i).value.name;
    assert i in Everyone(cfg);
    assert n in listed;
    var h: nat :| h in Everyone(cfg) && h < |cfg.containers| && cfg.snap(h) == Some(Snapshot(n, listed[n]));
    assert h == i;
  }

  lemma UploadedAt(cfg: Config, src: SourceDir, files: seq<string>, n: string)
    requires Distinct(files) && IsListing(files, src.Keys) && n in src && n != SENTINEL
    ensures Get(UploadThenSignal(cfg, cfg.dest0, src, files), n) == After(Get(cfg.dest0, n), src[n], cfg.upload(n))
  {
    UploadAllAt(cfg.dest0, src, files, cfg.upload);
    assert n in files;
    var x: nat :| x < |files| && files[x] == n;
  }

  /** The parallel checkpoint, in the whole pipeline: when stage 1 has got past it, every container
      was asked for exactly once, and the requests are the container list up to order. */
  lemma EveryContainerCheckpointedOnce(cfg: Config, run: seq<Sys>, ms: seq<Move>, k: nat)
    requires Run(cfg, run, ms) && k < |run| && run[k].stage1 !in {Clearing, Making, Capturing}
    requires cfg.removeOk && cfg.mkdirOk
    ensures forall i: nat :: i < |cfg.containers| ==>
              Times(run[k].st.trace, Issued(i)) == 1 && Times(run[k].st.trace, Answered(i)) == 1
    ensures multiset(Requests(run[k].st.trace, cfg.containers)) == multiset(cfg.containers)
  {
    RunInv(cfg, run, ms, k);
    JoinedRequests(cfg, run[k].capture, run[k].st.trace);
  }

  /** The trigger is exact: when the call is over and the watcher has caught up, one restore was
      started if stage 2 ran, the sentinel could be created and uploaded and was new at the
      destination, and none otherwise. */
  lemma RestoreTriggeredExactly(cfg: Config, run: seq<Sys>, ms: seq<Move>)
    requires Run(cfg, run, ms) && AllDone(cfg, run[|ms|]) && run[|ms|].st.events == []
    requires QuietSnapshots(cfg)
    ensures |run[|ms|].st.restores| ==
            (if Uploads(cfg) && cfg.touchOk && cfg.sentinel.Creates() && SENTINEL !in cfg.dest0 then 1 else 0)
  {
    RunInv(cfg, run, ms, |ms|);
    FinishedStage2(cfg, run[|ms|]);
    if Uploads(cfg) { MovedTriggers(cfg, run[|ms|]); }
  }

  lemma MovedTriggers(cfg: Config, s: Sys)
    requires Moved(cfg, s) && s.up.pc == Returned && s.st.events == [] && QuietSnapshots(cfg)
    ensures |s.st.restores| == (if cfg.touchOk && cfg.sentinel.Creates() && SENTINEL !in cfg.dest0 then 1 else 0)
  {
    QuietListing(cfg, s);
    NoSentinelListed(cfg, s.up.listed);
  }

  lemma NoSentinelListed(cfg: Config, listed: SourceDir)
    requires HoldsSnapshots(cfg, listed, Everyone(cfg)) && QuietSnapshots(cfg)
    ensures SENTINEL !in listed
  {
    assert At(SENTINEL, SENTINEL, 0);
    forall n | n in listed ensures n != SENTINEL {
      var i: nat :| i in Everyone(cfg) && i < |cfg.containers| && cfg.snap(i) == Some(Snapshot(n, listed[n]));
    }
  }
}
