/**
 The sequential side of the repository: the checkpoint loop, the upload loop and MigratePod, which
 does the same work as the pipeline without overlapping its stages.
 */
module Sequential {
  import opened Storage
  import opened Model
  import opened Capture
  import opened Upload
  import opened Sentinel
  import Pipeline
  import opened PipelineTheorems
  import Termination

  function CaptureTrace(k: nat): seq<Effect> {
    if k == 0 then [] else CaptureTrace(k - 1) + [Issued(k - 1), Answered(k - 1)]
  }

  lemma RoundRequests(trace: seq<Effect>, i: nat, containers: seq<string>)
    requires i < |containers|
    ensures Requests(trace + [Issued(i), Answered(i)], containers) == Requests(trace, containers) + [containers[i]]
  {
    RequestsAppend(trace, Issued(i), containers);
    RequestsAppend(trace + [Issued(i)], Answered(i), containers);
    assert trace + [Issued(i), Answered(i)] == trace + [Issued(i)] + [Answered(i)];
  }

  /** The loop asks for every container once, in list order. */
  lemma {:induction false} LoopRequests(containers: seq<string>, k: nat)
    requires k <= |containers|
    ensures Requests(CaptureTrace(k), containers) == containers[..k]
  {
    if k == 0 {
    } else {
      LoopRequests(containers, k - 1);
      RoundRequests(CaptureTrace(k - 1), k - 1, containers);
    }
  }

  /** The parallel checkpoint refines the loop: when stage 1 of any run is past it, the requests it
      issued are those of the loop up to order. */
  lemma ParallelRefinesLoop(cfg: Config, run: seq<Pipeline.Sys>, ms: seq<Pipeline.Move>, k: nat)
    requires Pipeline.Run(cfg, run, ms) && k < |run| && cfg.removeOk && cfg.mkdirOk
    requires run[k].stage1 !in {Pipeline.Clearing, Pipeline.Making, Pipeline.Capturing}
    ensures multiset(Requests(run[k].st.trace, cfg.containers)) ==
            multiset(Requests(CaptureTrace(|cfg.containers|), cfg.containers))
  {
    EveryContainerCheckpointedOnce(cfg, run, ms, k);
    LoopRequests(cfg.containers, |cfg.containers|);
    assert cfg.containers[..|cfg.containers|] == cfg.containers;
  }

  function UploadTrace(files: seq<string>): seq<Effect> {
    if files == [] then [] else UploadTrace(files[..|files| - 1]) + [Uploaded(files[|files| - 1])]
  }

  /* ----- what MigratePod leaves, as functions of what it finds ----- */

  /** The directory MigratePod starts from: a failed removal is only logged. */
  function Emptied(cfg: Config, src: SourceDir): SourceDir {
    if cfg.removeOk then map[] else src
  }

  /** The directory after the checkpoints. */
  function Taken(cfg: Config, src: SourceDir): SourceDir {
    CaptureAll(cfg, Emptied(cfg, src), |cfg.containers|)
  }

  /** `files` is the answer of ReadDir, if it works; otherwise the uploader gets no files. */
  ghost predicate ReadsDir(cfg: Config, src: SourceDir, files: seq<string>) {
    cfg.readDirOk ==> IsListing(files, Taken(cfg, src).Keys)
  }

  function Listed(cfg: Config, files: seq<string>): seq<string> {
    if cfg.readDirOk then files else []
  }

  function MigratedSource(cfg: Config, src: SourceDir): SourceDir {
    if cfg.mkdirOk then Touched(cfg, Taken(cfg, src)) else Emptied(cfg, src)
  }

  function MigratedDest(cfg: Config, src: SourceDir, dest: DestDir, files: seq<string>): DestDir
    requires ReadsDir(cfg, src, files)
  {
    if cfg.mkdirOk then UploadThenSignal(cfg, dest, Taken(cfg, src), Listed(cfg, files)) else dest
  }

  function MigratedPodGone(cfg: Config, podGone: bool): bool {
    if cfg.mkdirOk then cfg.deleteOk else podGone
  }

  /** Everything MigratePod does before it deletes the pod. */
  function CapturePart(cfg: Config): seq<Effect> {
    (if cfg.removeOk then [Cleared] else []) + [DirMade]
    + CaptureTrace(|cfg.containers|)
    + (if cfg.chownOk then [Chowned] else [])
  }

  /** ... and all of it, in order, when the directory could be created; `uploaded` are the effects
      of the parallel uploader. */
  function MigratedTrace(cfg: Config, uploaded: seq<Effect>): seq<Effect> {
    CapturePart(cfg) + [Deleted] + uploaded
  }

  /** A run of the parallel uploader from its call on `files` to its return. */
  ghost predicate UploaderRun(cfg: Config, src: SourceDir, dest: DestDir, files: seq<string>,
                              run: seq<UpState>, ms: seq<UpMove>) {
    && UpRun(cfg, run, ms)
    && run[0] == UpState(Begin(files, src), Store(src, dest, [], [], []))
    && run[|ms|].u.pc == Returned
  }

  /** The state the migration works on: source and destination directory, the pod, and what was
      done so far. */
  class Migration {
    var src: SourceDir
    var dest: DestDir
    var podGone: bool
    var trace: seq<Effect>

    constructor (cfg: Config)
      ensures src == cfg.src0 && dest == cfg.dest0 && !podGone && trace == []
    {
      src, dest, podGone, trace := cfg.src0, cfg.dest0, false, [];
    }

    /** CheckpointPodCrio: one request after the other. */
    method CheckpointPodCrio(cfg: Config)
      modifies this`src, this`trace
      ensures src == CaptureAll(cfg, old(src), |cfg.containers|)
      ensures trace == old(trace) + CaptureTrace(|cfg.containers|)
    {
      for i := 0 to |cfg.containers|
        invariant src == CaptureAll(cfg, old(src), i)
        invariant trace == old(trace) + CaptureTrace(i)
      {
        trace := trace + [Issued(i)];
        src := Answer(cfg, src, i);
        trace := trace + [Answered(i)];
      }
    }

    /** MigrateCheckpoint: upload the files of the directory one after the other, whatever
        happens to each; the only error is a failed ReadDir. */
    method MigrateCheckpoint(cfg: Config, files: seq<string>) returns (err: Option<string>)
      requires cfg.readDirOk ==> IsListing(files, src.Keys)
      modifies this`dest, this`trace
      ensures err.None? <==> cfg.readDirOk
      ensures cfg.readDirOk ==> dest == UploadAll(old(dest), src, files, cfg.upload)
      ensures cfg.readDirOk ==> trace == old(trace) + UploadTrace(files)
      ensures !cfg.readDirOk ==> dest == old(dest) && trace == old(trace)
    {
      if !cfg.readDirOk {
        return Some("failed to read dir");
      }
      UploadLoop(cfg, files);
      return None;
    }

    method UploadLoop(cfg: Config, files: seq<string>)
      requires forall i :: 0 <= i < |files| ==> files[i] in src
      modifies this`dest, this`trace
      ensures dest == UploadAll(old(dest), src, files, cfg.upload)
      ensures trace == old(trace) + UploadTrace(files)
    {
      for i := 0 to |files|
        invariant dest == UploadAll(old(dest), src, files[..i], cfg.upload)
        invariant trace == old(trace) + UploadTrace(files[..i])
      {
        assert files[..i + 1][..i] == files[..i];
        dest := Put(dest, files[i], src[files[i]], cfg.upload(files[i]));
        trace := trace + [Uploaded(files[i])];
      }
      assert files[..|files|] == files;
    }

    /** MigrateCheckpointParallelized, for any run of its goroutines: the directories it leaves do
        not depend on the run. */
    method MigrateCheckpointParallelized(cfg: Config, files: seq<string>, run: seq<UpState>, ms: seq<UpMove>)
      requires Distinct(files) && forall i :: 0 <= i < |files| ==> files[i] in src
      requires UploaderRun(cfg, src, dest, files, run, ms)
      modifies this`src, this`dest, this`trace
      ensures src == Touched(cfg, old(src))
      ensures dest == UploadThenSignal(cfg, old(dest), old(src), files)
      ensures trace == old(trace) + run[|ms|].st.trace
    {
      UploadRefinesLoop(cfg, run, ms, |ms|);
      var end := run[|ms|].st;
      src, dest, trace := end.src, end.dest, trace + end.trace;
    }

    /** MigratePod, for any run of its uploader.  Only a failed creation of the directory stops it. */
    method MigratePod(cfg: Config, files: seq<string>, getOk: bool, events: seq<Termination.WatchEvent>,
                      run: seq<UpState>, ms: seq<UpMove>)
      returns (err: Option<string>)
      requires ReadsDir(cfg, src, files)
      requires cfg.mkdirOk ==> UploaderRun(cfg, Taken(cfg, src), dest, Listed(cfg, files), run, ms)
      modifies this
      ensures err.None? <==> cfg.mkdirOk
      ensures src == MigratedSource(cfg, old(src))
      ensures dest == MigratedDest(cfg, old(src), old(dest), files)
      ensures podGone == MigratedPodGone(cfg, old(podGone))
      ensures cfg.mkdirOk ==> trace == old(trace) + MigratedTrace(cfg, run[|ms|].st.trace)
      ensures !cfg.mkdirOk ==>
                && podGone == old(podGone) && dest == old(dest)
                && src == if cfg.removeOk then map[] else old(src)
      ensures cfg.mkdirOk ==> podGone == cfg.deleteOk
      ensures cfg.mkdirOk ==>
                forall n :: n != "dummy" ==>
                  Get(src, n) == Get(CaptureAll(cfg, if cfg.removeOk then map[] else old(src), |cfg.containers|), n)
      ensures cfg.mkdirOk && cfg.readDirOk ==>
                forall n :: n in files && n != "dummy" ==>
                  n in src && Leaves(cfg.upload(n), src[n], Get(old(dest), n), Get(dest, n))
      ensures cfg.mkdirOk && !cfg.readDirOk ==> forall n :: n != "dummy" ==> Get(dest, n) == Get(old(dest), n)
    {
      err := TakeSnapshots(cfg);
      if err.Some? {
        return;
      }
      var terminateErr, gone := Termination.TerminateCheckpointedPod(getOk, cfg.deleteOk, events);
      podGone := gone;
      trace := trace + [Deleted];
      if cfg.readDirOk { SortedDistinct(files); }
      TouchedExactly(cfg, src);
      ReferenceFiles(cfg, dest, src, Listed(cfg, files));
      MigrateCheckpointParallelized(cfg, Listed(cfg, files), run, ms);
    }

    /** Up to the deletion: clear and create the directory, checkpoint, change its owner. */
    method TakeSnapshots(cfg: Config) returns (err: Option<string>)
      modifies this`src, this`trace
      ensures err.None? <==> cfg.mkdirOk
      ensures !cfg.mkdirOk ==> src == Emptied(cfg, old(src))
      ensures cfg.mkdirOk ==> src == Taken(cfg, old(src))
      ensures cfg.mkdirOk ==> trace == old(trace) + CapturePart(cfg)
    {
      if cfg.removeOk {
        src := map[];
        trace := trace + [Cleared];
      }
      if !cfg.mkdirOk {
        return Some("failed to create checkpoints folder");
      }
      trace := trace + [DirMade];
      CheckpointPodCrio(cfg);
      if cfg.chownOk {
        trace := trace + [Chowned];
      }
      return None;
    }
  }
}
