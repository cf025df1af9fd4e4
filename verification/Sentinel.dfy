/**
 When a restore starts.  The watcher reacts to create events, and a file is created before it is
 filled, so it is the barrier before the sentinel's upload that has to keep a restore from
 starting on a half-copied directory.
 */
module Sentinel {
  import opened FanOut
  import opened Storage
  import opened Model
  import opened Text
  import opened Upload

  /** Uploading file `n` raises a create event that the watcher takes for the sentinel's. */
  ghost predicate Alarms(cfg: Config, n: string, dest0: DestDir) {
    Contains(n, SENTINEL) && cfg.upload(n).Creates() && n !in dest0
  }

  /** No file of the listing does; in particular none whose name is free of the sentinel's. */
  ghost predicate Quiet(cfg: Config, files: seq<string>, dest0: DestDir) {
    forall i :: 0 <= i < |files| ==> !Alarms(cfg, files[i], dest0)
  }

  /** The sentinel's upload gets as far as creating the file. */
  predicate SentinelCreated(cfg: Config, listed: SourceDir) {
    SENTINEL in Touched(cfg, listed) && cfg.sentinel.Creates()
  }

  predicate Signalled(cfg: Config, u: Uploader) {
    u.pc == Filling || (u.pc == Returned && SentinelCreated(cfg, u.listed))
  }

  ghost function Fires(n: string): nat {
    if Triggers(n) then 1 else 0
  }

  /** What a restore finds: every upload attempt is over and has left what the sequential upload
      leaves, and the sentinel is there. */
  ghost predicate FindsUploads(cfg: Config, u: Uploader, dest0: DestDir, found: DestDir)
    requires forall i :: 0 <= i < |u.files| ==> u.files[i] in u.listed
  {
    && SENTINEL in found
    && forall n :: n != SENTINEL ==> Get(found, n) == Get(UploadAll(dest0, u.listed, u.files, cfg.upload), n)
  }

  /** Events only come from this call's files; the number of pending and past triggers is exactly
      one when a new sentinel was created and zero otherwise. */
  ghost predicate SignalInv(cfg: Config, u: Uploader, st: Store, dest0: DestDir)
    requires UpShape(u)
  {
    && (forall k :: 0 <= k < |st.events| ==> st.events[k] in u.files || st.events[k] == SENTINEL)
    && Total(st.events, Fires) + |st.restores| ==
       (if Signalled(cfg, u) && SENTINEL !in dest0 then 1 else 0)
    && (forall k :: 0 <= k < |st.restores| ==> FindsUploads(cfg, u, dest0, st.restores[k]))
  }

  lemma QuietEvents(cfg: Config, u: Uploader, dest: DestDir, dest0: DestDir)
    requires UpShape(u) && Quiet(cfg, u.files, dest0) && DestInv(cfg, u, dest, dest0)
    ensures forall i :: 0 <= i < |u.files| && cfg.upload(u.files[i]).Creates() && u.files[i] !in dest0 ==>
              !Triggers(u.files[i])
    ensures u.pc in {Uploading, Touching, Posting} ==> (SENTINEL in dest <==> SENTINEL in dest0)
    ensures forall i :: 0 <= i < |u.files| && u.files[i] in dest0 && u.pc == Uploading ==> u.files[i] in dest
  {
    SentinelTriggers();
    TriggersOnName(SENTINEL);
    forall i | 0 <= i < |u.files| && cfg.upload(u.files[i]).Creates() && u.files[i] !in dest0
      ensures !Triggers(u.files[i])
    {
      TriggersOnName(u.files[i]);
      assert !Alarms(cfg, u.files[i], dest0);
    }
    if u.pc in {Uploading, Touching, Posting} && SENTINEL in u.files {
      var i: nat :| i < |u.files| && u.files[i] == SENTINEL;
      assert FileAt(cfg, u, dest, dest0, i);
      assert !Alarms(cfg, u.files[i], dest0);
    } else if u.pc in {Uploading, Touching, Posting} {
      assert Get(dest, SENTINEL) == Get(dest0, SENTINEL);
    }
    forall i | 0 <= i < |u.files| && u.files[i] in dest0 && u.pc == Uploading ensures u.files[i] in dest {
      assert FileAt(cfg, u, dest, dest0, i);
    }
  }

  /** The directory at the moment of a trigger. */
  lemma FindsAll(cfg: Config, u: Uploader, st: Store, dest0: DestDir)
    requires UpInv(cfg, u, st, dest0) && Signalled(cfg, u)
    ensures FindsUploads(cfg, u, dest0, st.dest)
  {
    JoinedDest(cfg, u, st.dest, dest0);
    if u.pc == Returned {
      UploadConfluence(cfg, u, st, dest0);
    } else {
      assert Get(st.dest, SENTINEL) == Some(Copying);
    }
  }

  lemma WorkerSignals(cfg: Config, u: Uploader, st: Store, dest0: DestDir, fm: FanMove)
    requires UpInv(cfg, u, st, dest0) && Quiet(cfg, u.files, dest0) && SignalInv(cfg, u, st, dest0)
    requires UpEnabled(cfg, u, st, Worker(fm))
    requires UpShape(UploaderNext(cfg, u, st, Worker(fm)))
    ensures SignalInv(cfg, UploaderNext(cfg, u, st, Worker(fm)), StoreNext(cfg, u, st, Worker(fm)), dest0)
  {
    QuietEvents(cfg, u, st.dest, dest0);
    assert |st.restores| == 0;
    if fm.Work? { TotalAppend(st.events, Fires, u.files[fm.i]); }
  }

  lemma PostSignals(cfg: Config, u: Uploader, st: Store, dest0: DestDir)
    requires UpInv(cfg, u, st, dest0) && Quiet(cfg, u.files, dest0) && SignalInv(cfg, u, st, dest0)
    requires UpEnabled(cfg, u, st, PostSentinel)
    requires UpShape(UploaderNext(cfg, u, st, PostSentinel))
    ensures SignalInv(cfg, UploaderNext(cfg, u, st, PostSentinel), StoreNext(cfg, u, st, PostSentinel), dest0)
  {
    QuietEvents(cfg, u, st.dest, dest0);
    SentinelTriggers();
    assert |st.restores| == 0;
    TotalAppend(st.events, Fires, SENTINEL);
  }

  lemma WatchSignals(cfg: Config, u: Uploader, st: Store, dest0: DestDir)
    requires UpInv(cfg, u, st, dest0) && Quiet(cfg, u.files, dest0) && SignalInv(cfg, u, st, dest0)
    requires UpEnabled(cfg, u, st, Watch)
    ensures SignalInv(cfg, u, Observe(st), dest0)
  {
    assert st.events == [st.events[0]] + st.events[1..];
    if Triggers(st.events[0]) {
      assert Signalled(cfg, u);
      FindsAll(cfg, u, st, dest0);
    }
  }

  lemma SignalStep(cfg: Config, u: Uploader, st: Store, dest0: DestDir, m: UpMove)
    requires UpInv(cfg, u, st, dest0) && Quiet(cfg, u.files, dest0) && SignalInv(cfg, u, st, dest0)
    requires UpEnabled(cfg, u, st, m)
    ensures UpInv(cfg, UploaderNext(cfg, u, st, m), StoreNext(cfg, u, st, m), dest0)
    ensures SignalInv(cfg, UploaderNext(cfg, u, st, m), StoreNext(cfg, u, st, m), dest0)
  {
    UpStep(cfg, u, st, dest0, m);
    match m
    case Worker(fm) => WorkerSignals(cfg, u, st, dest0, fm);
    case PostSentinel => PostSignals(cfg, u, st, dest0);
    case Watch => WatchSignals(cfg, u, st, dest0);
    case _ =>
  }

  /* ----- whole runs of one call ----- */

  /** The states of a run: the call and the stores. */
  datatype UpState = UpState(u: Uploader, st: Store)

  ghost function UpNext(cfg: Config, s: UpState, m: UpMove): UpState
    requires UpEnabled(cfg, s.u, s.st, m)
  {
    UpState(UploaderNext(cfg, s.u, s.st, m), StoreNext(cfg, s.u, s.st, m))
  }

  ghost predicate UpRun(cfg: Config, run: seq<UpState>, ms: seq<UpMove>) {
    && |run| == |ms| + 1
    && forall k :: 0 <= k < |ms| ==>
         && UpEnabled(cfg, run[k].u, run[k].st, ms[k])
         && run[k + 1] == UpNext(cfg, run[k], ms[k])
  }

  /** A call on files of the source directory, with an idle watcher. */
  ghost predicate UpInitial(s: UpState) {
    && Distinct(s.u.files) && (forall i :: 0 <= i < |s.u.files| ==> s.u.files[i] in s.st.src)
    && s.u == Begin(s.u.files, s.st.src)
    && s.st.events == [] && s.st.restores == [] && s.st.trace == []
  }

  lemma {:induction false} UpRunInv(cfg: Config, run: seq<UpState>, ms: seq<UpMove>, k: nat)
    requires UpRun(cfg, run, ms) && UpInitial(run[0]) && k < |run|
    ensures UpInv(cfg, run[k].u, run[k].st, run[0].st.dest)
    ensures run[k].u.files == run[0].u.files && run[k].u.listed == run[0].u.listed
    ensures Quiet(cfg, run[0].u.files, run[0].st.dest) ==> SignalInv(cfg, run[k].u, run[k].st, run[0].st.dest)
    ensures run[k].u.pc == Returned ==> run[k].st.src == Touched(cfg, run[0].st.src)
    ensures k + UpMeasure(run[k].u, run[k].st) <= UpMeasure(run[0].u, run[0].st)
  {
    var dest0 := run[0].st.dest;
    if k == 0 {
      BeginInv(cfg, run[0].u.files, run[0].st);
    } else {
      UpRunInv(cfg, run, ms, k - 1);
      var s, m := run[k - 1], ms[k - 1];
      UpStep(cfg, s.u, s.st, dest0, m);
      if Quiet(cfg, run[0].u.files, run[0].st.dest) { SignalStep(cfg, s.u, s.st, dest0, m); }
    }
  }

  /** Sentinel safety.  In every run in which no file is taken for the sentinel, a restore starts
      only after every upload attempt is over, and finds all of them: a file whose upload did not
      fail is there, whole, with the contents it had at the source. */
  lemma SentinelSafety(cfg: Config, run: seq<UpState>, ms: seq<UpMove>, k: nat)
    requires UpRun(cfg, run, ms) && UpInitial(run[0]) && k < |run|
    requires Quiet(cfg, run[0].u.files, run[0].st.dest)
    ensures |run[k].st.restores| <= 1
    ensures run[k].st.restores != [] ==>
              forall i :: 0 <= i < |run[0].u.files| && i < |run[k].u.fan.ws| ==> run[k].u.fan.ws[i].Finished?
    ensures forall r, n :: r in run[k].st.restores && n in run[0].u.files && n != SENTINEL && cfg.upload(n).Stores? ==>
              Get(r, n) == Some(Whole(run[0].st.src[n]))
  {
    UpRunInv(cfg, run, ms, k);
    var u, st, dest0 := run[k].u, run[k].st, run[0].st.dest;
    UploadAllAt(dest0, u.listed, u.files, cfg.upload);
    forall r, n | r in st.restores && n in run[0].u.files && n != SENTINEL && cfg.upload(n).Stores?
      ensures Get(r, n) == Some(Whole(run[0].st.src[n]))
    {
      var j :| 0 <= j < |st.restores| && st.restores[j] == r;
      assert FindsUploads(cfg, u, dest0, st.restores[j]);
      var i: nat :| i < |u.files| && u.files[i] == n;
    }
  }

  /** The trigger is exact: once the call has returned and the watcher is idle, one restore was
      started if the sentinel was created and is new, and none otherwise.  A sentinel left over
      from an earlier migration raises no create event, so no restore follows. */
  lemma RestoreStartsExactlyOnce(cfg: Config, run: seq<UpState>, ms: seq<UpMove>, k: nat)
    requires UpRun(cfg, run, ms) && UpInitial(run[0]) && k < |run|
    requires Quiet(cfg, run[0].u.files, run[0].st.dest)
    requires run[k].u.pc == Returned && run[k].st.events == []
    ensures |run[k].st.restores| ==
            (if SentinelCreated(cfg, run[0].st.src) && SENTINEL !in run[0].st.dest then 1 else 0)
  {
    UpRunInv(cfg, run, ms, k);
  }

  /** In every run: once the call has returned, the destination is what uploading the same files one
      after the other and then the sentinel leaves, and the source directory has gained the
      sentinel. */
  lemma UploadRefinesLoop(cfg: Config, run: seq<UpState>, ms: seq<UpMove>, k: nat)
    requires UpRun(cfg, run, ms) && UpInitial(run[0]) && k < |run| && run[k].u.pc == Returned
    ensures run[k].st.dest == UploadThenSignal(cfg, run[0].st.dest, run[0].st.src, run[0].u.files)
    ensures run[k].st.src == Touched(cfg, run[0].st.src)
  {
    UpRunInv(cfg, run, ms, k);
    UploadConfluence(cfg, run[k].u, run[k].st, run[0].st.dest);
  }

  /** The same on the inputs alone.  Each listed file is whole, cut off or not there anew as its own
      upload went; nothing else changed but the sentinel. */
  lemma UploadLeavesExactly(cfg: Config, run: seq<UpState>, ms: seq<UpMove>, k: nat)
    requires UpRun(cfg, run, ms) && UpInitial(run[0]) && k < |run| && run[k].u.pc == Returned
    ensures var st, st' := run[0].st, run[k].st;
            && (forall n :: n in run[0].u.files && n != "dummy" ==>
                  Leaves(cfg.upload(n), st.src[n], Get(st.dest, n), Get(st'.dest, n)))
            && (forall n :: n !in run[0].u.files && n != "dummy" ==> Get(st'.dest, n) == Get(st.dest, n))
            && (forall n :: n != "dummy" || n in st.src ==> Get(st'.src, n) == Get(st.src, n))
  {
    UploadRefinesLoop(cfg, run, ms, k);
    ReferenceFiles(cfg, run[0].st.dest, run[0].st.src, run[0].u.files);
    TouchedExactly(cfg, run[0].st.src);
  }

  /** The sentinel left by the call: a new one is empty, an existing one keeps its contents, and it is
      whole at the destination if its upload worked. */
  lemma SentinelLeftExactly(cfg: Config, run: seq<UpState>, ms: seq<UpMove>, k: nat)
    requires UpRun(cfg, run, ms) && UpInitial(run[0]) && k < |run| && run[k].u.pc == Returned
    ensures var st, st' := run[0].st, run[k].st;
            && ("dummy" !in st.src ==> Get(st'.src, "dummy") == if cfg.touchOk then Some("") else None)
            && ("dummy" !in st.src && cfg.touchOk ==>
                  Leaves(cfg.sentinel, "", Get(st.dest, "dummy"), Get(st'.dest, "dummy")))
            && ("dummy" !in st.src && cfg.touchOk && cfg.sentinel.Stores? ==>
                  Get(st'.dest, "dummy") == Some(Whole("")))
            && ("dummy" !in st.src && !cfg.touchOk ==> Get(st'.dest, "dummy") == Get(st.dest, "dummy"))
            && ("dummy" in st.src && cfg.sentinel.Stores? ==> Get(st'.dest, "dummy") == Some(Whole(st.src["dummy"])))
  {
    UploadRefinesLoop(cfg, run, ms, k);
    ReferenceSentinel(cfg, run[0].st.dest, run[0].st.src, run[0].u.files);
    TouchedExactly(cfg, run[0].st.src);
  }

  /** Every run of the call is finite, and one that cannot go on has returned. */
  lemma UploadTerminates(cfg: Config, run: seq<UpState>, ms: seq<UpMove>)
    requires UpRun(cfg, run, ms) && UpInitial(run[0])
    ensures |ms| <= 7 * |run[0].u.files| + 9
    ensures (forall m :: !UpEnabled(cfg, run[|ms|].u, run[|ms|].st, m)) ==> run[|ms|].u.pc == Returned
  {
    UpRunInv(cfg, run, ms, 0);
    UpRunInv(cfg, run, ms, |ms|);
    StartInv(|run[0].u.files|);
    var s := run[|ms|];
    if s.u.pc != Returned {
      var m := UpProgress(cfg, s.u, s.st, run[0].st.dest);
    }
  }

  /* ----- the condition is exact ----- */

  /** Some upload is not over although a restore has started. */
  predicate Premature(s: UpState) {
    s.st.restores != [] && exists i :: 0 <= i < |s.u.fan.ws| && !s.u.fan.ws[i].Over()
  }

  lemma Extend(cfg: Config, run: seq<UpState>, ms: seq<UpMove>, m: UpMove)
    returns (run': seq<UpState>, ms': seq<UpMove>)
    requires UpRun(cfg, run, ms) && UpEnabled(cfg, run[|ms|].u, run[|ms|].st, m)
    ensures UpRun(cfg, run', ms') && run'[0] == run[0]
    ensures run'[|ms'|] == UpNext(cfg, run[|ms|], m)
  {
    run', ms' := run + [UpNext(cfg, run[|ms|], m)], ms + [m];
  }

  /** A run that starts the first `k` workers and does nothing else. */
  lemma {:induction false} StartWorkers(cfg: Config, s: UpState, k: nat)
    returns (run: seq<UpState>, ms: seq<UpMove>)
    requires UpInitial(s) && k <= |s.u.files|
    ensures UpRun(cfg, run, ms) && run[0] == s
    ensures run[|ms|] == UpState(s.u.(fan := FirstBegun(|s.u.files|, k)), s.st)
  {
    if k == 0 {
      run, ms := [s], [];
      FirstBegunNext(|s.u.files|, 0);
    } else {
      run, ms := StartWorkers(cfg, s, k - 1);
      FirstBegunNext(|s.u.files|, k - 1);
      run, ms := Extend(cfg, run, ms, Worker(Add));
      run, ms := Extend(cfg, run, ms, Worker(Go));
    }
  }

  /** If some file is taken for the sentinel, a restore can start while that file is still being
      copied. */
  lemma AlarmIsUnsafe(cfg: Config, s: UpState, i: nat) returns (run: seq<UpState>, ms: seq<UpMove>)
    requires UpInitial(s) && i < |s.u.files| && Alarms(cfg, s.u.files[i], s.st.dest)
    ensures UpRun(cfg, run, ms) && run[0] == s
    ensures Premature(run[|ms|]) && s.u.files[i] in run[|ms|].st.restores[0]
    ensures run[|ms|].st.restores[0][s.u.files[i]] == Copying
  {
    TriggersOnName(s.u.files[i]);
    run, ms := StartWorkers(cfg, s, |s.u.files|);
    run, ms := Extend(cfg, run, ms, Worker(Work(i)));
    run, ms := Extend(cfg, run, ms, Worker(Work(i)));
    assert run[|ms|].st.events == [s.u.files[i]];
    run, ms := Extend(cfg, run, ms, Watch);
    assert !run[|ms|].u.fan.ws[i].Over();
  }

  /** A restore can start too early exactly when some file's creation is taken for the
      sentinel's. */
  lemma SafeExactlyWhenQuiet(cfg: Config, s: UpState)
    requires UpInitial(s)
    ensures Quiet(cfg, s.u.files, s.st.dest) <==>
            forall run, ms, k :: UpRun(cfg, run, ms) && run[0] == s && 0 <= k < |run| ==> !Premature(run[k])
  {
    if Quiet(cfg, s.u.files, s.st.dest) {
      forall run, ms, k | UpRun(cfg, run, ms) && run[0] == s && 0 <= k < |run| ensures !Premature(run[k]) {
        SentinelSafety(cfg, run, ms, k);
        UpRunInv(cfg, run, ms, k);
      }
    } else {
      var i :| 0 <= i < |s.u.files| && Alarms(cfg, s.u.files[i], s.st.dest);
      var run, ms := AlarmIsUnsafe(cfg, s, i);
      assert UpRun(cfg, run, ms) && run[0] == s && 0 <= |ms| < |run| && Premature(run[|ms|]);
    }
  }
}
