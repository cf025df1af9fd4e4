/** The inductive invariant of the migration pipeline. */
module PipelineInv {
  import opened FanOut
  import opened Storage
  import opened Model
  import opened Capture
  import opened Upload
  import opened Sentinel
  import opened Pipeline

  /** Stage 2 has read the directory. */
  predicate Started(cfg: Config, s: Sys) {
    s.stage2 in {Moving, Handing} || (s.stage2 in {Exiting, Gone} && cfg.readDirOk)
  }

  /* ----- stage 1 ----- */

  ghost predicate CaptureShape(cfg: Config, s: Sys) {
    && FanInv(s.capture)
    && RequestInv(cfg, s.capture, s.st.trace)
    && (s.stage1 in {Clearing, Making} ==> s.capture == Start(|cfg.containers|))
    && (s.stage1 == Capturing ==> !s.capture.joined)
    && (s.stage1 in {Chowning, Offering} ==> s.capture.joined)
    && (Stage1Over(s) ==>
          if cfg.removeOk && cfg.mkdirOk then s.capture.joined else s.capture == Start(|cfg.containers|))
  }

  /** Between the clearing by stage 1 and the listing by stage 2 the directory holds exactly the
      snapshots taken; if it was not cleared it stays as it was. */
  ghost predicate CaptureDir(cfg: Config, s: Sys) {
    && (s.stage1 == Clearing || !cfg.removeOk ==> s.st.src == cfg.src0)
    && (s.stage1 != Clearing && cfg.removeOk && !Started(cfg, s) ==>
          HoldsSnapshots(cfg, s.st.src, OverSet(s.capture.ws)))
  }

  /** After the upload the directory holds the sentinel too, until it is cleaned. */
  ghost predicate LeftDir(cfg: Config, s: Sys) {
    Started(cfg, s) && s.stage2 != Moving ==>
      s.st.src == if cfg.cleanOk && s.stage2 != Handing && s.main != Cleaning then map[]
                  else Touched(cfg, s.up.listed)
  }

  /* ----- stage 2 ----- */

  ghost predicate NothingMoved(cfg: Config, s: Sys) {
    && s.up == NOTHING && s.st.dest == cfg.dest0 && s.st.events == [] && s.st.restores == []
    && (forall n :: Times(s.st.trace, Uploaded(n)) == 0)
    && Times(s.st.trace, SentinelPosted) == 0
  }

  ghost predicate Moved(cfg: Config, s: Sys) {
    && UpInv(cfg, s.up, s.st, cfg.dest0)
    && (s.up.pc == Returned <==> s.stage2 != Moving)
    && IsListing(s.up.files, s.up.listed.Keys)
    && HoldsSnapshots(cfg, s.up.listed, Everyone(cfg))
    && (Quiet(cfg, s.up.files, cfg.dest0) ==> SignalInv(cfg, s.up, s.st, cfg.dest0))
  }

  ghost predicate Transferred(cfg: Config, s: Sys) {
    if Started(cfg, s) then Moved(cfg, s) else NothingMoved(cfg, s)
  }

  /* ----- order of effects ----- */

  ghost predicate DeleteLast(trace: seq<Effect>) {
    forall k :: 0 <= k < |trace| && trace[k] == Deleted ==> CheckpointsOver(trace, k)
  }

  /** After position `k` no checkpoint request is issued or answered, and those issued before it
      were answered before it. */
  ghost predicate CheckpointsOver(trace: seq<Effect>, k: nat)
    requires k <= |trace|
  {
    && (forall j :: k <= j < |trace| ==> !trace[j].Issued? && !trace[j].Answered?)
    && (forall j :: 0 <= j < k && trace[j].Issued? ==> Answered(trace[j].i) in trace[..k])
  }

  ghost predicate CleanLast(trace: seq<Effect>, files: seq<string>) {
    forall k :: 0 <= k < |trace| && trace[k] == Cleaned ==> UploadsOver(trace, files, k)
  }

  /** Before position `k` every upload and the sentinel's were attempted and nothing was cleaned. */
  ghost predicate UploadsOver(trace: seq<Effect>, files: seq<string>, k: nat)
    requires k <= |trace|
  {
    && Cleaned !in trace[..k] && SentinelPosted in trace[..k]
    && forall i :: 0 <= i < |files| ==> Uploaded(files[i]) in trace[..k]
  }

  ghost predicate Ordered(cfg: Config, s: Sys) {
    && Times(s.st.trace, Deleted) == (if s.main in {Awaiting, Draining, Cleaning, Exited} then 1 else 0)
    && Times(s.st.trace, Cleaned) ==
       (if s.stage2 in {Exiting, Gone} && cfg.readDirOk && s.main != Cleaning then 1 else 0)
    && DeleteLast(s.st.trace)
    && CleanLast(s.st.trace, s.up.files)
  }

  ghost predicate Inv(cfg: Config, s: Sys) {
    && Control(s) && Branches(cfg, s)
    && CaptureShape(cfg, s) && CaptureDir(cfg, s)
    && Transferred(cfg, s) && LeftDir(cfg, s)
    && Ordered(cfg, s)
  }

  lemma InitInv(cfg: Config)
    ensures Inv(cfg, Init(cfg))
  {
    StartInv(|cfg.containers|);
    CaptureStartInv(cfg, []);
  }

  /* ----- stage 1 keeps its part ----- */

  lemma CaptureShapeStep(cfg: Config, s: Sys, m: Move)
    requires Control(s) && Branches(cfg, s) && CaptureShape(cfg, s) && Enabled(cfg, s, m)
    ensures CaptureShape(cfg, Next(cfg, s, m))
  {
    match m
    case Clear => OtherEffect(cfg, s.capture, s.st.trace, Cleared);
    case MakeDir => OtherEffect(cfg, s.capture, s.st.trace, DirMade);
    case Checkpoint(fm) => CheckpointShape(cfg, s, fm);
    case Chown => OtherEffect(cfg, s.capture, s.st.trace, Chowned);
    case DeletePod => OtherEffect(cfg, s.capture, s.st.trace, Deleted);
    case Clean => OtherEffect(cfg, s.capture, s.st.trace, Cleaned);
    case Transfer(um) => TransferShape(cfg, s, um);
    case _ =>
  }

  lemma CheckpointShape(cfg: Config, s: Sys, fm: FanMove)
    requires Control(s) && CaptureShape(cfg, s) && Enabled(cfg, s, Checkpoint(fm))
    ensures CaptureShape(cfg, Next(cfg, s, Checkpoint(fm)))
  {
    if fm.Work? {
      AdvanceInv(s.capture, fm.i, CaptureFan(s.capture, fm).ws[fm.i]);
      WorkCounts(cfg, s.capture, s.st, fm.i);
      WorkNames(cfg, s.capture, s.st, fm.i);
    } else {
      SpawnInv(s.capture, fm);
      SpawnRequests(cfg, s.capture, s.st.trace, fm);
    }
  }

  /** An upload step logs at most one effect, an upload's. */
  lemma TransferLogs(cfg: Config, s: Sys, um: UpMove)
    requires Enabled(cfg, s, Transfer(um))
    ensures var t' := StoreNext(cfg, s.up, s.st, um).trace;
            t' == s.st.trace ||
            (|t'| == |s.st.trace| + 1 && t'[..|s.st.trace|] == s.st.trace &&
             (t'[|s.st.trace|].Uploaded? || t'[|s.st.trace|].SentinelPosted?) &&
             t' == s.st.trace + [t'[|s.st.trace|]])
  {
  }

  lemma TransferShape(cfg: Config, s: Sys, um: UpMove)
    requires Control(s) && CaptureShape(cfg, s) && Enabled(cfg, s, Transfer(um))
    ensures CaptureShape(cfg, Next(cfg, s, Transfer(um)))
  {
    TransferLogs(cfg, s, um);
    var t' := StoreNext(cfg, s.up, s.st, um).trace;
    if t' != s.st.trace { OtherEffect(cfg, s.capture, s.st.trace, t'[|s.st.trace|]); }
  }

  lemma CheckpointDir(cfg: Config, s: Sys, fm: FanMove)
    requires Control(s) && Branches(cfg, s) && CaptureShape(cfg, s) && CaptureDir(cfg, s)
    requires Enabled(cfg, s, Checkpoint(fm))
    ensures CaptureDir(cfg, Next(cfg, s, Checkpoint(fm)))
  {
    if fm.Work? {
      WorkSnapshots(cfg, s.capture, s.st, fm.i);
    } else {
      SpawnRequests(cfg, s.capture, s.st.trace, fm);
    }
  }

  lemma CaptureDirStep(cfg: Config, s: Sys, m: Move)
    requires Control(s) && Branches(cfg, s) && CaptureShape(cfg, s) && CaptureDir(cfg, s)
    requires Enabled(cfg, s, m)
    ensures CaptureDir(cfg, Next(cfg, s, m))
  {
    if m.Checkpoint? { CheckpointDir(cfg, s, m.m); }
  }

  /** The last step of an upload leaves the source as the touch left it. */
  lemma ReturnLeaves(cfg: Config, u: Uploader, st: Store, m: UpMove)
    requires UpShape(u) && SourceInv(cfg, u, st.src) && UpEnabled(cfg, u, st, m)
    requires u.pc != Returned && UploaderNext(cfg, u, st, m).pc == Returned
    ensures StoreNext(cfg, u, st, m).src == Touched(cfg, UploaderNext(cfg, u, st, m).listed)
  {
  }

  /** The other steps leave alone what LeftDir looks at. */
  predicate KeepsDir(m: Move) {
    !m.Clean? && !m.HandResult? && !m.Transfer?
  }

  lemma OtherLeftDir(cfg: Config, s: Sys, m: Move)
    requires Control(s) && Branches(cfg, s) && LeftDir(cfg, s) && Enabled(cfg, s, m) && KeepsDir(m)
    ensures LeftDir(cfg, Next(cfg, s, m))
  {
    var s' := Next(cfg, s, m);
    if Started(cfg, s') && s'.stage2 != Moving {
      assert !EarlyMove(m) || s'.stage2 == s.stage2;
    }
  }

  lemma TransferLeftDir(cfg: Config, s: Sys, m: Move)
    requires m.Transfer? && Transferred(cfg, s) && Enabled(cfg, s, m)
    ensures LeftDir(cfg, Next(cfg, s, m))
  {
    if Next(cfg, s, m).stage2 != Moving { ReturnLeaves(cfg, s.up, s.st, m.um); }
  }

  lemma MainLeftDir(cfg: Config, s: Sys, m: Move)
    requires m.Clean? || m.HandResult?
    requires Control(s) && Branches(cfg, s) && LeftDir(cfg, s) && Enabled(cfg, s, m)
    ensures LeftDir(cfg, Next(cfg, s, m))
  {
  }

  lemma LeftDirStep(cfg: Config, s: Sys, m: Move)
    requires Control(s) && Branches(cfg, s) && Transferred(cfg, s) && LeftDir(cfg, s) && Enabled(cfg, s, m)
    ensures LeftDir(cfg, Next(cfg, s, m))
  {
    if m.Transfer? {
      TransferLeftDir(cfg, s, m);
    } else if KeepsDir(m) {
      OtherLeftDir(cfg, s, m);
    } else {
      MainLeftDir(cfg, s, m);
    }
  }

  /* ----- stage 2 keeps its part ----- */

  lemma StartTransfer(cfg: Config, s: Sys, m: Move)
    requires m.ListDir? && Inv(cfg, s) && Enabled(cfg, s, m)
    ensures Transferred(cfg, Next(cfg, s, m))
  {
    if cfg.readDirOk {
      SortedDistinct(m.files);
      BeginInv(cfg, m.files, s.st);
      assert OverSet(s.capture.ws) == Everyone(cfg);
    }
  }

  lemma TransferStep(cfg: Config, s: Sys, m: Move)
    requires m.Transfer? && Branches(cfg, s) && Transferred(cfg, s) && Enabled(cfg, s, m)
    ensures Transferred(cfg, Next(cfg, s, m))
  {
    UpStep(cfg, s.up, s.st, cfg.dest0, m.um);
    if Quiet(cfg, s.up.files, cfg.dest0) { SignalStep(cfg, s.up, s.st, cfg.dest0, m.um); }
  }

  lemma ObserveStep(cfg: Config, s: Sys, m: Move)
    requires m.Observed? && Transferred(cfg, s) && Enabled(cfg, s, m)
    ensures Transferred(cfg, Next(cfg, s, m))
  {
    assert Started(cfg, s);
    if Quiet(cfg, s.up.files, cfg.dest0) { WatchSignals(cfg, s.up, s.st, cfg.dest0); }
  }

  /** An effect of another goroutine. */
  lemma OtherLog(cfg: Config, s: Sys, s': Sys, e: Effect)
    requires Transferred(cfg, s)
    requires !e.Uploaded? && !e.SentinelPosted?
    requires s'.st.trace == s.st.trace + [e]
    requires s'.st.dest == s.st.dest && s'.st.events == s.st.events && s'.st.restores == s.st.restores
    requires s'.up == s.up && s'.stage2 == s.stage2
    requires Started(cfg, s) ==> s'.st.src == s.st.src || s.up.pc == Returned
    ensures Transferred(cfg, s')
  {
    if Started(cfg, s) {
      OtherTrace(s.up, s.st.trace, e);
    } else {
      forall n ensures Times(s'.st.trace, Uploaded(n)) == 0 { TimesAppend(s.st.trace, e, Uploaded(n)); }
      TimesAppend(s.st.trace, e, SentinelPosted);
    }
  }

  lemma Stage1Transferred(cfg: Config, s: Sys, m: Move)
    requires Control(s) && Transferred(cfg, s) && Enabled(cfg, s, m)
    requires m.Clear? || m.MakeDir? || m.Chown? || m.Checkpoint?
    ensures Transferred(cfg, Next(cfg, s, m))
  {
    var s' := Next(cfg, s, m);
    if s'.st.trace != s.st.trace { OtherLog(cfg, s, s', s'.st.trace[|s.st.trace|]); }
  }

  lemma MainTransferred(cfg: Config, s: Sys, m: Move)
    requires Control(s) && Transferred(cfg, s) && Enabled(cfg, s, m)
    requires m.DeletePod? || m.Clean?
    ensures Transferred(cfg, Next(cfg, s, m))
  {
    OtherLog(cfg, s, Next(cfg, s, m), if m.Clean? then Cleaned else Deleted);
  }

  /** Transferred only looks at stage 2 and the stores. */
  lemma SameTransferred(cfg: Config, s: Sys, s': Sys)
    requires Transferred(cfg, s) && s'.st == s.st && s'.up == s.up
    requires Started(cfg, s') == Started(cfg, s)
    requires Started(cfg, s) ==> (s'.stage2 == Moving <==> s.stage2 == Moving)
    ensures Transferred(cfg, s')
  {
  }

  /** The silent moves that take part in stage 2. */
  predicate SilentStage2(m: Move) {
    m in {StartWorker, HandResult, Leave}
  }

  lemma SilentElsewhere(cfg: Config, s: Sys, m: Move)
    requires Transferred(cfg, s) && Enabled(cfg, s, m) && Silent(m) && !m.Observed? && !SilentStage2(m)
    ensures Transferred(cfg, Next(cfg, s, m))
  {
    assert Next(cfg, s, m).stage2 == s.stage2;
    SameTransferred(cfg, s, Next(cfg, s, m));
  }

  lemma SilentInStage2(cfg: Config, s: Sys, m: Move)
    requires Branches(cfg, s) && Control(s) && Transferred(cfg, s) && Enabled(cfg, s, m) && SilentStage2(m)
    ensures Transferred(cfg, Next(cfg, s, m))
  {
    SameTransferred(cfg, s, Next(cfg, s, m));
  }

  lemma TransferredStep(cfg: Config, s: Sys, m: Move)
    requires Inv(cfg, s) && Enabled(cfg, s, m)
    ensures Transferred(cfg, Next(cfg, s, m))
  {
    if m.DeletePod? || m.Clean? {
      MainTransferred(cfg, s, m);
    } else if m.ListDir? {
      StartTransfer(cfg, s, m);
    } else if m.Transfer? {
      TransferStep(cfg, s, m);
    } else if m.Observed? {
      ObserveStep(cfg, s, m);
    } else if SilentStage2(m) {
      SilentInStage2(cfg, s, m);
    } else if Silent(m) {
      SilentElsewhere(cfg, s, m);
    } else {
      Stage1Transferred(cfg, s, m);
    }
  }

  /* ----- the order of effects is kept ----- */

  lemma DeleteLastAppend(trace: seq<Effect>, e: Effect)
    requires DeleteLast(trace)
    requires e.Issued? || e.Answered? ==> Deleted !in trace
    requires e == Deleted ==> forall j :: 0 <= j < |trace| && trace[j].Issued? ==> Answered(trace[j].i) in trace
    ensures DeleteLast(trace + [e])
  {
    var t := trace + [e];
    forall k | 0 <= k < |t| && t[k] == Deleted ensures CheckpointsOver(t, k) {
      if k < |trace| {
        assert trace[k] in trace;
        assert CheckpointsOver(trace, k);
        assert t[..k] == trace[..k];
      } else {
        assert t[..k] == trace;
      }
    }
  }

  lemma CleanLastAppend(trace: seq<Effect>, files: seq<string>, e: Effect)
    requires CleanLast(trace, files)
    requires e == Cleaned ==> UploadsOver(trace, files, |trace|)
    ensures CleanLast(trace + [e], files)
  {
    var t := trace + [e];
    forall k | 0 <= k < |t| && t[k] == Cleaned ensures UploadsOver(t, files, k) {
      if k < |trace| {
        assert UploadsOver(trace, files, k);
        assert t[..k] == trace[..k];
      } else {
        assert t[..k] == trace == trace[..|trace|];
      }
    }
  }

  /** When the pod is deleted, every request issued so far was answered. */
  lemma AllAnswered(cfg: Config, s: Sys)
    requires CaptureShape(cfg, s) && Stage1Over(s)
    ensures forall j :: 0 <= j < |s.st.trace| && s.st.trace[j].Issued? ==> Answered(s.st.trace[j].i) in s.st.trace
  {
    forall j | 0 <= j < |s.st.trace| && s.st.trace[j].Issued? ensures Answered(s.st.trace[j].i) in s.st.trace {
      var i := s.st.trace[j].i;
      TimesIn(s.st.trace, Issued(i));
      TimesIn(s.st.trace, Answered(i));
      assert Issued(i) in s.st.trace;
      assert CountAt(s.capture.ws, s.st.trace, i);
    }
  }

  /** When the directory is cleaned, every upload was attempted. */
  lemma AllUploaded(cfg: Config, s: Sys)
    requires Moved(cfg, s) && s.up.pc == Returned && Times(s.st.trace, Cleaned) == 0
    ensures UploadsOver(s.st.trace, s.up.files, |s.st.trace|)
  {
    var t := s.st.trace;
    assert t[..|t|] == t;
    TimesIn(t, Cleaned);
    TimesIn(t, SentinelPosted);
    forall i | 0 <= i < |s.up.files| ensures Uploaded(s.up.files[i]) in t {
      assert AttemptAt(s.up, t, i);
      TimesIn(t, Uploaded(s.up.files[i]));
    }
  }

  lemma AppendOrdered(trace: seq<Effect>, files: seq<string>, e: Effect)
    requires DeleteLast(trace) && CleanLast(trace, files)
    requires e.Issued? || e.Answered? ==> Times(trace, Deleted) == 0
    requires e != Deleted && e != Cleaned
    ensures DeleteLast(trace + [e]) && CleanLast(trace + [e], files)
    ensures Times(trace + [e], Deleted) == Times(trace, Deleted)
    ensures Times(trace + [e], Cleaned) == Times(trace, Cleaned)
  {
    TimesIn(trace, Deleted);
    DeleteLastAppend(trace, e);
    CleanLastAppend(trace, files, e);
    TimesAppend(trace, e, Deleted);
    TimesAppend(trace, e, Cleaned);
  }

  lemma DeleteOrdered(cfg: Config, s: Sys, m: Move)
    requires m.DeletePod? && Control(s) && CaptureShape(cfg, s) && Ordered(cfg, s) && Enabled(cfg, s, m)
    ensures Ordered(cfg, Next(cfg, s, m))
  {
    AllAnswered(cfg, s);
    DeleteLastAppend(s.st.trace, Deleted);
    CleanLastAppend(s.st.trace, s.up.files, Deleted);
    TimesAppend(s.st.trace, Deleted, Deleted);
    TimesAppend(s.st.trace, Deleted, Cleaned);
  }

  lemma CleanAppend(trace: seq<Effect>, files: seq<string>)
    requires DeleteLast(trace) && CleanLast(trace, files) && UploadsOver(trace, files, |trace|)
    ensures DeleteLast(trace + [Cleaned]) && CleanLast(trace + [Cleaned], files)
    ensures Times(trace + [Cleaned], Deleted) == Times(trace, Deleted)
    ensures Times(trace + [Cleaned], Cleaned) == Times(trace, Cleaned) + 1
  {
    DeleteLastAppend(trace, Cleaned);
    CleanLastAppend(trace, files, Cleaned);
    TimesAppend(trace, Cleaned, Deleted);
    TimesAppend(trace, Cleaned, Cleaned);
  }

  lemma CleanOrdered(cfg: Config, s: Sys, m: Move)
    requires m.Clean? && Control(s) && Branches(cfg, s) && Transferred(cfg, s) && Ordered(cfg, s)
    requires Enabled(cfg, s, m)
    ensures Ordered(cfg, Next(cfg, s, m))
  {
    AllUploaded(cfg, s);
    CleanAppend(s.st.trace, s.up.files);
  }

  lemma ListOrdered(cfg: Config, s: Sys, m: Move)
    requires m.ListDir? && Control(s) && Ordered(cfg, s) && Enabled(cfg, s, m)
    ensures Ordered(cfg, Next(cfg, s, m))
  {
    TimesIn(s.st.trace, Cleaned);
  }

  lemma Stage1Ordered(cfg: Config, s: Sys, m: Move)
    requires Control(s) && Ordered(cfg, s) && Enabled(cfg, s, m)
    requires m.Clear? || m.MakeDir? || m.Chown?
    ensures Ordered(cfg, Next(cfg, s, m))
  {
    AppendOrdered(s.st.trace, s.up.files, if m.Clear? then Cleared else if m.MakeDir? then DirMade else Chowned);
  }

  lemma CheckpointOrdered(cfg: Config, s: Sys, m: Move)
    requires m.Checkpoint? && Control(s) && Ordered(cfg, s) && Enabled(cfg, s, m)
    ensures Ordered(cfg, Next(cfg, s, m))
  {
    var fm := m.m;
    if fm.Work? {
      AppendOrdered(s.st.trace, s.up.files, if s.capture.ws[fm.i].Begun? then Issued(fm.i) else Answered(fm.i));
    }
  }

  lemma TransferOrdered(cfg: Config, s: Sys, m: Move)
    requires m.Transfer? && Ordered(cfg, s) && Enabled(cfg, s, m)
    ensures Ordered(cfg, Next(cfg, s, m))
  {
    TransferLogs(cfg, s, m.um);
    var t' := StoreNext(cfg, s.up, s.st, m.um).trace;
    if t' != s.st.trace { AppendOrdered(s.st.trace, s.up.files, t'[|s.st.trace|]); }
  }

  /** The moves that log nothing and start nothing. */
  predicate Silent(m: Move) {
    m in {HandPath, CloseCheckpoints, AddWorker, StartWorker, EndRange, StartCloser, AwaitDeletion,
          HandResult, EndDrain, Leave, WaitWorkers, CloseResults, Observed}
  }

  lemma SilentOrdered(cfg: Config, s: Sys, m: Move)
    requires Control(s) && Branches(cfg, s) && Ordered(cfg, s) && Enabled(cfg, s, m) && Silent(m)
    ensures Ordered(cfg, Next(cfg, s, m))
  {
  }

  lemma OrderedStep(cfg: Config, s: Sys, m: Move)
    requires Inv(cfg, s) && Enabled(cfg, s, m)
    ensures Ordered(cfg, Next(cfg, s, m))
  {
    if m.Checkpoint? {
      CheckpointOrdered(cfg, s, m);
    } else if m.DeletePod? {
      DeleteOrdered(cfg, s, m);
    } else if m.Clean? {
      CleanOrdered(cfg, s, m);
    } else if m.ListDir? {
      ListOrdered(cfg, s, m);
    } else if m.Transfer? {
      TransferOrdered(cfg, s, m);
    } else if Silent(m) {
      SilentOrdered(cfg, s, m);
    } else {
      Stage1Ordered(cfg, s, m);
    }
  }

  /** Every step of the pipeline keeps the invariant. */
  lemma InvStep(cfg: Config, s: Sys, m: Move)
    requires Inv(cfg, s) && Enabled(cfg, s, m)
    ensures Inv(cfg, Next(cfg, s, m))
  {
    ControlStep(cfg, s, m);
    BranchesStep(cfg, s, m);
    CaptureShapeStep(cfg, s, m);
    CaptureDirStep(cfg, s, m);
    TransferredStep(cfg, s, m);
    LeftDirStep(cfg, s, m);
    OrderedStep(cfg, s, m);
  }

  lemma {:induction false} RunInv(cfg: Config, run: seq<Sys>, ms: seq<Move>, k: nat)
    requires Run(cfg, run, ms) && k < |run|
    ensures Inv(cfg, run[k])
  {
    if k == 0 {
      InitInv(cfg);
    } else {
      RunInv(cfg, run, ms, k - 1);
      InvStep(cfg, run[k - 1], ms[k - 1]);
    }
  }
}
