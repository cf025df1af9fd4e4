/**
 MigratePodPipelined (controllers/migrate.go) as a transition system.  Its goroutines are the
 calling one (`main`), stage 1 (`stage1`) with its checkpoint workers (`capture`), the stage-2 worker
 (`stage2`) with its upload workers (`up`), and the closer.  Both channels have capacity 0 (the
 second because `len` of an unbuffered channel is 0), so a send and its receive are one step.
 */
module Pipeline {
  import opened FanOut
  import opened Storage
  import opened Model
  import opened Capture
  import opened Upload

  /** `Ranging`: in `for range checkpoints`; `Adding`, `Starting`: before `wg.Add(1)` and before
      `go`; `Spawning`: before the closer is started; `Deleting`, `Awaiting`: inside
      TerminateCheckpointedPod; `Draining`: in `for range migratedCheckpoints`; `Cleaning`: before
      the directory removal of stage 3. */
  datatype MainPc = Ranging | Adding | Starting | Spawning | Deleting | Awaiting | Draining | Cleaning | Exited

  /** `Offering`: at the send on `checkpoints`; `Closing`: only the deferred close is left. */
  datatype Stage1Pc = Clearing | Making | Capturing | Chowning | Offering | Closing | Ended

  /** `Handing`: at the send on `migratedCheckpoints`; `Exiting`: only `wg.Done()` is left. */
  datatype Stage2Pc = Absent | Listing | Moving | Handing | Exiting | Gone

  datatype CloserPc = Unborn | Joining | Shutting | Shut

  /** `wg` is the outer WaitGroup; `closes1` and `closes2` count the closes of the two channels. */
  datatype Sys = Sys(
    main: MainPc, stage1: Stage1Pc, capture: Fan, stage2: Stage2Pc, up: Uploader, closer: CloserPc,
    wg: int, closes1: nat, closes2: nat, podGone: bool, st: Store)

  datatype Move =
    // stage 1
    | Clear | MakeDir | Checkpoint(m: FanMove) | Chown | CloseCheckpoints
    // stage 1 sends the path, main receives it
    | HandPath
    // main
    | AddWorker | StartWorker | EndRange | StartCloser | DeletePod | AwaitDeletion | Clean | EndDrain
    // the stage-2 worker sends the path, main receives it
    | HandResult
    // stage 2
    | ListDir(files: seq<string>) | Transfer(um: UpMove) | Leave
    // closer
    | WaitWorkers | CloseResults
    // destination
    | Observed

  const NOTHING: Uploader := Begin([], map[])

  function Init(cfg: Config): Sys {
    Sys(Ranging, Clearing, Start(|cfg.containers|), Absent, NOTHING, Unborn,
        0, 0, 0, false, Store(cfg.src0, cfg.dest0, [], [], []))
  }

  ghost predicate Enabled(cfg: Config, s: Sys, m: Move) {
    match m
    case Clear => s.stage1 == Clearing
    case MakeDir => s.stage1 == Making
    case Checkpoint(fm) =>
      && s.stage1 == Capturing && FanEnabled(s.capture, fm)
      && forall i :: 0 <= i < |s.capture.ws| ==> !s.capture.ws[i].Opened?
    case Chown => s.stage1 == Chowning
    case HandPath => s.stage1 == Offering && s.main == Ranging && s.closes1 == 0
    case CloseCheckpoints => s.stage1 == Closing && s.closes1 == 0
    case AddWorker => s.main == Adding
    case StartWorker => s.main == Starting
    case EndRange => s.main == Ranging && s.closes1 > 0
    case StartCloser => s.main == Spawning
    case DeletePod => s.main == Deleting
    case AwaitDeletion => s.main == Awaiting
    case HandResult => s.stage2 == Handing && s.main == Draining && s.closes2 == 0
    case Clean => s.main == Cleaning
    case EndDrain => s.main == Draining && s.closes2 > 0
    case ListDir(files) => s.stage2 == Listing && (cfg.readDirOk ==> IsListing(files, s.st.src.Keys))
    case Transfer(um) => s.stage2 == Moving && UpEnabled(cfg, s.up, s.st, um) && !um.Watch?
    case Leave => s.stage2 == Exiting
    case WaitWorkers => s.closer == Joining && s.wg == 0
    case CloseResults => s.closer == Shutting && s.closes2 == 0
    case Observed => s.st.events != []
  }

  ghost function Next(cfg: Config, s: Sys, m: Move): Sys
    requires Enabled(cfg, s, m)
  {
    match m
    case Clear =>
      if cfg.removeOk then s.(stage1 := Making, st := Log(s.st.(src := map[]), Cleared)) else s.(stage1 := Closing)
    case MakeDir =>
      if cfg.mkdirOk then s.(stage1 := Capturing, st := Log(s.st, DirMade)) else s.(stage1 := Closing)
    case Checkpoint(fm) =>
      s.(capture := CaptureFan(s.capture, fm), st := CaptureStore(cfg, s.capture, s.st, fm),
         stage1 := if fm.Join? then Chowning else Capturing)
    case Chown =>
      if cfg.chownOk then s.(stage1 := Offering, st := Log(s.st, Chowned)) else s.(stage1 := Closing)
    case HandPath => s.(stage1 := Closing, main := Adding)
    case CloseCheckpoints => s.(stage1 := Ended, closes1 := s.closes1 + 1)
    case AddWorker => s.(main := Starting, wg := s.wg + 1)
    case StartWorker => s.(main := Ranging, stage2 := Listing)
    case EndRange => s.(main := Spawning)
    case StartCloser => s.(main := Deleting, closer := Joining)
    case DeletePod => s.(main := Awaiting, podGone := cfg.deleteOk, st := Log(s.st, Deleted))
    case AwaitDeletion => s.(main := if cfg.terminateErr then Exited else Draining)
    case HandResult => s.(stage2 := Exiting, main := Cleaning)
    case Clean =>
      s.(main := Draining, st := Log(if cfg.cleanOk then s.st.(src := map[]) else s.st, Cleaned))
    case EndDrain => s.(main := Exited)
    case ListDir(files) =>
      if cfg.readDirOk then s.(stage2 := Moving, up := Begin(files, s.st.src)) else s.(stage2 := Exiting)
    case Transfer(um) =>
      var up' := UploaderNext(cfg, s.up, s.st, um);
      s.(up := up', st := StoreNext(cfg, s.up, s.st, um), stage2 := if up'.pc == Returned then Handing else Moving)
    case Leave => s.(stage2 := Gone, wg := s.wg - 1)
    case WaitWorkers => s.(closer := Shutting)
    case CloseResults => s.(closer := Shut, closes2 := s.closes2 + 1)
    case Observed => s.(st := Observe(s.st))
  }

  /** All goroutines of the call have ended. */
  predicate AllDone(cfg: Config, s: Sys) {
    && s.main == Exited && s.stage1 == Ended && s.stage2 in {Absent, Gone} && s.closer == Shut
    && (s.capture == Start(|cfg.containers|) || s.capture.joined)
    && (s.up == NOTHING || s.up.fan.joined)
  }

  /** Some goroutine's next action is one that Go answers with a panic: a send on or a close of a
      closed channel, or a WaitGroup counter below zero. */
  predicate PanicsNext(s: Sys) {
    || (s.stage1 == Offering && s.closes1 > 0)
    || (s.stage1 == Closing && s.closes1 > 0)
    || (s.stage2 == Handing && s.closes2 > 0)
    || (s.closer == Shutting && s.closes2 > 0)
    || (s.stage2 == Exiting && s.wg <= 0)
    || DonePanics(s.capture)
    || DonePanics(s.up.fan)
  }

  /* ----- runs ----- */

  ghost predicate Run(cfg: Config, run: seq<Sys>, ms: seq<Move>) {
    && |run| == |ms| + 1
    && run[0] == Init(cfg)
    && forall k :: 0 <= k < |ms| ==> Enabled(cfg, run[k], ms[k]) && run[k + 1] == Next(cfg, run[k], ms[k])
  }

  /* ----- control invariant: who can be where ----- */

  /** Stage 1 gets as far as sending the path. */
  predicate PathSent(cfg: Config) {
    cfg.removeOk && cfg.mkdirOk && cfg.chownOk
  }

  /** Stage 2 uploads. */
  predicate Uploads(cfg: Config) {
    PathSent(cfg) && cfg.readDirOk
  }

  predicate Stage1Over(s: Sys) {
    s.stage1 == Closing || s.stage1 == Ended
  }

  predicate PastRange(s: Sys) {
    s.main !in {Ranging, Adding, Starting}
  }

  /** Program counters, channel and WaitGroup state fit together. */
  ghost predicate Control(s: Sys) {
    && s.closes1 == (if s.stage1 == Ended then 1 else 0)
    && s.closes2 == (if s.closer == Shut then 1 else 0)
    && s.wg == (if s.main == Starting then 1 else 0) + (if s.stage2 in {Absent, Gone} then 0 else 1)
    && (!Stage1Over(s) ==> s.main == Ranging && s.stage2 == Absent)
    && (s.main in {Adding, Starting} ==> s.stage2 == Absent)
    && (PastRange(s) ==> s.stage1 == Ended)
    && (s.closer != Unborn <==> s.main in {Deleting, Awaiting, Draining, Cleaning, Exited})
    && (s.closer in {Shutting, Shut} ==> s.stage2 in {Absent, Gone})
    && (s.main == Cleaning ==> s.stage2 in {Exiting, Gone})
  }

  /** Which ways were taken fits the outcomes of the external calls. */
  ghost predicate Branches(cfg: Config, s: Sys) {
    && (s.stage1 in {Making, Capturing, Chowning, Offering} ==> cfg.removeOk)
    && (s.stage1 in {Capturing, Chowning, Offering} ==> cfg.mkdirOk)
    && (s.stage1 == Offering ==> cfg.chownOk)
    && (Stage1Over(s) && PathSent(cfg) ==> s.main in {Adding, Starting} || s.stage2 != Absent)
    && (Stage1Over(s) && !PathSent(cfg) ==> s.main !in {Adding, Starting} && s.stage2 == Absent)
    && (s.stage2 in {Moving, Handing} ==> cfg.readDirOk)
    && (s.main == Cleaning ==> cfg.readDirOk)
    && (s.main in {Draining, Cleaning} ==> !cfg.terminateErr)
    && (s.main == Exited && !cfg.terminateErr ==> s.closes2 > 0)
    && (s.stage2 in {Exiting, Gone} && cfg.terminateErr ==> !cfg.readDirOk)
    && (s.podGone <==> cfg.deleteOk && s.main in {Awaiting, Draining, Cleaning, Exited})
  }

  /** The moves of stage 1 and of main up to the start of the closer. */
  predicate EarlyMove(m: Move) {
    || m.Clear? || m.MakeDir? || m.Checkpoint? || m.Chown? || m.HandPath? || m.CloseCheckpoints?
    || m.AddWorker? || m.StartWorker? || m.EndRange?
  }

  lemma ControlEarly(cfg: Config, s: Sys, m: Move)
    requires Control(s) && Enabled(cfg, s, m) && EarlyMove(m)
    ensures Control(Next(cfg, s, m))
  {
  }

  lemma ControlLate(cfg: Config, s: Sys, m: Move)
    requires Control(s) && Enabled(cfg, s, m) && !EarlyMove(m)
    ensures Control(Next(cfg, s, m))
  {
  }

  lemma ControlStep(cfg: Config, s: Sys, m: Move)
    requires Control(s) && Enabled(cfg, s, m)
    ensures Control(Next(cfg, s, m))
  {
    if EarlyMove(m) { ControlEarly(cfg, s, m); } else { ControlLate(cfg, s, m); }
  }

  lemma BranchesEarly(cfg: Config, s: Sys, m: Move)
    requires Control(s) && Branches(cfg, s) && Enabled(cfg, s, m) && EarlyMove(m)
    ensures Branches(cfg, Next(cfg, s, m))
  {
  }

  lemma BranchesLate(cfg: Config, s: Sys, m: Move)
    requires Control(s) && Branches(cfg, s) && Enabled(cfg, s, m) && !EarlyMove(m)
    ensures Branches(cfg, Next(cfg, s, m))
  {
  }

  lemma BranchesStep(cfg: Config, s: Sys, m: Move)
    requires Control(s) && Branches(cfg, s) && Enabled(cfg, s, m)
    ensures Branches(cfg, Next(cfg, s, m))
  {
    if EarlyMove(m) { BranchesEarly(cfg, s, m); } else { BranchesLate(cfg, s, m); }
  }
}
