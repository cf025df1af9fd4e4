/**
 From the source pod to the restored one: whatever the schedule of the pipeline, the directory a
 restore finds holds exactly what was there before, the snapshots that arrived and the sentinel, so
 the restore recovers the pod's name if one of the snapshots comes first.
 */
module EndToEnd {
  import opened Storage
  import opened Model
  import opened Text
  import opened FileNames
  import opened Upload
  import opened Sentinel
  import Pipeline
  import opened PipelineInv
  import opened PipelineTheorems
  import Restore

  /** The kubelet names the snapshots after the pod; namespace, container and date are open. */
  ghost predicate SnapshotsOf(cfg: Config, pod: string) {
    && Extractable(pod)
    && forall i: nat :: i < |cfg.containers| && cfg.snap(i).Some? ==> NamesPod(cfg.snap(i).value.name, pod)
  }

  /** Snapshot `i` reaches the destination, be it cut short. */
  predicate Arrives(cfg: Config, i: nat) {
    i < |cfg.containers| && cfg.snap(i).Some? && cfg.upload(cfg.snap(i).value.name).Creates()
  }

  ghost predicate SomethingArrives(cfg: Config) {
    exists i: nat :: Arrives(cfg, i)
  }

  predicate HasName(cfg: Config, i: nat, n: string) {
    Arrives(cfg, i) && cfg.snap(i).value.name == n
  }

  /** `n` is the name of a snapshot that arrived. */
  ghost predicate Arrived(cfg: Config, n: string) {
    exists i: nat :: HasName(cfg, i, n)
  }

  /* ----- what a restore finds ----- */

  /** The names in the directory: the sentinel, what was there before, what arrived. */
  ghost predicate HoldsExactly(cfg: Config, found: DestDir) {
    forall n :: n in found <==> n == SENTINEL || n in cfg.dest0 || Arrived(cfg, n)
  }

  lemma ListedArrives(cfg: Config, u: Uploader, n: string)
    requires HoldsSnapshots(cfg, u.listed, Everyone(cfg)) && IsListing(u.files, u.listed.Keys)
    ensures Arrived(cfg, n) <==> n in u.files && cfg.upload(n).Creates()
  {
    if n in u.files && cfg.upload(n).Creates() {
      var i: nat :| i in Everyone(cfg) && i < |cfg.containers| && cfg.snap(i) == Some(Snapshot(n, u.listed[n]));
      assert HasName(cfg, i, n);
    }
    if Arrived(cfg, n) {
      var i: nat :| HasName(cfg, i, n);
      assert i in Everyone(cfg);
      assert n in u.listed;
    }
  }

  lemma UploadedNames(cfg: Config, u: Uploader, n: string)
    requires Distinct(u.files) && forall i :: 0 <= i < |u.files| ==> u.files[i] in u.listed
    ensures Get(UploadAll(cfg.dest0, u.listed, u.files, cfg.upload), n).Some? <==>
            n in cfg.dest0 || (n in u.files && cfg.upload(n).Creates())
  {
    UploadAllAt(cfg.dest0, u.listed, u.files, cfg.upload);
    if n in u.files {
      var x: nat :| x < |u.files| && u.files[x] == n;
    }
  }

  lemma FoundNames(cfg: Config, u: Uploader, found: DestDir)
    requires HoldsSnapshots(cfg, u.listed, Everyone(cfg)) && IsListing(u.files, u.listed.Keys)
    requires FindsUploads(cfg, u, cfg.dest0, found)
    ensures HoldsExactly(cfg, found)
  {
    SortedDistinct(u.files);
    forall n ensures n in found <==> n == SENTINEL || n in cfg.dest0 || Arrived(cfg, n) {
      ListedArrives(cfg, u, n);
      UploadedNames(cfg, u, n);
      assert n != SENTINEL ==> Get(found, n) == Get(UploadAll(cfg.dest0, u.listed, u.files, cfg.upload), n);
    }
  }

  /** The directory a restore finds, in every run and for every destination to begin with. */
  lemma RestoreFindsExactly(cfg: Config, run: seq<Pipeline.Sys>, ms: seq<Pipeline.Move>, k: nat, j: nat)
    requires Pipeline.Run(cfg, run, ms) && k < |run| && j < |run[k].st.restores| && NoAlarms(cfg)
    ensures HoldsExactly(cfg, run[k].st.restores[j])
  {
    RunInv(cfg, run, ms, k);
    assert Started(cfg, run[k]);
    QuietListing(cfg, run[k]);
    FoundNames(cfg, run[k].up, run[k].st.restores[j]);
  }

  /** With an empty destination to begin with, the listing a restore reads is that of one pod's
      checkpoints, closed by the sentinel. */
  lemma RestoreReadsOnePod(cfg: Config, run: seq<Pipeline.Sys>, ms: seq<Pipeline.Move>, k: nat, j: nat,
                           pod: string, files: seq<string>)
    requires Pipeline.Run(cfg, run, ms) && k < |run| && j < |run[k].st.restores| && NoAlarms(cfg)
    requires cfg.dest0 == map[] && SnapshotsOf(cfg, pod) && SomethingArrives(cfg)
    requires IsListing(files, run[k].st.restores[j].Keys)
    ensures Restore.OnePodListing(files, pod, run[k].st.restores[j].Keys - {SENTINEL})
  {
    RestoreFindsExactly(cfg, run, ms, k, j);
    OnePodFound(cfg, run[k].st.restores[j], pod, files);
  }

  lemma OnePodFound(cfg: Config, found: DestDir, pod: string, files: seq<string>)
    requires HoldsExactly(cfg, found) && cfg.dest0 == map[] && SnapshotsOf(cfg, pod) && SomethingArrives(cfg)
    requires IsListing(files, found.Keys)
    ensures Restore.OnePodListing(files, pod, found.Keys - {SENTINEL})
  {
    var names := found.Keys - {SENTINEL};
    assert names + {SENTINEL} == found.Keys;
    var i: nat :| Arrives(cfg, i);
    var n := cfg.snap(i).value.name;
    assert HasName(cfg, i, n);
    Restore.BeforeSentinel(n, pod);
    assert n in names;
    forall m | m in names ensures NamesPod(m, pod) {
      var h: nat :| HasName(cfg, h, m);
    }
  }

  /** The listing's first name decides the pod's. */
  lemma FirstName(cfg: Config, found: DestDir, pod: string, files: seq<string>)
    requires HoldsExactly(cfg, found) && SnapshotsOf(cfg, pod) && IsListing(files, found.Keys)
    ensures files != []
    ensures Arrived(cfg, files[0]) ==> RetrievePodName(files[0]) == pod
    ensures cfg.dest0 == map[] ==> (Arrived(cfg, files[0]) <==> SomethingArrives(cfg))
    ensures cfg.dest0 == map[] && !SomethingArrives(cfg) ==> RetrievePodName(files[0]) == ""
  {
    assert SENTINEL in files;
    if Arrived(cfg, files[0]) {
      var i: nat :| HasName(cfg, i, files[0]);
      assert !Contains("", MARK) && "" + files[0] == files[0];
      PodOfName("", files[0], pod);
    }
    if cfg.dest0 == map[] {
      if SomethingArrives(cfg) {
        OnePodFound(cfg, found, pod, files);
        Restore.OnePodShape(files, pod, found.Keys - {SENTINEL});
      } else {
        assert files[0] in found && files[0] == SENTINEL;
        PodNameIsTheGroup(SENTINEL);
      }
    }
  }

  /* ----- the restore ----- */

  predicate GoesThrough(s: Restore.Steps) {
    s.chmod && !Restore.TwoFail(s)
  }

  /** The extraction of the container name panics. */
  predicate Panics(n: string) {
    n != SENTINEL && ContainerName(WATCHED + n) == OutOfRange
  }

  /** The file named `n` does not stop the loop. */
  predicate Passes(steps: string -> Restore.Steps, n: string) {
    n == SENTINEL || (!Panics(n) && GoesThrough(steps(n)))
  }

  /** File `i` is the first that stops it. */
  predicate StopsAt(files: seq<string>, steps: string -> Restore.Steps, i: nat)
    requires i < |files|
  {
    !Passes(steps, files[i]) && forall j :: 0 <= j < i ==> Passes(steps, files[j])
  }

  /** ... and what becomes of the restore: a panic before anything is done with the file, an error if
      its chmod fails, else it never returns. */
  function StoppedBy(steps: string -> Restore.Steps, n: string): Restore.Restored {
    if Panics(n) then Restore.Panicked else if steps(n).chmod then Restore.Forever else Restore.Error
  }

  /** How a body treats the file named `n`. */
  ghost predicate Treats(body: string -> Restore.Processed, steps: string -> Restore.Steps, n: string) {
    if Passes(steps, n) then body(n).Done?
    else !body(n).Done? && Restore.AsResult(body(n)) == StoppedBy(steps, n)
  }

  lemma CodeTreats(steps: string -> Restore.Steps, n: string)
    ensures Treats(Restore.Processing(WATCHED, steps), steps, n)
  {
    assert Restore.Processing(WATCHED, steps)(n) == Restore.Outcome(n, WATCHED + n, steps(n));
  }

  lemma ProcessedExactly(files: seq<string>, steps: string -> Restore.Steps, body: string -> Restore.Processed)
    requires forall n :: Treats(body, steps, n)
    ensures Restore.AllDone(files, body, |files|) <==> forall n :: n in files ==> Passes(steps, n)
    ensures forall i: nat :: i < |files| && StopsAt(files, steps, i) ==>
              && Restore.AllDone(files, body, i) && !body(files[i]).Done?
              && Restore.AsResult(body(files[i])) == StoppedBy(steps, files[i])
  {
    assert forall i: nat :: i < |files| ==> files[i] in files && Treats(body, steps, files[i]);
  }

  /** End-to-end identity, for every run and every destination to begin with.  The restored pod has
      the name that the first listed file yields, which is the migrated pod's if that file is a
      snapshot; if the destination was empty, it is one exactly if any snapshot arrived, and otherwise
      the restore ends in an error.  The creation of the pod, which has no containers, is reached
      exactly if no file stops the loop; otherwise the first one that does decides. */
  method RestoreAfterMigration(
    files: seq<string>, steps: string -> Restore.Steps, createOk: bool,
    ghost cfg: Config, ghost run: seq<Pipeline.Sys>, ghost ms: seq<Pipeline.Move>, ghost k: nat, ghost j: nat,
    ghost pod: string)
    returns (r: Restore.Restored, reached: bool)
    requires Pipeline.Run(cfg, run, ms) && k < |run| && j < |run[k].st.restores|
    requires NoAlarms(cfg) && SnapshotsOf(cfg, pod) && IsListing(files, run[k].st.restores[j].Keys)
    ensures files != []
    ensures Arrived(cfg, files[0]) ==> RetrievePodName(files[0]) == pod
    ensures cfg.dest0 == map[] ==> (Arrived(cfg, files[0]) <==> SomethingArrives(cfg))
    ensures cfg.dest0 == map[] && !SomethingArrives(cfg) ==> r == Restore.Error
    ensures reached <==> RetrievePodName(files[0]) != "" && forall n :: n in files ==> Passes(steps, n)
    ensures reached ==>
              r == if createOk then Restore.Created(Restore.Pod(RetrievePodName(files[0]), [])) else Restore.Error
    ensures RetrievePodName(files[0]) == "" ==> r == Restore.Error
    ensures forall i: nat :: RetrievePodName(files[0]) != "" && i < |files| && StopsAt(files, steps, i) ==>
              r == if Panics(files[i]) then Restore.Panicked
                   else if !steps(files[i]).chmod then Restore.Error
                   else Restore.Forever
  {
    RestoreFindsExactly(cfg, run, ms, k, j);
    FirstName(cfg, run[k].st.restores[j], pod, files);
    forall n ensures Treats(Restore.Processing(WATCHED, steps), steps, n) { CodeTreats(steps, n); }
    ProcessedExactly(files, steps, Restore.Processing(WATCHED, steps));
    r, reached := Restore.BuildahRestorePipelined(files, WATCHED, steps, createOk);
  }

  /* ----- which checkpoints panic ----- */

  lemma WatchedHasNoHyphen()
    ensures '-' !in WATCHED
  {
    assert WATCHED == ['/', 'c', 'h', 'e', 'c', 'k', 'p', 'o', 'i', 'n', 't', 's', '/'];
  }

  lemma WatchedHasNoMark()
    ensures !Contains(WATCHED, MARK)
  {
    WatchedHasNoHyphen();
    assert MARK[|MARK| - 1] == '-';
    forall i ensures !At(WATCHED, MARK, i) {
      if At(WATCHED, MARK, i) { AtChar(WATCHED, MARK, i, |MARK| - 1); }
    }
  }

  /** A checkpoint of `pod` makes the watcher's restore panic exactly if the pod's name begins with
      "2024-" and no later part of the file name is "2024". */
  lemma WatcherPanicsExactly(pod: string, rest: string)
    requires Extractable(pod)
    ensures Panics(MARK + pod + "_" + rest) <==>
            YEAR + "-" <= pod && YEAR !in Split(pod[|YEAR| + 1..] + "_" + rest)
  {
    WatchedHasNoHyphen();
    var n := MARK + pod + "_" + rest;
    assert n[0] == MARK[0] == 'c' && SENTINEL[0] == 'd';
    assert WATCHED + n == WATCHED + MARK + pod + "_" + rest;
    PodPanicsExactly(WATCHED, pod, rest);
  }

  /** So a checkpoint taken in 2024 passes exactly if its chmod works and at most one step fails. */
  lemma DatedPasses(steps: string -> Restore.Steps, c: CheckpointName)
    requires WellFormed(c)
    ensures Passes(steps, FileName(c)) <==> GoesThrough(steps(FileName(c)))
  {
    WatchedHasNoMark();
    FileNameRoundTrip(WATCHED, c);
    assert FileName(c)[0] == MARK[0] == 'c' && SENTINEL[0] == 'd';
  }
}
