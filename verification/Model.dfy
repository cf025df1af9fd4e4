/**
 Vocabulary shared by the machines: what the outside world answers during one migration, the
 stores both sides work on, and the effects whose order matters.
 */
module Model {
  import opened Storage

  /** The file a successful checkpoint request leaves in the source directory. */
  datatype Snapshot = Snapshot(name: string, content: string)

  /** One migration's inputs and the outcome of every external call in it.
      - `containers`: the names returned by PrintContainerIDs (empty when that call failed).
      - `snap(i)`: what the kubelet does with the request for `containers[i]`.
      - `removeOk`, `mkdirOk`, `chownOk`, `readDirOk`, `cleanOk`: the directory operations.
      - `upload(n)`: the upload of the file named `n`; `touchOk` and `sentinel`: the sentinel's.
      - `deleteOk`: the API server's answer to the pod deletion.
      - `terminateErr`: the error result of TerminateCheckpointedPod.  The code never produces
        one (see `Termination`); the pipeline's reaction to it is modelled all the same.
      - `dest0`, `src0`: the directories before the migration. */
  datatype Config = Config(
    containers: seq<string>,
    snap: nat -> Option<Snapshot>,
    removeOk: bool, mkdirOk: bool, chownOk: bool, readDirOk: bool, cleanOk: bool,
    upload: string -> Outcome,
    touchOk: bool, sentinel: Outcome,
    deleteOk: bool, terminateErr: bool,
    src0: SourceDir, dest0: DestDir)

  datatype Effect =
    | Cleared | DirMade
    | Issued(i: nat) | Answered(i: nat)
    | Chowned
    | Deleted
    | Uploaded(name: string) | SentinelPosted
    | Cleaned

  /** `events` is the watcher's queue of create events, `restores` records the destination
      directory as it was when each restore started. */
  datatype Store = Store(
    src: SourceDir, dest: DestDir,
    events: seq<string>, restores: seq<DestDir>,
    trace: seq<Effect>)

  function Log(st: Store, e: Effect): Store {
    st.(trace := st.trace + [e])
  }

  /** How often an effect happened. */
  function Times(trace: seq<Effect>, e: Effect): nat {
    if trace == [] then 0
    else Times(trace[..|trace| - 1], e) + (if trace[|trace| - 1] == e then 1 else 0)
  }

  lemma TimesAppend(trace: seq<Effect>, e: Effect, x: Effect)
    ensures Times(trace + [e], x) == Times(trace, x) + (if x == e then 1 else 0)
  {
    assert (trace + [e])[..|trace|] == trace;
  }

  lemma {:induction false} TimesIn(trace: seq<Effect>, e: Effect)
    ensures Times(trace, e) > 0 <==> e in trace
  {
    if trace == [] {
    } else {
      TimesIn(trace[..|trace| - 1], e);
    }
  }

  /** What happens to the source directory when request `i` is answered. */
  function Answer(cfg: Config, src: SourceDir, i: nat): SourceDir {
    match cfg.snap(i)
    case None => src
    case Some(s) => src[s.name := s.content]
  }

  /** The directory holds exactly the snapshots of the containers whose request was answered. */
  ghost predicate HoldsSnapshots(cfg: Config, src: SourceDir, answered: iset<nat>) {
    && (forall n :: n in src ==>
          exists i: nat :: i in answered && i < |cfg.containers| && cfg.snap(i) == Some(Snapshot(n, src[n])))
    && (forall i: nat :: i in answered && i < |cfg.containers| && cfg.snap(i).Some? ==> cfg.snap(i).value.name in src)
  }

  predicate Below(i: nat, n: nat) { i < n }

  ghost function FirstOnes(k: nat): iset<nat> {
    iset i: nat | Below(i, k)
  }

  ghost function Everyone(cfg: Config): iset<nat> {
    FirstOnes(|cfg.containers|)
  }

  /** The kubelet gives every snapshot its own name. */
  ghost predicate DistinctSnapshots(cfg: Config) {
    forall i: nat, j: nat :: i < j < |cfg.containers| && cfg.snap(i).Some? && cfg.snap(j).Some? ==>
      cfg.snap(i).value.name != cfg.snap(j).value.name
  }

  /** Then there is only one such directory. */
  lemma SnapshotsDetermineDirectory(cfg: Config, a: SourceDir, b: SourceDir, answered: iset<nat>)
    requires DistinctSnapshots(cfg)
    requires HoldsSnapshots(cfg, a, answered) && HoldsSnapshots(cfg, b, answered)
    ensures a == b
  {
    forall n | n in a ensures n in b && a[n] == b[n] {
      var i: nat :| i in answered && i < |cfg.containers| && cfg.snap(i) == Some(Snapshot(n, a[n]));
      assert n in b;
      var j: nat :| j in answered && j < |cfg.containers| && cfg.snap(j) == Some(Snapshot(n, b[n]));
      assert i == j;
    }
    forall n | n in b ensures n in a {
      var j: nat :| j in answered && j < |cfg.containers| && cfg.snap(j) == Some(Snapshot(n, b[n]));
    }
  }

  /** The names of the snapshots of the first `k` containers. */
  function SnapshotNames(cfg: Config, k: nat): set<string> {
    if k == 0 then {}
    else SnapshotNames(cfg, k - 1) + (if cfg.snap(k - 1).Some? then {cfg.snap(k - 1).value.name} else {})
  }

  lemma {:induction false} SnapshotNamesBound(cfg: Config, k: nat)
    ensures |SnapshotNames(cfg, k)| <= k
    ensures forall i: nat :: i < k && cfg.snap(i).Some? ==> cfg.snap(i).value.name in SnapshotNames(cfg, k)
  {
    if k == 0 {
    } else {
      SnapshotNamesBound(cfg, k - 1);
    }
  }

  lemma SnapshotCount(cfg: Config, src: SourceDir, answered: iset<nat>)
    requires HoldsSnapshots(cfg, src, answered)
    ensures |src.Keys| <= |cfg.containers|
  {
    var n := |cfg.containers|;
    SnapshotNamesBound(cfg, n);
    assert src.Keys <= SnapshotNames(cfg, n);
    SubsetSize(src.Keys, SnapshotNames(cfg, n));
  }

  lemma {:induction false} SubsetSize(a: set<string>, b: set<string>)
    requires a <= b
    ensures |a| <= |b|
  {
    if a == {} {
    } else {
      var x :| x in a;
      SubsetSize(a - {x}, b - {x});
    }
  }
}
