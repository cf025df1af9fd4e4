/**
 BuildahRestoreParallelized (controllers/restore.go): one goroutine per file, all of them assigning
 the variable `podName` and appending to the variable `containersList` without a lock.  The pod gets
 the name assigned last and the list stored last.  An assignment is one step; an append is two, one
 that reads the list and one that stores the longer list.
 */
module ParallelRestore {
  import opened FanOut
  import opened Storage
  import opened Restore
  import opened Text
  import opened FileNames

  /** The workers and the shared variables.  `list` says whose containers the container list holds;
      `read[i]` is the list as worker `i` read it for its append. */
  datatype Pool = Pool(fan: Fan, podName: string, list: seq<nat>, read: seq<seq<nat>>)

  /** The name a worker assigns: a failed one assigns the empty string. */
  function Assigned(p: Processed): string {
    match p case Done(_, name) => name case _ => ""
  }

  predicate Contributes(p: Processed) {
    p.Done? && p.containers != []
  }

  /** What worker `i` appends. */
  function Own(results: seq<Processed>, i: nat): seq<nat>
    requires i < |results|
  {
    if Contributes(results[i]) then [i] else []
  }

  /** A call that blocks or panics does not come back. */
  predicate Returns(p: Processed) {
    p.Done? || p.Failed?
  }

  function Init(n: nat): Pool {
    Pool(Start(n), "", [], seq(n, i => []))
  }

  /** `results[i]` is what processFile comes to for file `i`. */
  predicate Enabled(results: seq<Processed>, s: Pool, m: FanMove) {
    && |s.fan.ws| == |s.read| == |results| && FanEnabled(s.fan, m)
    && (m.Work? && s.fan.ws[m.i].Begun? ==> Returns(results[m.i]))
  }

  function Next(results: seq<Processed>, s: Pool, m: FanMove): Pool
    requires Enabled(results, s, m)
  {
    match m
    case Work(i) =>
      (match s.fan.ws[i]
       case Begun => s.(fan := Advance(s.fan, i, Underway), podName := Assigned(results[i]))
       case Underway => s.(fan := Advance(s.fan, i, Opened), read := s.read[i := s.list])
       case Opened => s.(fan := Advance(s.fan, i, Leaving), list := s.read[i] + Own(results, i))
       case Leaving => s.(fan := Advance(s.fan, i, Finished)))
    case _ => s.(fan := Spawn(s.fan, m))
  }

  ghost predicate Run(results: seq<Processed>, run: seq<Pool>, ms: seq<FanMove>) {
    && |run| == |ms| + 1 && run[0] == Init(|results|)
    && forall k :: 0 <= k < |ms| ==> Enabled(results, run[k], ms[k]) && run[k + 1] == Next(results, run[k], ms[k])
  }

  /** The function has got past its Wait. */
  ghost predicate Ends(results: seq<Processed>, run: seq<Pool>, ms: seq<FanMove>) {
    Run(results, run, ms) && run[|ms|].fan.joined
  }

  /* ----- what every run keeps ----- */

  /** The worker has assigned the name. */
  predicate Named(p: Phase) {
    p.Underway? || p.Opened? || p.Over()
  }

  /** Workers whose call does not come back assign nothing, and the variable holds the name of a
      worker that has assigned it. */
  ghost predicate NameInv(results: seq<Processed>, s: Pool)
    requires |s.fan.ws| == |results|
  {
    && (forall i :: 0 <= i < |results| && Named(s.fan.ws[i]) ==> Returns(results[i]))
    && ((exists i :: 0 <= i < |results| && Named(s.fan.ws[i])) ==>
          exists i :: 0 <= i < |results| && Named(s.fan.ws[i]) && s.podName == Assigned(results[i]))
  }

  /** A list of workers that have appended their container, none of them twice. */
  ghost predicate Sound(results: seq<Processed>, ws: seq<Phase>, list: seq<nat>)
    requires |ws| == |results|
  {
    && (forall k :: 0 <= k < |list| ==> list[k] < |ws| && ws[list[k]].Over() && Contributes(results[list[k]]))
    && (forall j, k :: 0 <= j < k < |list| ==> list[j] != list[k])
  }

  /** A worker on its own loses nothing. */
  ghost predicate AloneInv(results: seq<Processed>, s: Pool)
    requires |s.fan.ws| == |s.read| == |results|
  {
    |results| == 1 ==>
      && s.list == (if s.fan.ws[0].Over() then Own(results, 0) else [])
      && (s.fan.ws[0].Opened? ==> s.read[0] == [])
  }

  ghost predicate ListInv(results: seq<Processed>, s: Pool)
    requires |s.fan.ws| == |s.read| == |results|
  {
    && Sound(results, s.fan.ws, s.list)
    && (forall i :: 0 <= i < |s.read| && s.fan.ws[i].Opened? ==> Sound(results, s.fan.ws, s.read[i]))
  }

  ghost predicate Inv(results: seq<Processed>, s: Pool) {
    && FanInv(s.fan) && |s.fan.ws| == |s.read| == |results|
    && NameInv(results, s) && ListInv(results, s) && AloneInv(results, s)
  }

  lemma NameStep(results: seq<Processed>, s: Pool, m: FanMove)
    requires FanInv(s.fan) && |s.fan.ws| == |results| && NameInv(results, s) && Enabled(results, s, m)
    ensures NameInv(results, Next(results, s, m))
  {
    var s' := Next(results, s, m);
    if m.Work? && s.fan.ws[m.i].Begun? {
      assert Named(s'.fan.ws[m.i]);
    } else {
      assert forall i :: 0 <= i < |results| ==> (Named(s'.fan.ws[i]) <==> Named(s.fan.ws[i]));
    }
  }

  /** Every worker that is over stays so. */
  predicate Later(ws: seq<Phase>, ws': seq<Phase>) {
    |ws| == |ws'| && forall i :: 0 <= i < |ws| && ws[i].Over() ==> ws'[i].Over()
  }

  lemma LaterStep(results: seq<Processed>, s: Pool, m: FanMove)
    requires FanInv(s.fan) && Enabled(results, s, m)
    ensures Later(s.fan.ws, Next(results, s, m).fan.ws)
  {
  }

  lemma SoundLater(results: seq<Processed>, ws: seq<Phase>, ws': seq<Phase>, list: seq<nat>)
    requires |ws| == |results| && Later(ws, ws') && Sound(results, ws, list)
    ensures Sound(results, ws', list)
  {
  }

  lemma SoundAppend(results: seq<Processed>, ws: seq<Phase>, list: seq<nat>, i: nat)
    requires |ws| == |results| && i < |ws| && Sound(results, ws, list) && !ws[i].Over()
    ensures Sound(results, ws[i := Leaving], list + Own(results, i))
  {
  }

  lemma ListStep(results: seq<Processed>, s: Pool, m: FanMove)
    requires FanInv(s.fan) && |s.fan.ws| == |s.read| == |results| && ListInv(results, s) && Enabled(results, s, m)
    ensures ListInv(results, Next(results, s, m))
  {
    var s' := Next(results, s, m);
    LaterStep(results, s, m);
    if m.Work? && s.fan.ws[m.i].Opened? {
      SoundAppend(results, s.fan.ws, s.read[m.i], m.i);
    } else {
      SoundLater(results, s.fan.ws, s'.fan.ws, s.list);
    }
    forall i | 0 <= i < |s'.read| && s'.fan.ws[i].Opened? ensures Sound(results, s'.fan.ws, s'.read[i]) {
      SoundLater(results, s.fan.ws, s'.fan.ws, s'.read[i]);
    }
  }

  lemma InvStep(results: seq<Processed>, s: Pool, m: FanMove)
    requires Inv(results, s) && Enabled(results, s, m)
    ensures Inv(results, Next(results, s, m))
  {
    if m.Work? {
      AdvanceInv(s.fan, m.i, Next(results, s, m).fan.ws[m.i]);
    } else {
      SpawnInv(s.fan, m);
    }
    NameStep(results, s, m);
    ListStep(results, s, m);
  }

  lemma {:induction false} RunInv(results: seq<Processed>, run: seq<Pool>, ms: seq<FanMove>, k: nat)
    requires Run(results, run, ms) && k < |run|
    ensures Inv(results, run[k])
  {
    if k == 0 {
      StartInv(|results|);
    } else {
      RunInv(results, run, ms, k - 1);
      InvStep(results, run[k - 1], ms[k - 1]);
    }
  }

  /** When the function gets past its Wait, every worker came back and the pod name is one that some
      worker assigned. */
  lemma NameIsSomeWorkers(results: seq<Processed>, run: seq<Pool>, ms: seq<FanMove>)
    requires Ends(results, run, ms) && results != []
    ensures forall i :: 0 <= i < |results| ==> Returns(results[i])
    ensures exists i :: 0 <= i < |results| && run[|ms|].podName == Assigned(results[i])
  {
    RunInv(results, run, ms, |ms|);
    assert Named(run[|ms|].fan.ws[0]);
  }

  /** When it gets there: a run that cannot go on is past the Wait exactly if every call of processFile
      comes back.  A blocked one leaves the function waiting for ever. */
  lemma EndsExactly(results: seq<Processed>, run: seq<Pool>, ms: seq<FanMove>)
    requires Run(results, run, ms) && forall m :: !Enabled(results, run[|ms|], m)
    ensures Ends(results, run, ms) <==> forall i :: 0 <= i < |results| ==> Returns(results[i])
  {
    var s := run[|ms|];
    RunInv(results, run, ms, |ms|);
    if s.fan.joined {
      assert forall i :: 0 <= i < |results| ==> Named(s.fan.ws[i]);
    } else {
      var m := FanProgress(s.fan);
      assert !Enabled(results, s, m);
    }
  }

  /** The container list never holds anything but containers the workers made, and none twice. */
  lemma ContainersAreSomeWorkers(results: seq<Processed>, run: seq<Pool>, ms: seq<FanMove>, k: nat)
    requires Run(results, run, ms) && k < |run|
    ensures forall w :: w in run[k].list ==> w < |results| && Contributes(results[w])
    ensures forall i, j :: 0 <= i < j < |run[k].list| ==> run[k].list[i] != run[k].list[j]
  {
    RunInv(results, run, ms, k);
  }

  /* ----- schedules ----- */

  lemma Then(results: seq<Processed>, run: seq<Pool>, ms: seq<FanMove>, m: FanMove)
    returns (run': seq<Pool>, ms': seq<FanMove>)
    requires Run(results, run, ms) && Enabled(results, run[|ms|], m)
    ensures Run(results, run', ms') && run'[|ms'|] == Next(results, run[|ms|], m)
  {
    run', ms' := run + [Next(results, run[|ms|], m)], ms + [m];
  }

  lemma {:induction false} StartAll(results: seq<Processed>, k: nat) returns (run: seq<Pool>, ms: seq<FanMove>)
    requires k <= |results|
    ensures Run(results, run, ms)
    ensures run[|ms|] == Init(|results|).(fan := FirstBegun(|results|, k))
  {
    FirstBegunNext(|results|, if k == 0 then 0 else k - 1);
    if k == 0 {
      run, ms := [Init(|results|)], [];
    } else {
      run, ms := StartAll(results, k - 1);
      run, ms := Then(results, run, ms, Add);
      run, ms := Then(results, run, ms, Go);
    }
  }

  /** Worker `i` from start to end without interruption. */
  lemma WorkThrough(results: seq<Processed>, run: seq<Pool>, ms: seq<FanMove>, i: nat)
    returns (run': seq<Pool>, ms': seq<FanMove>)
    requires Run(results, run, ms) && i < |results| && Returns(results[i])
    requires var s := run[|ms|]; |s.fan.ws| == |s.read| == |results| && s.fan.ws[i].Begun?
    ensures Run(results, run', ms')
    ensures var s, s' := run[|ms|], run'[|ms'|];
            && s'.fan == s.fan.(wg := s.fan.wg - 1, ws := s.fan.ws[i := Finished])
            && s'.podName == Assigned(results[i])
            && s'.read == s.read[i := s.list]
  {
    var ws := run[|ms|].fan.ws;
    run', ms' := Then(results, run, ms, Work(i));
    run', ms' := Then(results, run', ms', Work(i));
    run', ms' := Then(results, run', ms', Work(i));
    run', ms' := Then(results, run', ms', Work(i));
    assert ws[i := Underway][i := Opened][i := Leaving][i := Finished] == ws[i := Finished];
  }

  /** All workers are started; `last` is at `p`, the others below `k` are finished. */
  function AllBut(n: nat, last: nat, p: Phase, k: nat): Fan
    requires last < n
  {
    Fan(n, false, false, false, n - (if last < k then k - 1 else k),
        seq(n, i => if i == last then p else if i < k then Finished else Begun))
  }

  /** From a state in which only `last` has moved, let the others run one after the other. */
  lemma {:induction false} FinishOthers(results: seq<Processed>, run: seq<Pool>, ms: seq<FanMove>,
                                        last: nat, p: Phase, k: nat)
    returns (run': seq<Pool>, ms': seq<FanMove>)
    requires last < |results| && k <= |results| && forall i :: 0 <= i < |results| ==> Returns(results[i])
    requires Run(results, run, ms) && |run[|ms|].read| == |results|
    requires run[|ms|].fan == AllBut(|results|, last, p, 0)
    ensures Run(results, run', ms') && |run'[|ms'|].read| == |results|
    ensures run'[|ms'|].fan == AllBut(|results|, last, p, k)
    ensures run'[|ms'|].read[last] == run[|ms|].read[last]
  {
    if k == 0 {
      run', ms' := run, ms;
    } else {
      run', ms' := FinishOthers(results, run, ms, last, p, k - 1);
      if k - 1 != last {
        run', ms' := WorkThrough(results, run', ms', k - 1);
      }
      assert run'[|ms'|].fan.ws == AllBut(|results|, last, p, k).ws;
    }
  }

  lemma JoinAll(results: seq<Processed>, run: seq<Pool>, ms: seq<FanMove>) returns (run': seq<Pool>, ms': seq<FanMove>)
    requires Run(results, run, ms) && |run[|ms|].fan.ws| == |run[|ms|].read| == |results|
    requires var f := run[|ms|].fan; f.next == |f.ws| && !f.added && !f.waiting && !f.joined && f.wg == 0
    ensures Ends(results, run', ms')
    ensures run'[|ms'|].podName == run[|ms|].podName && run'[|ms'|].list == run[|ms|].list
  {
    run', ms' := Then(results, run, ms, Wait);
    run', ms' := Then(results, run', ms', Join);
  }

  /** Any worker can be the last to assign. */
  lemma AnyNameIsPossible(results: seq<Processed>, last: nat) returns (run: seq<Pool>, ms: seq<FanMove>)
    requires last < |results|
    requires forall i :: 0 <= i < |results| ==> Returns(results[i])
    ensures Ends(results, run, ms) && run[|ms|].podName == Assigned(results[last])
  {
    run, ms := StartAll(results, |results|);
    assert run[|ms|].fan.ws == AllBut(|results|, last, Begun, 0).ws;
    run, ms := FinishOthers(results, run, ms, last, Begun, |results|);
    run, ms := WorkThrough(results, run, ms, last);
    run, ms := JoinAll(results, run, ms);
  }

  /** Any worker can store a list without any container but its own: it reads the empty list, lets
      all others finish, and stores. */
  lemma OthersCanBeLost(results: seq<Processed>, last: nat) returns (run: seq<Pool>, ms: seq<FanMove>)
    requires last < |results|
    requires forall i :: 0 <= i < |results| ==> Returns(results[i])
    ensures Ends(results, run, ms) && run[|ms|].list == Own(results, last)
  {
    run, ms := StartAll(results, |results|);
    run, ms := Then(results, run, ms, Work(last));
    run, ms := Then(results, run, ms, Work(last));
    assert run[|ms|].fan.ws == AllBut(|results|, last, Opened, 0).ws;
    run, ms := FinishOthers(results, run, ms, last, Opened, |results|);
    run, ms := Then(results, run, ms, Work(last));
    run, ms := Then(results, run, ms, Work(last));
    run, ms := JoinAll(results, run, ms);
  }

  /* ----- what is sure ----- */

  /** Some run ends with the pod named `pod`. */
  ghost predicate CanEnd(results: seq<Processed>, pod: string) {
    exists run: seq<Pool>, ms: seq<FanMove> :: Ends(results, run, ms) && run[|ms|].podName == pod
  }

  ghost predicate SurelyNamed(results: seq<Processed>, pod: string) {
    forall run: seq<Pool>, ms: seq<FanMove> :: Ends(results, run, ms) ==> run[|ms|].podName == pod
  }

  /** The restored pod is sure to get the name `pod` exactly when every worker assigns that name.
      A listing that triggered a restore contains the sentinel, whose worker assigns "dummy". */
  lemma NameIsSureExactly(results: seq<Processed>, pod: string)
    requires results != [] && forall i :: 0 <= i < |results| ==> Returns(results[i])
    ensures SurelyNamed(results, pod) <==> forall i :: 0 <= i < |results| ==> Assigned(results[i]) == pod
  {
    if forall i :: 0 <= i < |results| ==> Assigned(results[i]) == pod {
      forall run: seq<Pool>, ms: seq<FanMove> | Ends(results, run, ms) ensures run[|ms|].podName == pod {
        NameIsSomeWorkers(results, run, ms);
      }
    } else {
      var i :| 0 <= i < |results| && Assigned(results[i]) != pod;
      var run, ms := AnyNameIsPossible(results, i);
      assert Ends(results, run, ms) && run[|ms|].podName != pod;
    }
  }

  /** A worker whose file failed can leave the pod without a name. */
  lemma FailureCanUnname(results: seq<Processed>, i: nat)
    requires i < |results| && results[i].Failed? && forall j :: 0 <= j < |results| ==> Returns(results[j])
    ensures CanEnd(results, "")
  {
    var run, ms := AnyNameIsPossible(results, i);
    assert Ends(results, run, ms);
  }

  /** Every container made by a worker is in the list. */
  ghost predicate Complete(results: seq<Processed>, list: seq<nat>) {
    forall i: nat :: i < |results| && Contributes(results[i]) ==> i in list
  }

  ghost predicate SurelyComplete(results: seq<Processed>) {
    forall run: seq<Pool>, ms: seq<FanMove> :: Ends(results, run, ms) ==> Complete(results, run[|ms|].list)
  }

  /** The restored pod is sure to have all its containers exactly when there is only one worker or
      no worker makes a container.  The sentinel's worker makes none, but it can undo the appends of
      all others; so for a listing that triggered a restore nothing is sure. */
  lemma ContainersAreSureExactly(results: seq<Processed>)
    requires forall i :: 0 <= i < |results| ==> Returns(results[i])
    ensures SurelyComplete(results) <==>
            |results| <= 1 || forall i :: 0 <= i < |results| ==> !Contributes(results[i])
  {
    if |results| <= 1 || forall i :: 0 <= i < |results| ==> !Contributes(results[i]) {
      forall run: seq<Pool>, ms: seq<FanMove> | Ends(results, run, ms) ensures Complete(results, run[|ms|].list) {
        RunInv(results, run, ms, |ms|);
      }
    } else {
      var i: nat :| i < |results| && Contributes(results[i]);
      var run, ms := OthersCanBeLost(results, if i == 0 then 1 else 0);
      assert Ends(results, run, ms) && i !in run[|ms|].list;
      assert !Complete(results, run[|ms|].list);
    }
  }

  /* ----- on the listing of a migration ----- */

  /** What processing each file of a listing comes to. */
  function Results(files: seq<string>, body: string -> Processed): seq<Processed> {
    seq(|files|, i requires 0 <= i < |files| => body(files[i]))
  }

  lemma CheckpointWorker(dir: string, steps: string -> Steps, pod: string, n: string)
    requires Extractable(pod) && NamesPod(n, pod) && !Contains(dir, MARK) && n != SENTINEL && Healthy(dir, steps, n)
    ensures var p := Processing(dir, steps)(n); Returns(p) && Assigned(p) == pod && Contributes(p)
  {
    PodOfName(dir, n, pod);
  }

  /** The worker of file `i` comes back with the pod's name, the last one with the sentinel's. */
  predicate Comes(files: seq<string>, body: string -> Processed, pod: string, i: nat)
    requires i < |files|
  {
    && Returns(body(files[i])) && Assigned(body(files[i])) == (if i < |files| - 1 then pod else SENTINEL)
    && (Contributes(body(files[i])) <==> i < |files| - 1)
  }

  lemma AllWorkers(files: seq<string>, dir: string, steps: string -> Steps, pod: string, names: set<string>)
    requires OnePodListing(files, pod, names) && !Contains(dir, MARK)
    requires forall n :: n in names ==> Healthy(dir, steps, n)
    ensures |files| >= 2
    ensures forall i: nat :: i < |files| ==> Comes(files, Processing(dir, steps), pod, i)
  {
    OnePodShape(files, pod, names);
    forall i: nat | i < |files| ensures Comes(files, Processing(dir, steps), pod, i) {
      if i < |files| - 1 { CheckpointWorker(dir, steps, pod, files[i]); }
    }
  }

  lemma AllResults(files: seq<string>, body: string -> Processed, pod: string)
    requires |files| >= 2 && forall i: nat :: i < |files| ==> Comes(files, body, pod, i)
    ensures var results := Results(files, body);
            && |results| == |files| && (forall i :: 0 <= i < |results| ==> Returns(results[i]))
            && Assigned(results[0]) == pod && Assigned(results[|files| - 1]) == SENTINEL
            && Contributes(results[0]) && !Contributes(results[|files| - 1])
  {
    var results := Results(files, body);
    forall i | 0 <= i < |results| ensures Returns(results[i]) { assert Comes(files, body, pod, i); }
    assert Comes(files, body, pod, 0) && Comes(files, body, pod, |files| - 1);
  }

  /** Of such workers the first can name the pod and so can the sentinel's, and the sentinel's can
      store an empty list. */
  lemma ThreeEnds(files: seq<string>, body: string -> Processed, pod: string)
    requires |files| >= 2 && forall i: nat :: i < |files| ==> Comes(files, body, pod, i)
    ensures CanEnd(Results(files, body), pod) && CanEnd(Results(files, body), SENTINEL)
    ensures CanEndEmpty(Results(files, body)) && !SurelyComplete(Results(files, body))
  {
    AllResults(files, body, pod);
    var results := Results(files, body);
    var run, ms := AnyNameIsPossible(results, 0);
    assert Ends(results, run, ms);
    run, ms := AnyNameIsPossible(results, |files| - 1);
    assert Ends(results, run, ms);
    run, ms := OthersCanBeLost(results, |files| - 1);
    assert Ends(results, run, ms);
    ContainersAreSureExactly(results);
  }

  /** Some run ends with no containers. */
  ghost predicate CanEndEmpty(results: seq<Processed>) {
    exists run: seq<Pool>, ms: seq<FanMove> :: Ends(results, run, ms) && run[|ms|].list == []
  }

  /** On the listing of one pod's checkpoints, even if every file is healthy, one schedule restores
      the pod under its own name, another one restores it under the sentinel's, and one restores it
      without any container. */
  lemma RestoreIsUnsure(files: seq<string>, dir: string, steps: string -> Steps, pod: string, names: set<string>)
    requires OnePodListing(files, pod, names) && !Contains(dir, MARK)
    requires forall n :: n in names ==> Healthy(dir, steps, n)
    ensures var results := Results(files, Processing(dir, steps));
            && CanEnd(results, pod) && CanEnd(results, SENTINEL)
            && CanEndEmpty(results) && !SurelyComplete(results)
  {
    AllWorkers(files, dir, steps, pod, names);
    ThreeEnds(files, Processing(dir, steps), pod);
  }
}
