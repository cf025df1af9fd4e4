/**
 Restoring at the destination: processFile (controllers/livemigration.go) turns one checkpoint file
 into an image, and the restore functions (controllers/restore.go) run over a directory listing and
 create the pod.
 */
module Restore {
  import opened Text
  import opened Storage
  import opened FileNames

  /** Whether each external step for one file works. */
  datatype Steps = Steps(chmod: bool, from: bool, add: bool, config: bool, commit: bool)

  datatype Container = Container(name: string, image: string)
  datatype Pod = Pod(name: string, containers: seq<Container>)

  /** `Blocked` is a goroutine stuck for ever, `Crashed` a run-time panic. */
  datatype Processed = Done(containers: seq<Container>, podName: string) | Failed | Blocked | Crashed

  /** The container name as the code sees it: a missing one is the empty string. */
  function NameOf(path: string): string {
    match ContainerName(path) case Found(n) => n case _ => ""
  }

  function Made(path: string): Container {
    Container(NameOf(path), "localhost/" + Tag(NameOf(path)))
  }

  /** Checkpoints without the year in their paths all get one nameless container and one image tag. */
  lemma UndatedCollide(p: string, q: string)
    requires YEAR !in Split(p) && YEAR !in Split(q)
    ensures ContainerName(p) == ContainerName(q) == Missing
    ensures Made(p) == Made(q) == Container("", "localhost/" + Tag(""))
  {
    MissingExactly(p);
    MissingExactly(q);
  }

  /* ----- processFile ----- */

  /** A buffered channel that nobody receives from: a send on a full one never returns. */
  class ResultChannel {
    const capacity: nat
    var buffer: seq<string>

    ghost predicate Valid() reads this { |buffer| <= capacity }

    constructor (capacity: nat)
      ensures Valid() && this.capacity == capacity && buffer == []
    {
      this.capacity := capacity;
      buffer := [];
    }

    method Send(x: string) returns (sent: bool)
      requires Valid()
      modifies this
      ensures Valid()
      ensures sent <==> |old(buffer)| < capacity
      ensures buffer == if sent then old(buffer) + [x] else old(buffer)
    {
      sent := |buffer| < capacity;
      if sent { buffer := buffer + [x]; }
    }
  }

  function Count(b: bool): nat { if b then 0 else 1 }

  /** Failed steps among those that report their failure on the channel. */
  function Failures(s: Steps): nat {
    Count(s.from) + Count(s.add) + Count(s.config) + Count(s.commit)
  }

  /** Two of them fail. */
  predicate TwoFail(s: Steps) {
    || (!s.from && !s.add) || (!s.from && !s.config) || (!s.from && !s.commit)
    || (!s.add && !s.config) || (!s.add && !s.commit) || (!s.config && !s.commit)
  }

  /** What processing a file comes to once its name has been taken apart. */
  function StepsOutcome(container: Container, podName: string, s: Steps): Processed {
    if !s.chmod then Failed
    else if Failures(s) >= 2 then Blocked
    else Done([container], podName)
  }

  /** What processing the file at `path` comes to. */
  function Outcome(name: string, path: string, s: Steps): Processed {
    if name == SENTINEL then Done([], SENTINEL)
    else if ContainerName(path) == OutOfRange then Crashed
    else StepsOutcome(Made(path), RetrievePodName(path), s)
  }

  /** The commit is reached unless all three steps before it failed. */
  predicate Commits(s: Steps) {
    s.chmod && s.commit && (s.from || s.add || s.config)
  }

  lemma ImageText(container: string)
    ensures "localhost/" + Tag(container) == "localhost/" + "leonardopoggiani/checkpoint-images:" + container
  {
    assert "localhost/" + ("leonardopoggiani/checkpoint-images:" + container) ==
           "localhost/" + "leonardopoggiani/checkpoint-images:" + container;
  }

  /** processFile from the chmod on, step by step.  A failed chmod is an error; otherwise it blocks
      exactly if two of the four steps that report their failure fail, and else makes one container.
      The image is committed unless the commit fails or is not reached, because all three steps before
      it failed. */
  method RunSteps(containerName: string, podName: string, s: Steps)
    returns (r: Processed, committed: Option<string>)
    ensures r == StepsOutcome(Container(containerName, "localhost/" + Tag(containerName)), podName, s)
    ensures committed == if Commits(s) then Some(Tag(containerName)) else None
    ensures r == Failed <==> !s.chmod
    ensures r == Blocked <==> s.chmod && ((!s.from && !s.add) || (!s.from && !s.config) || (!s.from && !s.commit)
                              || (!s.add && !s.config) || (!s.add && !s.commit) || (!s.config && !s.commit))
    ensures s.chmod && r != Blocked ==>
              && r.Done? && r.podName == podName && |r.containers| == 1 && r.containers[0].name == containerName
              && r.containers[0].image == "localhost/" + "leonardopoggiani/checkpoint-images:" + containerName
    ensures committed.Some? <==> s.chmod && s.commit && (s.from || s.add || s.config)
    ensures committed.Some? ==> committed.value == "leonardopoggiani/checkpoint-images:" + containerName
  {
    ImageText(containerName);
    committed := None;
    var results := new ResultChannel(2);
    if !s.chmod {
      return Failed, committed;
    }
    // The first two sends find room.
    var sent := true;
    if !s.from {
      sent := results.Send("failed to create new container\n");
    }
    if !s.add {
      sent := results.Send("failed to add file to container");
    }
    if !s.config {
      sent := results.Send("failed to add checkpoint to container ");
      if !sent { return Blocked, committed; }
    }
    if s.commit {
      committed := Some(Tag(containerName));
    } else {
      sent := results.Send("failed to commit checkpoint");
      if !sent { return Blocked, committed; }
    }
    sent := results.Send("File added to container: ");
    if !sent { return Blocked, committed; }
    return Done([Container(containerName, "localhost/" + Tag(containerName))], podName), committed;
  }

  /** processFile.  `committed` is the image tag that was committed, if any. */
  method ProcessFile(name: string, dir: string, s: Steps) returns (r: Processed, committed: Option<string>)
    ensures r == Outcome(name, dir + name, s)
    ensures committed == if name != SENTINEL && ContainerName(dir + name) != OutOfRange && Commits(s)
                         then Some(Tag(NameOf(dir + name))) else None
    ensures name == "dummy" ==> r == Done([], "dummy")
    ensures r == Crashed <==> name != "dummy" && ContainerName(dir + name) == OutOfRange
    ensures r == Failed <==> name != "dummy" && ContainerName(dir + name) != OutOfRange && !s.chmod
    ensures r == Blocked <==>
            && name != "dummy" && ContainerName(dir + name) != OutOfRange
            && s.chmod && ((!s.from && !s.add) || (!s.from && !s.config) || (!s.from && !s.commit)
                          || (!s.add && !s.config) || (!s.add && !s.commit) || (!s.config && !s.commit))
    ensures r.Done? && name != "dummy" ==>
              && r.podName == RetrievePodName(dir + name) && |r.containers| == 1
              && r.containers[0].image == "localhost/" + "leonardopoggiani/checkpoint-images:" + r.containers[0].name
              && (ContainerName(dir + name) == Missing ==> r.containers[0].name == "")
              && (ContainerName(dir + name) != Missing ==> ContainerName(dir + name) == Found(r.containers[0].name))
  {
    if name == SENTINEL {
      return Done([], SENTINEL), None;
    }
    var path := dir + name;
    var extracted := RetrieveContainerName(path);
    if extracted == OutOfRange {
      return Crashed, None;
    }
    var containerName := match extracted case Found(n) => n case _ => "";
    r, committed := RunSteps(containerName, RetrievePodName(path), s);
  }

  /* ----- BuildahRestorePipelined ----- */

  datatype Restored = Created(pod: Pod) | Error | Forever | Panicked

  function AsResult(p: Processed): Restored {
    match p case Failed => Error case Blocked => Forever case _ => Panicked
  }

  /** processFile on the file of a given name. */
  function Processing(dir: string, steps: string -> Steps): string -> Processed {
    name => Outcome(name, dir + name, steps(name))
  }

  /** The first `k` files go through. */
  ghost predicate AllDone(files: seq<string>, body: string -> Processed, k: nat)
    requires k <= |files|
  {
    forall i: nat :: i < k ==> body(files[i]).Done?
  }

  /** How a file whose name yields `extracted` and whose steps come out as in `s` ends the pipelined
      restore, if it does. */
  predicate PipelinedStop(extracted: Extraction, s: Steps, r: Restored) {
    && (extracted == OutOfRange ==> r == Panicked)
    && (extracted != OutOfRange && !s.chmod ==> r == Error)
    && (extracted != OutOfRange && s.chmod && TwoFail(s) ==> r == Forever)
  }

  /** The same for the sequential restore, which also needs a pod name. */
  predicate SequentialStop(extracted: Extraction, podName: string, s: Steps, r: Restored) {
    && (!s.chmod || !s.from || !s.add ==> r == Error)
    && (s.chmod && s.from && s.add && extracted == OutOfRange ==> r == Panicked)
    && (s.chmod && s.from && s.add && extracted != OutOfRange && !s.config ==> r == Error)
    && (s.chmod && s.from && s.add && extracted != OutOfRange && s.config && podName == "" ==> r == Panicked)
  }

  /** The loop and the creation of the pod, for any way `body` of processing a file.  `reached` says
      that the pod was handed to the API server. */
  method CreateFromListing(files: seq<string>, podName: string, body: string -> Processed, createOk: bool)
    returns (r: Restored, reached: bool)
    ensures reached <==> AllDone(files, body, |files|)
    ensures reached ==> r == if createOk then Created(Pod(podName, [])) else Error
    ensures forall k: nat ::
              (k < |files| && AllDone(files, body, k) && !body(files[k]).Done?) ==> r == AsResult(body(files[k]))
  {
    reached := false;
    var containers: seq<Container> := [];
    for i := 0 to |files|
      invariant AllDone(files, body, i)
      invariant containers == [] && !reached
    {
      var inner := body(files[i]);
      if !inner.Done? {
        return AsResult(inner), reached;
      }
    }
    reached := true;
    if !createOk {
      return Error, reached;
    }
    return Created(Pod(podName, containers)), reached;
  }

  /** The first bad file decides: a failed chmod is an error, two or more failed steps block for
      ever, a malformed name crashes.  Pod creation is reached exactly when there is no bad file,
      and the pod it creates has no containers, because the list the loop fills is a shadow of the
      one the pod is built from.  An empty listing crashes on its first element. */
  method BuildahRestorePipelined(files: seq<string>, dir: string, steps: string -> Steps, createOk: bool)
    returns (r: Restored, reached: bool)
    ensures files == [] ==> r == Panicked
    ensures files != [] && RetrievePodName(files[0]) == "" ==> r == Error
    ensures reached <==>
            files != [] && RetrievePodName(files[0]) != "" && AllDone(files, Processing(dir, steps), |files|)
    ensures reached ==> r == if createOk then Created(Pod(RetrievePodName(files[0]), [])) else Error
    ensures files != [] && RetrievePodName(files[0]) != "" ==>
              forall k: nat ::
                (k < |files| && AllDone(files, Processing(dir, steps), k) &&
                 !Processing(dir, steps)(files[k]).Done?) ==>
                r == AsResult(Processing(dir, steps)(files[k]))
    ensures files != [] && RetrievePodName(files[0]) != "" ==>
              forall k: nat :: k < |files| && AllDone(files, Processing(dir, steps), k) && files[k] != "dummy" ==>
                PipelinedStop(ContainerName(dir + files[k]), steps(files[k]), r)
  {
    if files == [] {
      return Panicked, false;
    }
    var podName := RetrievePodName(files[0]);
    if podName == "" {
      return Error, false;
    }
    r, reached := CreateFromListing(files, podName, Processing(dir, steps), createOk);
    PipelinedStops(files, dir, steps, r);
  }

  lemma PipelinedStops(files: seq<string>, dir: string, steps: string -> Steps, r: Restored)
    requires forall k: nat ::
               (k < |files| && AllDone(files, Processing(dir, steps), k) &&
                !Processing(dir, steps)(files[k]).Done?) ==>
               r == AsResult(Processing(dir, steps)(files[k]))
    ensures forall k: nat :: k < |files| && AllDone(files, Processing(dir, steps), k) && files[k] != "dummy" ==>
              PipelinedStop(ContainerName(dir + files[k]), steps(files[k]), r)
  {
    forall k: nat | k < |files| && AllDone(files, Processing(dir, steps), k) && files[k] != "dummy"
      ensures PipelinedStop(ContainerName(dir + files[k]), steps(files[k]), r)
    {
      assert Processing(dir, steps)(files[k]) == Outcome(files[k], dir + files[k], steps(files[k]));
    }
  }

  /* ----- BuildahRestore ----- */

  /** Where the sequential restore stops: at the sentinel or at the end. */
  function Stop(files: seq<string>): (k: nat)
    ensures k <= |files| && (forall i :: 0 <= i < k ==> files[i] != SENTINEL)
    ensures k < |files| ==> files[k] == SENTINEL
  {
    if files == [] then 0
    else if files[0] == SENTINEL then 0
    else 1 + Stop(files[1..])
  }

  /** One file of the sequential restore; a failed commit is only logged. */
  function Step(path: string, s: Steps): Processed {
    if !s.chmod || !s.from || !s.add then Failed
    else if ContainerName(path) == OutOfRange then Crashed
    else if !s.config then Failed
    else if RetrievePodName(path) == "" then Crashed
    else Done([Made(path)], RetrievePodName(path))
  }

  /** The loop body: what it makes of the file of a given name. */
  function Body(dir: string, steps: string -> Steps): string -> Processed {
    name => Step(dir + name, steps(name))
  }

  /** The containers of the first `k` files, in listing order. */
  function Gathered(files: seq<string>, body: string -> Processed, k: nat): seq<Container>
    requires k <= |files|
  {
    if k == 0 then [] else Gathered(files, body, k - 1) + Contributed(body(files[k - 1]))
  }

  function Contributed(p: Processed): seq<Container> {
    if p.Done? then p.containers else []
  }

  /** The first file before the sentinel that does not go through decides the result. */
  ghost predicate FirstBadDecides(files: seq<string>, body: string -> Processed, r: Restored) {
    forall k: nat ::
      (k < Stop(files) && AllDone(files, body, k) && !body(files[k]).Done?) ==> r == AsResult(body(files[k]))
  }

  /** The loop over the listing, for any body. */
  method RestoreLoop(files: seq<string>, body: string -> Processed) returns (r: Restored)
    ensures r.Created? <==> AllDone(files, body, Stop(files))
    ensures r.Created? ==>
              && r.pod.containers == Gathered(files, body, Stop(files))
              && r.pod.name == if Stop(files) == 0 then "" else body(files[Stop(files) - 1]).podName
    ensures FirstBadDecides(files, body, r)
  {
    var containersList: seq<Container> := [];
    var podName := "";
    var i := 0;
    while i < |files|
      invariant 0 <= i <= Stop(files)
      invariant AllDone(files, body, i)
      invariant containersList == Gathered(files, body, i)
      invariant podName == if i == 0 then "" else body(files[i - 1]).podName
    {
      if files[i] == SENTINEL {
        break;
      }
      var done := body(files[i]);
      if !done.Done? {
        return AsResult(done);
      }
      podName := done.podName;
      containersList := containersList + done.containers;
      i := i + 1;
    }
    return Created(Pod(podName, containersList));
  }

  /** The pod is submitted exactly when every file before the sentinel went through, with their
      containers in listing order and the last file's pod name; otherwise the first file that did
      not go through decides.  A failed submission is only logged. */
  method BuildahRestore(files: seq<string>, dir: string, steps: string -> Steps)
    returns (r: Restored)
    ensures r.Created? <==> AllDone(files, Body(dir, steps), Stop(files))
    ensures r.Created? ==>
              && r.pod.containers == Gathered(files, Body(dir, steps), Stop(files))
              && r.pod.name == if Stop(files) == 0 then "" else Body(dir, steps)(files[Stop(files) - 1]).podName
    ensures FirstBadDecides(files, Body(dir, steps), r)
    ensures forall k: nat :: k < Stop(files) && AllDone(files, Body(dir, steps), k) ==>
              SequentialStop(ContainerName(dir + files[k]), RetrievePodName(dir + files[k]), steps(files[k]), r)
  {
    r := RestoreLoop(files, Body(dir, steps));
    SequentialStops(files, dir, steps, r);
  }

  lemma SequentialStops(files: seq<string>, dir: string, steps: string -> Steps, r: Restored)
    requires FirstBadDecides(files, Body(dir, steps), r)
    ensures forall k: nat :: k < Stop(files) && AllDone(files, Body(dir, steps), k) ==>
              SequentialStop(ContainerName(dir + files[k]), RetrievePodName(dir + files[k]), steps(files[k]), r)
  {
    forall k: nat | k < Stop(files) && AllDone(files, Body(dir, steps), k)
      ensures SequentialStop(ContainerName(dir + files[k]), RetrievePodName(dir + files[k]), steps(files[k]), r)
    {
      assert Body(dir, steps)(files[k]) == Step(dir + files[k], steps(files[k]));
    }
  }

  /* ----- listings with a sentinel ----- */

  /** In a sorted listing the greatest name is last. */
  lemma GreatestIsLast(files: seq<string>, names: set<string>, last: string)
    requires IsListing(files, names) && last in names
    requires forall n :: n in names ==> !Less(last, n)
    ensures |files| >= 1 && files[|files| - 1] == last
    ensures forall k :: 0 <= k < |files| - 1 ==> files[k] != last
  {
    assert last in files;
    var k :| 0 <= k < |files| && files[k] == last;
    LessTotal(last, last);
  }

  /** `files` lists checkpoint files of one pod, of any date, and the sentinel. */
  ghost predicate OnePodListing(files: seq<string>, pod: string, names: set<string>) {
    && IsListing(files, names + {SENTINEL}) && names != {}
    && Extractable(pod) && forall n :: n in names ==> NamesPod(n, pod)
  }

  /** Checkpoint names sort before the sentinel. */
  lemma BeforeSentinel(n: string, pod: string)
    requires NamesPod(n, pod)
    ensures !Less(SENTINEL, n) && n != SENTINEL
  {
    assert n[0] == (MARK + pod + "_")[0] == MARK[0] == 'c' && SENTINEL[0] == 'd';
  }

  lemma ListingShape(files: seq<string>, names: set<string>)
    requires IsListing(files, names + {SENTINEL}) && SENTINEL !in names && names != {}
    requires forall n :: n in names + {SENTINEL} ==> !Less(SENTINEL, n)
    ensures |files| >= 2 && files[|files| - 1] == SENTINEL && Stop(files) == |files| - 1
    ensures forall i :: 0 <= i < |files| - 1 ==> files[i] in names
  {
    GreatestIsLast(files, names + {SENTINEL}, SENTINEL);
    var n :| n in names;
    assert n in files;
  }

  lemma OnePodShape(files: seq<string>, pod: string, names: set<string>)
    requires OnePodListing(files, pod, names)
    ensures |files| >= 2 && files[|files| - 1] == SENTINEL && Stop(files) == |files| - 1
    ensures SENTINEL !in names && forall i :: 0 <= i < |files| - 1 ==> files[i] in names
  {
    LessTotal(SENTINEL, SENTINEL);
    forall n | n in names ensures !Less(SENTINEL, n) && n != SENTINEL { BeforeSentinel(n, pod); }
    ListingShape(files, names);
  }

  predicate Works(s: Steps) { s.chmod && s.from && s.add && s.config }

  /** Every step of the file works and its name does not crash the extraction. */
  predicate Healthy(dir: string, steps: string -> Steps, n: string) {
    Works(steps(n)) && ContainerName(dir + n) != OutOfRange
  }

  /** The file gets as far as the extraction of its container name, which crashes. */
  predicate Crashes(dir: string, steps: string -> Steps, n: string) {
    steps(n).chmod && steps(n).from && steps(n).add && ContainerName(dir + n) == OutOfRange
  }

  /** What the sequential restore makes of a checkpoint file of `pod`. */
  function Expected(dir: string, steps: string -> Steps, pod: string, n: string): Processed {
    if Healthy(dir, steps, n) then Done([Made(dir + n)], pod)
    else if Crashes(dir, steps, n) then Crashed
    else Failed
  }

  lemma OnePodStep(dir: string, steps: string -> Steps, pod: string, n: string)
    requires Extractable(pod) && NamesPod(n, pod) && !Contains(dir, MARK)
    ensures Body(dir, steps)(n) == Expected(dir, steps, pod, n)
  {
    PodOfName(dir, n, pod);
  }

  lemma {:induction false} OneContainerEach(files: seq<string>, body: string -> Processed, k: nat)
    requires k <= |files|
    requires forall i: nat :: i < k ==> body(files[i]).Done? && |body(files[i]).containers| == 1
    ensures |Gathered(files, body, k)| == k
    ensures forall i: nat :: i < k ==> Gathered(files, body, k)[i] == body(files[i]).containers[0]
  {
    if k == 0 {
    } else {
      OneContainerEach(files, body, k - 1);
      var before, last := Gathered(files, body, k - 1), body(files[k - 1]).containers;
      assert Gathered(files, body, k) == before + [last[0]];
    }
  }

  /** The container carries the name extracted from its checkpoint file, if there is one, and runs
      the image committed for it. */
  predicate FromFile(c: Container, path: string) {
    && c.image == "localhost/" + Tag(c.name)
    && match ContainerName(path)
       case Found(n) => c.name == n
       case Missing => c.name == ""
       case OutOfRange => false
  }

  /** File `k` is the first one that is not healthy. */
  ghost predicate FirstUnhealthy(files: seq<string>, dir: string, steps: string -> Steps, k: nat)
    requires k < |files|
  {
    !Healthy(dir, steps, files[k]) && forall j :: 0 <= j < k ==> Healthy(dir, steps, files[j])
  }

  /** Sequential restore completeness: on a listing of one pod's checkpoints, of whatever date, and
      the sentinel, the pod is submitted exactly if every file is healthy; it has that pod's name and
      exactly one container per checkpoint file, in order, with that file's container name and image,
      the break at the sentinel skipping none.  Otherwise the first unhealthy file decides. */
  method RestoreListing(files: seq<string>, dir: string, steps: string -> Steps,
                        ghost pod: string, ghost names: set<string>)
    returns (r: Restored)
    requires OnePodListing(files, pod, names) && !Contains(dir, MARK)
    ensures r.Created? <==> forall n :: n in names ==> Healthy(dir, steps, n)
    ensures r.Created? ==>
              && r.pod.name == pod
              && |files| == |r.pod.containers| + 1 && files[|files| - 1] == SENTINEL
              && forall i :: 0 <= i < |r.pod.containers| ==> FromFile(r.pod.containers[i], dir + files[i])
    ensures forall k: nat :: k < |files| - 1 && FirstUnhealthy(files, dir, steps, k) ==>
              r == if Crashes(dir, steps, files[k]) then Panicked else Error
  {
    OnePodBodies(dir, steps, pod, names);
    r := BuildahRestore(files, dir, steps);
    OnePodShape(files, pod, names);
    OnePodResult(files, dir, steps, Body(dir, steps), pod, names, r);
    OnePodStops(files, dir, steps, Body(dir, steps), pod, names, r);
  }

  /** What the loop returns on such a listing, for any body that treats its files like the code. */
  lemma OnePodResult(files: seq<string>, dir: string, steps: string -> Steps, body: string -> Processed,
                     pod: string, names: set<string>, r: Restored)
    requires OnePodListing(files, pod, names)
    requires forall n :: n in names ==> body(n) == Expected(dir, steps, pod, n)
    requires r.Created? <==> AllDone(files, body, Stop(files))
    requires r.Created? ==>
               && r.pod.containers == Gathered(files, body, Stop(files))
               && r.pod.name == if Stop(files) == 0 then "" else body(files[Stop(files) - 1]).podName
    ensures r.Created? <==> forall n :: n in names ==> Healthy(dir, steps, n)
    ensures r.Created? ==>
              && r.pod.name == pod
              && |files| == |r.pod.containers| + 1 && files[|files| - 1] == SENTINEL
              && forall i :: 0 <= i < |r.pod.containers| ==> FromFile(r.pod.containers[i], dir + files[i])
  {
    OnePodShape(files, pod, names);
    OnePodAllDone(files, dir, steps, body, pod, names);
    if r.Created? { OnePodContainers(files, dir, steps, body, pod, names); }
  }

  /** The first unhealthy file stops the loop. */
  lemma OnePodStops(files: seq<string>, dir: string, steps: string -> Steps, body: string -> Processed,
                    pod: string, names: set<string>, r: Restored)
    requires FirstBadDecides(files, body, r) && forall i :: 0 <= i < Stop(files) ==> files[i] in names
    requires forall n :: n in names ==> body(n) == Expected(dir, steps, pod, n)
    ensures forall k: nat :: k < Stop(files) && FirstUnhealthy(files, dir, steps, k) ==>
              r == if Crashes(dir, steps, files[k]) then Panicked else Error
  {
    forall k: nat | k < Stop(files) && FirstUnhealthy(files, dir, steps, k)
      ensures r == if Crashes(dir, steps, files[k]) then Panicked else Error
    {
      assert AllDone(files, body, k) && !body(files[k]).Done?;
    }
  }

  lemma OnePodContainers(files: seq<string>, dir: string, steps: string -> Steps, body: string -> Processed,
                         pod: string, names: set<string>)
    requires Stop(files) >= 1 && forall i :: 0 <= i < Stop(files) ==> files[i] in names
    requires forall n :: n in names ==> body(n) == Expected(dir, steps, pod, n)
    requires AllDone(files, body, Stop(files))
    ensures body(files[Stop(files) - 1]).podName == pod && |Gathered(files, body, Stop(files))| == Stop(files)
    ensures forall i :: 0 <= i < Stop(files) ==> FromFile(Gathered(files, body, Stop(files))[i], dir + files[i])
  {
    forall i: nat | i < Stop(files)
      ensures body(files[i]) == Done([Made(dir + files[i])], pod) && FromFile(Made(dir + files[i]), dir + files[i])
    {
      assert body(files[i]) == Expected(dir, steps, pod, files[i]);
    }
    OneContainerEach(files, body, Stop(files));
  }

  lemma OnePodBodies(dir: string, steps: string -> Steps, pod: string, names: set<string>)
    requires Extractable(pod) && (forall n :: n in names ==> NamesPod(n, pod)) && !Contains(dir, MARK)
    ensures forall n :: n in names ==> Body(dir, steps)(n) == Expected(dir, steps, pod, n)
  {
    forall n | n in names ensures Body(dir, steps)(n) == Expected(dir, steps, pod, n) {
      OnePodStep(dir, steps, pod, n);
    }
  }

  lemma OnePodAllDone(files: seq<string>, dir: string, steps: string -> Steps, body: string -> Processed,
                      pod: string, names: set<string>)
    requires OnePodListing(files, pod, names)
    requires forall n :: n in names ==> body(n) == Expected(dir, steps, pod, n)
    ensures AllDone(files, body, Stop(files)) <==> forall n :: n in names ==> Healthy(dir, steps, n)
  {
    OnePodShape(files, pod, names);
    forall n | n in names ensures exists i: nat :: i < Stop(files) && files[i] == n {
      assert n in files;
      var i :| 0 <= i < |files| && files[i] == n;
    }
  }

  /* ----- listings of 2024 ----- */

  /** Checkpoints taken in 2024 never crash the extraction, so they are healthy exactly if their steps
      work, and each of their containers has a name. */
  lemma DatedListing(dir: string, steps: string -> Steps, named: map<string, CheckpointName>)
    requires !Contains(dir, MARK)
    requires forall n :: n in named ==> n == FileName(named[n]) && WellFormed(named[n])
    ensures forall n :: n in named ==> NamesPod(n, named[n].pod) && ContainerName(dir + n).Found?
    ensures forall n :: n in named ==> (Healthy(dir, steps, n) <==> Works(steps(n)))
  {
    forall n | n in named ensures NamesPod(n, named[n].pod) && ContainerName(dir + n).Found? {
      FileNameRoundTrip(dir, named[n]);
    }
  }
}
