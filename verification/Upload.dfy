/**
 MigrateCheckpointParallelized (controllers/migrate.go): one goroutine uploads each file of a
 listing, a barrier waits for all of them, then the sentinel file is created and uploaded.

 At the destination, the file handler creates a file and then copies the contents into it
 (file-handler/file-handler.go); a watcher starts a restore when a file whose path contains the
 sentinel's name is created (the event loop in controllers/livemigration.go).
 */
module Upload {
  import opened Text
  import opened FanOut
  import opened Storage
  import opened Model

  datatype UpPc = Uploading | Touching | Posting | Filling | Returned

  /** One call: the listing it was given, the contents of those files, its workers and where the
      caller stands.  `listed` never changes after the start. */
  datatype Uploader = Uploader(files: seq<string>, listed: SourceDir, fan: Fan, pc: UpPc)

  datatype UpMove = Worker(m: FanMove) | Touch | PostSentinel | FillSentinel | Watch

  function Begin(files: seq<string>, listed: SourceDir): Uploader {
    Uploader(files, listed, Start(|files|), Uploading)
  }

  /* ----- the destination's trigger ----- */

  const WATCHED: string := "/checkpoints/"

  /** The watcher's test on the path of a created file. */
  ghost predicate Triggers(name: string) {
    Contains(WATCHED + name, WATCHED) && Contains(WATCHED + name, SENTINEL)
  }

  /** The directory part can neither fail the test nor pass it. */
  lemma TriggersOnName(name: string)
    ensures Triggers(name) <==> Contains(name, SENTINEL)
    ensures Contains("/checkpoints/" + name, "/checkpoints/") && Contains("/checkpoints/" + name, "dummy") <==>
            Contains(name, "dummy")
  {
    var path := WATCHED + name;
    AtPrefix(WATCHED, name, WATCHED, 0);
    assert At(path, WATCHED, 0);
    if Contains(path, SENTINEL) {
      var i :| At(path, SENTINEL, i);
      AtChar(path, SENTINEL, i, 0);
      NoSentinelInDirectory();
      AtSuffix(WATCHED, name, SENTINEL, i - |WATCHED|);
    }
    if Contains(name, SENTINEL) {
      var j :| At(name, SENTINEL, j);
      AtSuffix(WATCHED, name, SENTINEL, j);
    }
  }

  lemma NoSentinelInDirectory()
    ensures forall i :: 0 <= i < |WATCHED| ==> WATCHED[i] != SENTINEL[0]
  {
    assert WATCHED == ['/', 'c', 'h', 'e', 'c', 'k', 'p', 'o', 'i', 'n', 't', 's', '/'];
  }

  lemma SentinelTriggers()
    ensures Triggers(SENTINEL)
  {
    TriggersOnName(SENTINEL);
    assert At(SENTINEL, SENTINEL, 0);
  }

  /* ----- steps ----- */

  /** The handler creates (or truncates) a file; only a new file raises a create event. */
  function CreateFile(st: Store, n: string): Store {
    st.(dest := st.dest[n := Copying],
        events := if n in st.dest then st.events else st.events + [n])
  }

  function Touched(cfg: Config, src: SourceDir): SourceDir {
    if cfg.touchOk && SENTINEL !in src then src[SENTINEL := ""] else src
  }

  ghost predicate UpEnabled(cfg: Config, u: Uploader, st: Store, m: UpMove) {
    && |u.fan.ws| == |u.files|
    && match m
       case Worker(fm) => u.pc == Uploading && FanEnabled(u.fan, fm)
       case Touch => u.pc == Touching
       case PostSentinel => u.pc == Posting
       case FillSentinel => u.pc == Filling
       case Watch => st.events != []
  }

  /** The next phase of the worker for file `n`.  Curl can only post a file it can read. */
  function WorkerPhase(cfg: Config, p: Phase, n: string, src: SourceDir): Phase {
    match p
    case Begun => if cfg.upload(n).NoInfo? then Leaving else Underway
    case Underway => if n in src && cfg.upload(n).Creates() then Opened else Leaving
    case Opened => Leaving
    case _ => Finished
  }

  function WorkerStore(cfg: Config, p: Phase, n: string, st: Store): Store {
    match p
    case Begun => if cfg.upload(n).NoInfo? then Log(st, Uploaded(n)) else st
    case Underway =>
      if n in st.src && cfg.upload(n).Creates() then CreateFile(st, n) else Log(st, Uploaded(n))
    case Opened =>
      if n in st.src && cfg.upload(n).Creates()
      then Log(st.(dest := st.dest[n := Filled(st.src[n], cfg.upload(n))]), Uploaded(n))
      else Log(st, Uploaded(n))
    case _ => st
  }

  ghost function UploaderNext(cfg: Config, u: Uploader, st: Store, m: UpMove): Uploader
    requires UpEnabled(cfg, u, st, m)
  {
    match m
    case Worker(fm) =>
      (match fm
       case Work(i) => u.(fan := Advance(u.fan, i, WorkerPhase(cfg, u.fan.ws[i], u.files[i], st.src)))
       case Join => u.(fan := Spawn(u.fan, fm), pc := Touching)
       case _ => u.(fan := Spawn(u.fan, fm)))
    case Touch => u.(pc := Posting)
    case PostSentinel =>
      u.(pc := if SENTINEL in st.src && cfg.sentinel.Creates() then Filling else Returned)
    case FillSentinel => u.(pc := Returned)
    case Watch => u
  }

  ghost function StoreNext(cfg: Config, u: Uploader, st: Store, m: UpMove): Store
    requires UpEnabled(cfg, u, st, m)
  {
    match m
    case Worker(fm) =>
      (match fm
       case Work(i) => WorkerStore(cfg, u.fan.ws[i], u.files[i], st)
       case _ => st)
    case Touch => st.(src := Touched(cfg, st.src))
    case PostSentinel =>
      if SENTINEL in st.src && cfg.sentinel.Creates() then CreateFile(st, SENTINEL) else Log(st, SentinelPosted)
    case FillSentinel =>
      if SENTINEL in st.src && cfg.sentinel.Creates()
      then Log(st.(dest := st.dest[SENTINEL := Filled(st.src[SENTINEL], cfg.sentinel)]), SentinelPosted)
      else Log(st, SentinelPosted)
    case Watch => Observe(st)
  }

  /** The watcher takes the oldest event and starts a restore if it passes the test. */
  ghost function Observe(st: Store): Store
    requires st.events != []
  {
    st.(events := st.events[1..],
        restores := if Triggers(st.events[0]) then st.restores + [st.dest] else st.restores)
  }

  /* ----- the sequential reference ----- */

  /** The sentinel step on its own: touch, then upload. */
  function SentinelStep(cfg: Config, d: DestDir, src: SourceDir): DestDir {
    var src' := Touched(cfg, src);
    if SENTINEL in src' then Put(d, SENTINEL, src'[SENTINEL], cfg.sentinel) else d
  }

  /** Upload the listed files one by one, then the sentinel. */
  function UploadThenSignal(cfg: Config, d: DestDir, src: SourceDir, files: seq<string>): DestDir
    requires forall i :: 0 <= i < |files| ==> files[i] in src
  {
    SentinelStep(cfg, UploadAll(d, src, files, cfg.upload), src)
  }

  /** What an upload of `content` with outcome `out` leaves where `before` was found, case by case. */
  ghost predicate Leaves(out: Outcome, content: string, before: Option<Copy>, after: Option<Copy>) {
    && (out.Stores? ==> after == Some(Whole(content)))
    && (out.CopyFails? ==> after == Some(Truncated(FirstBytes(content, out.bytes))))
    && (out.NotCreated? || out.NoInfo? ==> after == before)
  }

  /** The reference on the inputs, file by file. */
  lemma ReferenceFiles(cfg: Config, d: DestDir, src: SourceDir, files: seq<string>)
    requires Distinct(files) && forall i :: 0 <= i < |files| ==> files[i] in src
    ensures var r := UploadThenSignal(cfg, d, src, files);
            && (forall n :: n in files && n != SENTINEL ==> Leaves(cfg.upload(n), src[n], Get(d, n), Get(r, n)))
            && (forall n :: n !in files && n != SENTINEL ==> Get(r, n) == Get(d, n))
  {
    UploadAllAt(d, src, files, cfg.upload);
    forall n | n in files && n != SENTINEL
      ensures Leaves(cfg.upload(n), src[n], Get(d, n), Get(UploadThenSignal(cfg, d, src, files), n))
    {
      var i: nat :| i < |files| && files[i] == n;
    }
  }

  /** ... and for the sentinel: a new one is empty, an existing one keeps its contents; without one
      nothing is posted. */
  lemma ReferenceSentinel(cfg: Config, d: DestDir, src: SourceDir, files: seq<string>)
    requires Distinct(files) && forall i :: 0 <= i < |files| ==> files[i] in src
    ensures var before := Get(UploadAll(d, src, files, cfg.upload), "dummy");
            var after := Get(UploadThenSignal(cfg, d, src, files), "dummy");
            && ("dummy" !in src ==> before == Get(d, "dummy"))
            && ("dummy" !in src && cfg.touchOk ==> Leaves(cfg.sentinel, "", before, after))
            && ("dummy" !in src && !cfg.touchOk ==> after == before)
            && ("dummy" in src ==> Leaves(cfg.sentinel, src["dummy"], before, after))
  {
    UploadAllAt(d, src, files, cfg.upload);
  }

  /** touch creates an empty file if there is none and changes no other. */
  lemma TouchedExactly(cfg: Config, src: SourceDir)
    ensures forall n :: n != "dummy" || n in src ==> Get(Touched(cfg, src), n) == Get(src, n)
    ensures "dummy" !in src ==> Get(Touched(cfg, src), "dummy") == if cfg.touchOk then Some("") else None
  {
  }

  /* ----- invariant: destination ----- */

  /** What is stored under the name of a file whose worker is in phase `p`. */
  function Seen(p: Phase, before: Option<Copy>, content: string, out: Outcome): Option<Copy> {
    match p
    case Opened => Some(Copying)
    case Leaving => After(before, content, out)
    case Finished => After(before, content, out)
    case _ => before
  }

  ghost predicate UpShape(u: Uploader) {
    && FanInv(u.fan) && |u.fan.ws| == |u.files|
    && Distinct(u.files)
    && (forall i :: 0 <= i < |u.files| ==> u.files[i] in u.listed)
    && (u.fan.joined <==> u.pc != Uploading)
  }

  ghost predicate SourceInv(cfg: Config, u: Uploader, src: SourceDir) {
    match u.pc
    case Uploading => src == u.listed
    case Touching => src == u.listed
    case Posting => src == Touched(cfg, u.listed)
    case Filling => src == Touched(cfg, u.listed) && SENTINEL in src && cfg.sentinel.Creates()
    case Returned => true
  }

  ghost predicate FileAt(cfg: Config, u: Uploader, dest: DestDir, dest0: DestDir, i: nat)
    requires i < |u.files| == |u.fan.ws| && u.files[i] in u.listed
  {
    var n := u.files[i];
    Get(dest, n) == Seen(u.fan.ws[i], Get(dest0, n), u.listed[n], cfg.upload(n))
  }

  ghost predicate WorkersAgree(cfg: Config, u: Uploader) {
    forall i :: 0 <= i < |u.files| && i < |u.fan.ws| && u.fan.ws[i].Opened? ==> cfg.upload(u.files[i]).Creates()
  }

  /** Everything in the destination is what the progress of the workers says. */
  ghost predicate DestInv(cfg: Config, u: Uploader, dest: DestDir, dest0: DestDir)
    requires UpShape(u)
  {
    && WorkersAgree(cfg, u)
    && (forall i: nat :: i < |u.files| && (u.files[i] != SENTINEL || u.pc in {Uploading, Touching, Posting}) ==>
          FileAt(cfg, u, dest, dest0, i))
    && (forall n :: n !in u.files && n != SENTINEL ==> Get(dest, n) == Get(dest0, n))
    && SentinelInv(cfg, u, dest, dest0)
  }

  ghost predicate SentinelInv(cfg: Config, u: Uploader, dest: DestDir, dest0: DestDir)
    requires UpShape(u)
  {
    match u.pc
    case Filling => Get(dest, SENTINEL) == Some(Copying)
    case Returned => Get(dest, SENTINEL) == Get(UploadThenSignal(cfg, dest0, u.listed, u.files), SENTINEL)
    case _ => SENTINEL !in u.files ==> Get(dest, SENTINEL) == Get(dest0, SENTINEL)
  }

  /* ----- invariant: trace ----- */

  /** Each upload attempt ends exactly once, and so does the sentinel's. */
  ghost predicate UpTrace(u: Uploader, trace: seq<Effect>) {
    && |u.fan.ws| == |u.files|
    && (forall i: nat :: i < |u.files| ==> AttemptAt(u, trace, i))
    && (forall n :: n !in u.files ==> Times(trace, Uploaded(n)) == 0)
    && Times(trace, SentinelPosted) == (if u.pc == Returned then 1 else 0)
  }

  ghost predicate AttemptAt(u: Uploader, trace: seq<Effect>, i: nat)
    requires i < |u.files| == |u.fan.ws|
  {
    Times(trace, Uploaded(u.files[i])) == (if u.fan.ws[i].Over() then 1 else 0)
  }

  ghost predicate UpInv(cfg: Config, u: Uploader, st: Store, dest0: DestDir) {
    && UpShape(u)
    && SourceInv(cfg, u, st.src)
    && DestInv(cfg, u, st.dest, dest0)
    && UpTrace(u, st.trace)
  }

  /** Bounds the steps that are left, the watcher's included. */
  function UpMeasure(u: Uploader, st: Store): nat {
    Measure(u.fan) + |st.events| +
    (match u.pc case Uploading => 6 case Touching => 5 case Posting => 4 case Filling => 1 case Returned => 0)
  }

  /* ----- every step keeps it ----- */

  lemma BeginInv(cfg: Config, files: seq<string>, st: Store)
    requires Distinct(files) && forall i :: 0 <= i < |files| ==> files[i] in st.src
    requires forall n :: Times(st.trace, Uploaded(n)) == 0
    requires Times(st.trace, SentinelPosted) == 0
    ensures UpInv(cfg, Begin(files, st.src), st, st.dest)
    ensures UpMeasure(Begin(files, st.src), st) == 7 * |files| + 9 + |st.events|
  {
    StartInv(|files|);
    var u := Begin(files, st.src);
    assert forall i: nat :: i < |files| ==> FileAt(cfg, u, st.dest, st.dest, i);
    assert forall i: nat :: i < |files| ==> AttemptAt(u, st.trace, i);
  }

  lemma UpStepShape(cfg: Config, u: Uploader, st: Store, m: UpMove)
    requires UpShape(u) && SourceInv(cfg, u, st.src) && UpEnabled(cfg, u, st, m)
    ensures UpShape(UploaderNext(cfg, u, st, m))
    ensures SourceInv(cfg, UploaderNext(cfg, u, st, m), StoreNext(cfg, u, st, m).src)
    ensures UpMeasure(UploaderNext(cfg, u, st, m), StoreNext(cfg, u, st, m)) < UpMeasure(u, st)
  {
    match m
    case Worker(fm) =>
      if fm.Work? {
        AdvanceInv(u.fan, fm.i, WorkerPhase(cfg, u.fan.ws[fm.i], u.files[fm.i], st.src));
      } else {
        SpawnInv(u.fan, fm);
      }
    case _ =>
  }

  lemma WorkerDest(cfg: Config, u: Uploader, st: Store, dest0: DestDir, i: nat)
    requires UpShape(u) && SourceInv(cfg, u, st.src) && DestInv(cfg, u, st.dest, dest0)
    requires UpEnabled(cfg, u, st, Worker(Work(i)))
    requires UpShape(UploaderNext(cfg, u, st, Worker(Work(i))))
    ensures DestInv(cfg, UploaderNext(cfg, u, st, Worker(Work(i))), StoreNext(cfg, u, st, Worker(Work(i))).dest, dest0)
  {
    var u', st' := UploaderNext(cfg, u, st, Worker(Work(i))), StoreNext(cfg, u, st, Worker(Work(i)));
    var n := u.files[i];
    assert FileAt(cfg, u, st.dest, dest0, i);
    forall k: nat | k < |u.files| ensures FileAt(cfg, u', st'.dest, dest0, k) {
      assert FileAt(cfg, u, st.dest, dest0, k);
      if k != i { assert u.files[k] != n; }
    }
  }

  lemma SpawnDest(cfg: Config, u: Uploader, st: Store, dest0: DestDir, fm: FanMove)
    requires UpShape(u) && DestInv(cfg, u, st.dest, dest0)
    requires UpEnabled(cfg, u, st, Worker(fm)) && !fm.Work?
    requires UpShape(UploaderNext(cfg, u, st, Worker(fm)))
    ensures DestInv(cfg, UploaderNext(cfg, u, st, Worker(fm)), st.dest, dest0)
  {
    var u' := UploaderNext(cfg, u, st, Worker(fm));
    forall k: nat | k < |u.files| ensures FileAt(cfg, u', st.dest, dest0, k) {
      assert FileAt(cfg, u, st.dest, dest0, k);
    }
  }

  /** Before the sentinel is posted, the destination agrees with the sequential upload. */
  lemma JoinedDest(cfg: Config, u: Uploader, dest: DestDir, dest0: DestDir)
    requires UpShape(u) && DestInv(cfg, u, dest, dest0) && u.fan.joined
    ensures var seqDest := UploadAll(dest0, u.listed, u.files, cfg.upload);
            forall n :: n != SENTINEL || u.pc in {Touching, Posting} ==> Get(dest, n) == Get(seqDest, n)
  {
    var seqDest := UploadAll(dest0, u.listed, u.files, cfg.upload);
    UploadAllAt(dest0, u.listed, u.files, cfg.upload);
    forall n | n != SENTINEL || u.pc in {Touching, Posting} ensures Get(dest, n) == Get(seqDest, n) {
      if n in u.files {
        var i: nat :| i < |u.files| && u.files[i] == n;
        assert FileAt(cfg, u, dest, dest0, i);
      }
    }
  }

  lemma SentinelDest(cfg: Config, u: Uploader, st: Store, dest0: DestDir, m: UpMove)
    requires UpShape(u) && SourceInv(cfg, u, st.src) && DestInv(cfg, u, st.dest, dest0)
    requires UpEnabled(cfg, u, st, m) && !m.Worker?
    requires UpShape(UploaderNext(cfg, u, st, m))
    ensures DestInv(cfg, UploaderNext(cfg, u, st, m), StoreNext(cfg, u, st, m).dest, dest0)
  {
    var u', st' := UploaderNext(cfg, u, st, m), StoreNext(cfg, u, st, m);
    forall k: nat | k < |u.files| && (u.files[k] != SENTINEL || u'.pc in {Uploading, Touching, Posting})
      ensures FileAt(cfg, u', st'.dest, dest0, k)
    {
      assert FileAt(cfg, u, st.dest, dest0, k);
    }
    if m.PostSentinel? || m.FillSentinel? {
      JoinedDest(cfg, u, st.dest, dest0);
    }
  }

  lemma UpStepDest(cfg: Config, u: Uploader, st: Store, dest0: DestDir, m: UpMove)
    requires UpShape(u) && SourceInv(cfg, u, st.src) && DestInv(cfg, u, st.dest, dest0)
    requires UpEnabled(cfg, u, st, m)
    ensures UpShape(UploaderNext(cfg, u, st, m))
    ensures DestInv(cfg, UploaderNext(cfg, u, st, m), StoreNext(cfg, u, st, m).dest, dest0)
  {
    UpStepShape(cfg, u, st, m);
    if m.Worker? {
      if m.m.Work? { WorkerDest(cfg, u, st, dest0, m.m.i); } else { SpawnDest(cfg, u, st, dest0, m.m); }
    } else {
      SentinelDest(cfg, u, st, dest0, m);
    }
  }

  lemma AttemptEnds(u: Uploader, trace: seq<Effect>, i: nat, fan': Fan)
    requires UpTrace(u, trace) && Distinct(u.files)
    requires i < |u.files| && !u.fan.ws[i].Over() && fan'.ws == u.fan.ws[i := Leaving]
    ensures UpTrace(u.(fan := fan'), trace + [Uploaded(u.files[i])])
  {
    var u', e := u.(fan := fan'), Uploaded(u.files[i]);
    forall k: nat | k < |u.files| ensures AttemptAt(u', trace + [e], k) {
      assert AttemptAt(u, trace, k);
      TimesAppend(trace, e, Uploaded(u.files[k]));
    }
    forall n | n !in u.files ensures Times(trace + [e], Uploaded(n)) == 0 {
      TimesAppend(trace, e, Uploaded(n));
    }
    TimesAppend(trace, e, SentinelPosted);
  }

  lemma AttemptGoesOn(u: Uploader, trace: seq<Effect>, fan': Fan)
    requires UpTrace(u, trace) && |fan'.ws| == |u.fan.ws|
    requires forall i :: 0 <= i < |fan'.ws| ==> (fan'.ws[i].Over() <==> u.fan.ws[i].Over())
    ensures UpTrace(u.(fan := fan'), trace)
  {
    forall k: nat | k < |u.files| ensures AttemptAt(u.(fan := fan'), trace, k) {
      assert AttemptAt(u, trace, k);
    }
  }

  /** Effects of other goroutines leave the bookkeeping alone. */
  lemma OtherTrace(u: Uploader, trace: seq<Effect>, e: Effect)
    requires UpTrace(u, trace) && !e.Uploaded? && !e.SentinelPosted?
    ensures UpTrace(u, trace + [e])
  {
    forall k: nat | k < |u.files| ensures AttemptAt(u, trace + [e], k) {
      assert AttemptAt(u, trace, k);
      TimesAppend(trace, e, Uploaded(u.files[k]));
    }
    forall n | n !in u.files ensures Times(trace + [e], Uploaded(n)) == 0 {
      TimesAppend(trace, e, Uploaded(n));
    }
    TimesAppend(trace, e, SentinelPosted);
  }

  lemma SentinelAttempt(u: Uploader, trace: seq<Effect>)
    requires UpTrace(u, trace) && u.pc != Returned
    ensures UpTrace(u.(pc := Returned), trace + [SentinelPosted])
  {
    var u', e := u.(pc := Returned), SentinelPosted;
    forall k: nat | k < |u.files| ensures AttemptAt(u', trace + [e], k) {
      assert AttemptAt(u, trace, k);
      TimesAppend(trace, e, Uploaded(u.files[k]));
    }
    forall n | n !in u.files ensures Times(trace + [e], Uploaded(n)) == 0 {
      TimesAppend(trace, e, Uploaded(n));
    }
    TimesAppend(trace, e, SentinelPosted);
  }

  lemma PcTrace(u: Uploader, trace: seq<Effect>, pc: UpPc)
    requires UpTrace(u, trace) && u.pc != Returned && pc != Returned
    ensures UpTrace(u.(pc := pc), trace)
  {
    forall k: nat | k < |u.files| ensures AttemptAt(u.(pc := pc), trace, k) {
      assert AttemptAt(u, trace, k);
    }
  }

  lemma WorkerTrace(cfg: Config, u: Uploader, st: Store, m: UpMove)
    requires m.Worker? && UpShape(u) && UpTrace(u, st.trace) && UpEnabled(cfg, u, st, m)
    ensures UpTrace(UploaderNext(cfg, u, st, m), StoreNext(cfg, u, st, m).trace)
  {
    var u', fm := UploaderNext(cfg, u, st, m), m.m;
    if fm.Work? && u'.fan.ws[fm.i].Leaving? {
      AttemptEnds(u, st.trace, fm.i, u'.fan);
    } else {
      AttemptGoesOn(u, st.trace, u'.fan);
      if fm.Join? { PcTrace(u.(fan := u'.fan), st.trace, Touching); }
    }
  }

  lemma CallerTrace(cfg: Config, u: Uploader, st: Store, m: UpMove)
    requires !m.Worker? && UpTrace(u, st.trace) && UpEnabled(cfg, u, st, m)
    ensures UpTrace(UploaderNext(cfg, u, st, m), StoreNext(cfg, u, st, m).trace)
  {
    match m
    case Touch => PcTrace(u, st.trace, Posting);
    case PostSentinel =>
      if UploaderNext(cfg, u, st, m).pc == Returned {
        SentinelAttempt(u, st.trace);
      } else {
        PcTrace(u, st.trace, Filling);
      }
    case FillSentinel => SentinelAttempt(u, st.trace);
    case Watch =>
  }

  lemma UpStepTrace(cfg: Config, u: Uploader, st: Store, m: UpMove)
    requires UpShape(u) && UpTrace(u, st.trace) && UpEnabled(cfg, u, st, m)
    ensures UpTrace(UploaderNext(cfg, u, st, m), StoreNext(cfg, u, st, m).trace)
  {
    if m.Worker? { WorkerTrace(cfg, u, st, m); } else { CallerTrace(cfg, u, st, m); }
  }

  lemma UpStep(cfg: Config, u: Uploader, st: Store, dest0: DestDir, m: UpMove)
    requires UpInv(cfg, u, st, dest0) && UpEnabled(cfg, u, st, m)
    ensures UpInv(cfg, UploaderNext(cfg, u, st, m), StoreNext(cfg, u, st, m), dest0)
    ensures UpMeasure(UploaderNext(cfg, u, st, m), StoreNext(cfg, u, st, m)) < UpMeasure(u, st)
  {
    UpStepShape(cfg, u, st, m);
    UpStepDest(cfg, u, st, dest0, m);
    UpStepTrace(cfg, u, st, m);
  }

  /** Until the call has returned it has a step. */
  lemma UpProgress(cfg: Config, u: Uploader, st: Store, dest0: DestDir) returns (m: UpMove)
    requires UpInv(cfg, u, st, dest0) && u.pc != Returned
    ensures UpEnabled(cfg, u, st, m) && m != Watch
  {
    match u.pc
    case Uploading =>
      var fm := FanProgress(u.fan);
      m := Worker(fm);
    case Touching => m := Touch;
    case Posting => m := PostSentinel;
    case Filling => m := FillSentinel;
  }

  /** Confluence: whatever the schedule and whatever failed, the parallel uploader leaves the
      destination that the sequential upload of the same files leaves, sentinel included. */
  lemma UploadConfluence(cfg: Config, u: Uploader, st: Store, dest0: DestDir)
    requires UpInv(cfg, u, st, dest0) && u.pc == Returned
    ensures st.dest == UploadThenSignal(cfg, dest0, u.listed, u.files)
  {
    JoinedDest(cfg, u, st.dest, dest0);
    SameLookups(st.dest, UploadThenSignal(cfg, dest0, u.listed, u.files));
  }
}
