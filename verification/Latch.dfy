/**
 The first-error latch of the API server (api-server/signals.go) and the select of manager.Start
 that waits for it (api-server/manager.go).
 */
module Latch {
  import opened Storage

  /* ----- the object ----- */

  /** What one complete SignalError call makes of the stored error; `None` is nil. */
  function Signal(stored: Option<string>, err: Option<string>): Option<string> {
    if err.None? || stored.Some? then stored else err
  }

  /** The calls one after the other, in the order in which they hold the mutex. */
  function SignalAll(calls: seq<Option<string>>): Option<string> {
    if calls == [] then None else Signal(SignalAll(calls[..|calls| - 1]), calls[|calls| - 1])
  }

  /** Only the first non-nil error counts. */
  lemma {:induction false} FirstErrorWins(calls: seq<Option<string>>)
    ensures SignalAll(calls) == None <==> forall k :: 0 <= k < |calls| ==> calls[k] == None
    ensures forall k :: 0 <= k < |calls| && calls[k].Some? && (forall j :: 0 <= j < k ==> calls[j] == None) ==>
              SignalAll(calls) == calls[k]
  {
    if calls == [] {
    } else {
      FirstErrorWins(calls[..|calls| - 1]);
    }
  }

  class ErrSignaler {
    var err: Option<string>
    var closed: bool

    /** Outside the critical section the channel is closed exactly when an error is stored. */
    predicate Valid() reads this { closed <==> err.Some? }

    constructor ()
      ensures Valid() && err == None
    {
      err, closed := None, false;
    }

    method SignalError(e: Option<string>)
      requires Valid()
      modifies this
      ensures Valid() && err == Signal(old(err), e)
      ensures old(closed) ==> closed && err == old(err)
      ensures e.Some? && old(err).None? ==> err == e && closed
      ensures e.None? || old(err).Some? ==> err == old(err) && closed == old(closed)
    {
      if e.None? {
        return;
      }
      if err.Some? {
        return;
      }
      err := e;
      closed := true;
    }

    method Error() returns (e: Option<string>)
      requires Valid()
      ensures e == err && (closed ==> e.Some?)
    {
      e := err;
    }
  }

  /* ----- any number of concurrent callers, and one Start ----- */

  /** `Holding`: has the mutex and decides; `Stored`: has stored its error and is about to close the
      channel; `Releasing`: about to unlock. */
  datatype CallerPc = Ready | Holding | Stored | Releasing | Returned

  /** `Selecting`: in the select; `Woken`: took the error arm and wants the mutex; `Reading`: holds
      it; `Leaving`: has read `value` and is about to unlock; `Exited`: has returned. */
  datatype StartPc =
    | Selecting | Woken | Reading
    | Leaving(value: Option<string>)
    | Exited(value: Option<string>, errorArm: bool)

  datatype Holder = Free | Caller(i: nat) | Starter

  /** `closes` counts the closes of the signal channel; `order` are the callers that have passed their
      tests, in the order in which they held the mutex. */
  datatype State = State(
    err: Option<string>, closes: nat, mutex: Holder,
    pcs: seq<CallerPc>, start: StartPc, order: seq<nat>)

  datatype Move = Lock(i: nat) | Decide(i: nat) | Close(i: nat) | Unlock(i: nat)
                | StopFires | ErrorFires | StartLocks | StartReads | StartUnlocks

  function Init(n: nat): State {
    State(None, 0, Free, seq(n, i => Ready), Selecting, [])
  }

  predicate At(s: State, i: nat, pc: CallerPc) { i < |s.pcs| && s.pcs[i] == pc }

  predicate Enabled(s: State, m: Move) {
    match m
    case Lock(i) => At(s, i, Ready) && s.mutex == Free
    case Decide(i) => At(s, i, Holding)
    case Close(i) => At(s, i, Stored)
    case Unlock(i) => At(s, i, Releasing)
    case StopFires => s.start == Selecting
    case ErrorFires => s.start == Selecting && s.closes > 0
    case StartLocks => s.start == Woken && s.mutex == Free
    case StartReads => s.start == Reading
    case StartUnlocks => s.start.Leaving?
  }

  function Next(errs: seq<Option<string>>, s: State, m: Move): State
    requires |errs| == |s.pcs| && Enabled(s, m)
  {
    match m
    case Lock(i) => s.(mutex := Caller(i), pcs := s.pcs[i := Holding])
    case Decide(i) =>
      var s' := s.(order := s.order + [i]);
      if errs[i].None? || s.err.Some? then s'.(pcs := s.pcs[i := Releasing])
      else s'.(err := errs[i], pcs := s.pcs[i := Stored])
    case Close(i) => s.(closes := s.closes + 1, pcs := s.pcs[i := Releasing])
    case Unlock(i) => s.(mutex := Free, pcs := s.pcs[i := Returned])
    case StopFires => s.(start := Exited(None, false))
    case ErrorFires => s.(start := Woken)
    case StartLocks => s.(start := Reading, mutex := Starter)
    case StartReads => s.(start := Leaving(s.err))
    case StartUnlocks => s.(start := Exited(s.start.value, true), mutex := Free)
  }

  ghost predicate Run(errs: seq<Option<string>>, run: seq<State>, ms: seq<Move>) {
    && |run| == |ms| + 1 && run[0] == Init(|errs|)
    && forall k :: 0 <= k < |ms| ==>
         |run[k].pcs| == |errs| && Enabled(run[k], ms[k]) && run[k + 1] == Next(errs, run[k], ms[k])
  }

  /* ----- what every run keeps ----- */

  /** The caller is past its tests. */
  predicate Past(pc: CallerPc) {
    pc.Stored? || pc.Releasing? || pc.Returned?
  }

  /** `order` lists exactly the callers past their tests, each once. */
  ghost predicate OrderInv(s: State) {
    && (forall k :: 0 <= k < |s.order| ==> s.order[k] < |s.pcs| && Past(s.pcs[s.order[k]]))
    && (forall i: nat :: i < |s.pcs| && Past(s.pcs[i]) ==> i in s.order)
    && (forall j, k :: 0 <= j < k < |s.order| ==> s.order[j] != s.order[k])
  }

  /** The errors of these calls. */
  function Decided(errs: seq<Option<string>>, order: seq<nat>): seq<Option<string>> {
    seq(|order|, k requires 0 <= k < |order| => if order[k] < |errs| then errs[order[k]] else None)
  }

  ghost predicate MutexInv(s: State) {
    && (forall i: nat :: i < |s.pcs| ==> (s.pcs[i] in {Holding, Stored, Releasing} <==> s.mutex == Caller(i)))
    && (s.start.Reading? || s.start.Leaving? <==> s.mutex == Starter)
    && (s.mutex.Caller? ==> s.mutex.i < |s.pcs|)
  }

  ghost predicate ErrInv(errs: seq<Option<string>>, s: State) {
    && s.err == SignalAll(Decided(errs, s.order))
    && (s.closes > 0 ==> s.err.Some?)
    && ((exists i: nat :: At(s, i, Stored)) ==> s.err.Some? && s.closes == 0)
    && (s.err.Some? && s.closes == 0 ==> exists i: nat :: At(s, i, Stored))
    && s.closes <= 1
  }

  ghost predicate StartInv(s: State) {
    && (s.start.Woken? || s.start.Reading? ==> s.closes > 0)
    && (s.start.Leaving? ==> s.start.value.Some? && s.start.value == s.err)
    && (s.start.Exited? && s.start.errorArm ==> s.start.value.Some? && s.start.value == s.err)
    && (s.start.Exited? && !s.start.errorArm ==> s.start.value == None)
  }

  ghost predicate Inv(errs: seq<Option<string>>, s: State) {
    |s.pcs| == |errs| && MutexInv(s) && OrderInv(s) && ErrInv(errs, s) && StartInv(s)
  }

  predicate CallerMove(m: Move) {
    m.Lock? || m.Decide? || m.Close? || m.Unlock?
  }

  lemma OrderStep(errs: seq<Option<string>>, s: State, m: Move)
    requires |s.pcs| == |errs| && OrderInv(s) && Enabled(s, m)
    ensures OrderInv(Next(errs, s, m))
  {
    var s' := Next(errs, s, m);
    if m.Decide? {
      assert s'.order == s.order + [m.i];
      assert m.i !in s.order;
    }
    forall i: nat | i < |s'.pcs| && Past(s'.pcs[i]) ensures i in s'.order {
      assert i == |s.pcs| || Past(s.pcs[i]) || (m.Decide? && i == m.i);
    }
  }

  lemma DecidedAppend(errs: seq<Option<string>>, order: seq<nat>, i: nat)
    requires i < |errs|
    ensures SignalAll(Decided(errs, order + [i])) == Signal(SignalAll(Decided(errs, order)), errs[i])
  {
    var calls := Decided(errs, order + [i]);
    assert calls[..|order|] == Decided(errs, order);
  }

  lemma CallerStep(errs: seq<Option<string>>, s: State, m: Move)
    requires Inv(errs, s) && Enabled(s, m) && CallerMove(m)
    ensures MutexInv(Next(errs, s, m)) && ErrInv(errs, Next(errs, s, m)) && StartInv(Next(errs, s, m))
  {
    var s' := Next(errs, s, m);
    if m.Decide? {
      DecidedAppend(errs, s.order, m.i);
      if s'.pcs[m.i] == Stored { assert At(s', m.i, Stored); }
    }
    if exists i: nat :: At(s, i, Stored) {
      var i: nat :| At(s, i, Stored);
      assert s.mutex == Caller(i);
    }
  }

  lemma StartStep(errs: seq<Option<string>>, s: State, m: Move)
    requires Inv(errs, s) && Enabled(s, m) && !CallerMove(m)
    ensures MutexInv(Next(errs, s, m)) && ErrInv(errs, Next(errs, s, m)) && StartInv(Next(errs, s, m))
  {
    var s' := Next(errs, s, m);
    assert forall i: nat :: At(s', i, Stored) <==> At(s, i, Stored);
  }

  lemma {:induction false} RunInv(errs: seq<Option<string>>, run: seq<State>, ms: seq<Move>, k: nat)
    requires Run(errs, run, ms) && k < |run|
    ensures Inv(errs, run[k])
  {
    if k == 0 {
    } else {
      RunInv(errs, run, ms, k - 1);
      OrderStep(errs, run[k - 1], ms[k - 1]);
      if CallerMove(ms[k - 1]) {
        CallerStep(errs, run[k - 1], ms[k - 1]);
      } else {
        StartStep(errs, run[k - 1], ms[k - 1]);
      }
    }
  }

  /** In every interleaving the channel is closed at most once, never before an error is stored, and
      whenever the mutex is free exactly if one is stored. */
  lemma LatchIsConsistent(errs: seq<Option<string>>, run: seq<State>, ms: seq<Move>, k: nat)
    requires Run(errs, run, ms) && k < |run|
    ensures run[k].closes <= 1
    ensures run[k].closes == 1 ==> run[k].err.Some?
    ensures run[k].mutex == Free ==> (run[k].closes == 1 <==> run[k].err.Some?)
    ensures forall i :: Enabled(run[k], Close(i)) ==> run[k].closes == 0
  {
    RunInv(errs, run, ms, k);
    if run[k].err.Some? && run[k].closes == 0 {
      var i: nat :| At(run[k], i, Stored);
      assert run[k].mutex == Caller(i);
    }
  }

  /** No error gets lost: nothing is stored exactly if no call past its tests had an error.  What is
      stored is the error of such a call, and of the first of them in the order of the critical
      sections; that order lists the calls past their tests, each once. */
  lemma FirstErrorIsStored(errs: seq<Option<string>>, run: seq<State>, ms: seq<Move>, k: nat)
    requires Run(errs, run, ms) && k < |run|
    ensures |run[k].pcs| == |errs| && OrderInv(run[k])
    ensures run[k].err.None? <==> forall i: nat :: i < |errs| && Past(run[k].pcs[i]) ==> errs[i].None?
    ensures forall i: nat :: i < |errs| && run[k].pcs[i] == Returned && errs[i].Some? ==> run[k].err.Some?
    ensures run[k].err.Some? ==> exists i: nat :: i < |errs| && Past(run[k].pcs[i]) && errs[i] == run[k].err
    ensures forall j: nat :: j < |run[k].order| && IsFirst(errs, run[k].order, j) ==>
              run[k].order[j] < |errs| && run[k].err == errs[run[k].order[j]]
  {
    RunInv(errs, run, ms, k);
    var s, calls := run[k], Decided(errs, run[k].order);
    FirstErrorWins(calls);
    if s.err.Some? {
      var j := FirstOf(errs, s.order);
      assert Past(s.pcs[s.order[j]]) && calls[j] == errs[s.order[j]];
    }
    forall i: nat | i < |errs| && Past(s.pcs[i]) && errs[i].Some? ensures s.err.Some? {
      var j :| 0 <= j < |s.order| && s.order[j] == i;
      assert calls[j] == errs[i];
    }
    forall j: nat | j < |s.order| && IsFirst(errs, s.order, j)
      ensures s.order[j] < |errs| && s.err == errs[s.order[j]]
    {
      assert calls[j] == errs[s.order[j]];
    }
  }

  /** The `j`-th call in the order is the first with an error. */
  ghost predicate IsFirst(errs: seq<Option<string>>, order: seq<nat>, j: nat)
    requires j < |order|
  {
    && order[j] < |errs| && errs[order[j]].Some?
    && forall h :: 0 <= h < j && order[h] < |errs| ==> errs[order[h]] == None
  }

  lemma {:induction false} FirstOf(errs: seq<Option<string>>, order: seq<nat>) returns (j: nat)
    requires SignalAll(Decided(errs, order)).Some?
    ensures j < |order| && IsFirst(errs, order, j) && errs[order[j]] == SignalAll(Decided(errs, order))
  {
    var calls, init := Decided(errs, order), order[..|order| - 1];
    assert calls[..|order| - 1] == Decided(errs, init);
    if SignalAll(Decided(errs, init)).Some? {
      j := FirstOf(errs, init);
    } else {
      j := |order| - 1;
      FirstErrorWins(Decided(errs, init));
      forall h | 0 <= h < j && order[h] < |errs| ensures errs[order[h]] == None {
        assert Decided(errs, init)[h] == errs[order[h]];
      }
    }
  }

  /** The stored error never changes. */
  lemma {:induction false} StoredErrorIsFinal(errs: seq<Option<string>>, run: seq<State>, ms: seq<Move>, j: nat, k: nat)
    requires Run(errs, run, ms) && j <= k < |run| && run[j].err.Some?
    ensures run[k].err == run[j].err
  {
    if j == k {
    } else {
      StoredErrorIsFinal(errs, run, ms, j, k - 1);
      assert run[k] == Next(errs, run[k - 1], ms[k - 1]);
    }
  }

  /** The error arm of Start never returns nil but the stored error; the other arm returns nil. */
  lemma ErrorArmReturnsAnError(errs: seq<Option<string>>, run: seq<State>, ms: seq<Move>, k: nat)
    requires Run(errs, run, ms) && k < |run| && run[k].start.Exited?
    ensures run[k].start.errorArm <==> run[k].start.value.Some?
    ensures run[k].start.errorArm ==> run[k].start.value == run[k].err
  {
    RunInv(errs, run, ms, k);
  }

  /** No deadlock: a run that cannot go on has all calls returned and Start returned; the channel is
      then closed exactly if some call had an error. */
  lemma EveryCallReturns(errs: seq<Option<string>>, run: seq<State>, ms: seq<Move>)
    requires Run(errs, run, ms) && forall m :: !Enabled(run[|ms|], m)
    ensures |run[|ms|].pcs| == |errs|
    ensures forall i: nat :: i < |errs| ==> run[|ms|].pcs[i] == Returned
    ensures run[|ms|].start.Exited?
    ensures run[|ms|].closes == 1 <==> exists i: nat :: i < |errs| && errs[i].Some?
  {
    RunInv(errs, run, ms, |ms|);
    StuckIsOver(run[|ms|]);
    FirstErrorIsStored(errs, run, ms, |ms|);
    LatchIsConsistent(errs, run, ms, |ms|);
    ErrorIffSome(errs, run[|ms|]);
  }

  lemma ErrorIffSome(errs: seq<Option<string>>, s: State)
    requires |s.pcs| == |errs| && forall i: nat :: i < |errs| ==> s.pcs[i] == Returned
    requires s.err.None? <==> forall i: nat :: i < |errs| && Past(s.pcs[i]) ==> errs[i].None?
    ensures s.err.Some? <==> exists i: nat :: i < |errs| && errs[i].Some?
  {
    if s.err.Some? {
      var i: nat :| i < |errs| && Past(s.pcs[i]) && errs[i].Some?;
    }
    if i: nat :| i < |errs| && errs[i].Some? {
      assert Past(s.pcs[i]);
    }
  }

  lemma StuckIsOver(s: State)
    requires MutexInv(s) && forall m :: !Enabled(s, m)
    ensures s.mutex == Free && s.start.Exited? && forall i: nat :: i < |s.pcs| ==> s.pcs[i] == Returned
  {
    if s.mutex != Free { var m := HolderMoves(s); }
    assert !Enabled(s, StopFires) && !Enabled(s, StartLocks);
    forall i: nat | i < |s.pcs| ensures s.pcs[i] == Returned {
      assert !Enabled(s, Lock(i));
    }
  }

  lemma HolderMoves(s: State) returns (m: Move)
    requires MutexInv(s) && s.mutex != Free
    ensures Enabled(s, m)
  {
    match s.mutex
    case Caller(i) => m := match s.pcs[i] case Holding => Decide(i) case Stored => Close(i) case _ => Unlock(i);
    case Starter => m := if s.start.Reading? then StartReads else StartUnlocks;
  }
}
