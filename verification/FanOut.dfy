/**
 A loop that starts one goroutine per item and joins them on a `sync.WaitGroup`:

     for each item { wg.Add(1); go worker(item) }
     wg.Wait()

 The repository uses it twice: to checkpoint containers and to upload files.  The spawner's
 `Add` and `go` are separate steps, every worker moves on its own, and `Wait` returns only
 when the counter is zero.  What a worker does between its phases belongs to the client.
 */
module FanOut {

  /** Progress of one worker.
      - `Begun`: the goroutine runs, its external call is not issued.
      - `Underway`: the external call is issued (for an upload: the entry's info was read).
      - `Opened`: used by uploads only, the destination file exists but is still being filled.
      - `Leaving`: all effects are over, only the deferred `wg.Done()` is left. */
  datatype Phase = Idle | Begun | Underway | Opened | Leaving | Finished {
    predicate Active() {
      Begun? || Underway? || Opened? || Leaving?
    }
    /** The worker's external effects are over. */
    predicate Over() {
      Leaving? || Finished?
    }
  }

  /** `next` counts the started workers, `added` says that `wg.Add(1)` ran for a worker that
      is not started yet, `waiting` that the spawner has entered `wg.Wait()`, `joined` that it
      has returned from it. */
  datatype Fan = Fan(next: nat, added: bool, waiting: bool, joined: bool, wg: int, ws: seq<Phase>)

  datatype FanMove = Add | Go | Wait | Join | Work(i: nat)

  function Start(n: nat): Fan {
    Fan(0, false, false, false, 0, seq(n, i => Idle))
  }

  predicate FanEnabled(f: Fan, m: FanMove) {
    match m
    case Add => f.next < |f.ws| && !f.added
    case Go => f.next < |f.ws| && f.added
    case Wait => f.next == |f.ws| && !f.added && !f.waiting
    case Join => f.waiting && !f.joined && f.wg == 0
    case Work(i) => i < |f.ws| && f.ws[i].Active()
  }

  /** The spawner's own steps; `Work` is `Advance`. */
  function Spawn(f: Fan, m: FanMove): Fan
    requires FanEnabled(f, m)
  {
    match m
    case Add => f.(added := true, wg := f.wg + 1)
    case Go => f.(added := false, next := f.next + 1, ws := f.ws[f.next := Begun])
    case Wait => f.(waiting := true)
    case Join => f.(joined := true)
    case Work(i) => f
  }

  function Rank(p: Phase): nat {
    match p
    case Idle => 0 case Begun => 1 case Underway => 2 case Opened => 3 case Leaving => 4 case Finished => 5
  }

  /** A worker goes on to phase `p`; reaching `Finished` is its `wg.Done()`. */
  predicate CanAdvance(f: Fan, i: nat, p: Phase) {
    && i < |f.ws| && f.ws[i].Active() && Rank(f.ws[i]) < Rank(p)
    && (p.Finished? ==> f.ws[i].Leaving?)
  }

  function Advance(f: Fan, i: nat, p: Phase): Fan
    requires CanAdvance(f, i, p)
  {
    f.(ws := f.ws[i := p], wg := if p.Finished? then f.wg - 1 else f.wg)
  }

  /** `wg.Add` and `wg.Done` panic when they would take the counter below zero. */
  predicate DonePanics(f: Fan) {
    f.wg <= 0 && exists i :: 0 <= i < |f.ws| && f.ws[i].Leaving?
  }

  /* ----- sums over workers ----- */

  function Total<T>(s: seq<T>, f: T -> nat): nat {
    if s == [] then 0 else f(s[0]) + Total(s[1..], f)
  }

  lemma {:induction false} TotalUpdate<T>(s: seq<T>, f: T -> nat, i: nat, x: T)
    requires i < |s|
    ensures Total(s[i := x], f) + f(s[i]) == Total(s, f) + f(x)
  {
    if i == 0 {
      assert s[0 := x][1..] == s[1..];
    } else {
      TotalUpdate(s[1..], f, i - 1, x);
      assert s[i := x][1..] == s[1..][i - 1 := x];
    }
  }

  lemma {:induction false} TotalAppend<T>(s: seq<T>, f: T -> nat, x: T)
    ensures Total(s + [x], f) == Total(s, f) + f(x)
  {
    if s == [] {
      assert s + [x] == [x];
    } else {
      TotalAppend(s[1..], f, x);
      assert (s + [x])[1..] == s[1..] + [x];
    }
  }

  lemma {:induction false} TotalAtLeast<T>(s: seq<T>, f: T -> nat, i: nat)
    requires i < |s|
    ensures f(s[i]) <= Total(s, f)
  {
    if i == 0 {
    } else {
      TotalAtLeast(s[1..], f, i - 1);
    }
  }

  lemma {:induction false} TotalWitness<T>(s: seq<T>, f: T -> nat) returns (i: nat)
    requires Total(s, f) > 0
    ensures i < |s| && f(s[i]) > 0
  {
    if f(s[0]) > 0 {
      i := 0;
    } else {
      i := TotalWitness(s[1..], f);
      i := i + 1;
    }
  }

  lemma {:induction false} TotalConstant<T>(s: seq<T>, f: T -> nat, c: nat)
    requires forall i :: 0 <= i < |s| ==> f(s[i]) == c
    ensures Total(s, f) == c * |s|
  {
    if s == [] {
    } else {
      TotalConstant(s[1..], f, c);
    }
  }

  function Busy(p: Phase): nat { if p.Active() then 1 else 0 }

  /** Upper bound on the steps a worker still causes, the watcher's included: creating the
      destination file puts one event into the watcher's queue. */
  function Weight(p: Phase): nat {
    match p
    case Idle => 7 case Begun => 5 case Underway => 4 case Opened => 2 case Leaving => 1 case Finished => 0
  }

  function Measure(f: Fan): nat {
    Total(f.ws, Weight)
    + (if f.added then 0 else 1) + (if f.waiting then 0 else 1) + (if f.joined then 0 else 1)
  }

  /* ----- the WaitGroup discipline ----- */

  ghost predicate FanInv(f: Fan) {
    && f.next <= |f.ws|
    && (f.added ==> f.next < |f.ws|)
    && (forall i :: 0 <= i < |f.ws| ==> (f.ws[i].Idle? <==> f.next <= i))
    && f.wg == Total(f.ws, Busy) + (if f.added then 1 else 0)
    && (f.waiting ==> f.next == |f.ws| && !f.added)
    && (f.joined ==> f.waiting && forall i :: 0 <= i < |f.ws| ==> f.ws[i].Finished?)
  }

  lemma StartInv(n: nat)
    ensures FanInv(Start(n)) && Measure(Start(n)) == 7 * n + 3
  {
    TotalConstant(Start(n).ws, Busy, 0);
    TotalConstant(Start(n).ws, Weight, 7);
  }

  lemma SpawnInv(f: Fan, m: FanMove)
    requires FanInv(f) && FanEnabled(f, m) && !m.Work?
    ensures FanInv(Spawn(f, m)) && Measure(Spawn(f, m)) < Measure(f)
  {
    match m
    case Add =>
    case Go =>
      TotalUpdate(f.ws, Busy, f.next, Begun);
      TotalUpdate(f.ws, Weight, f.next, Begun);
    case Wait =>
    case Join =>
      forall i | 0 <= i < |f.ws| ensures f.ws[i].Finished? {
        TotalAtLeast(f.ws, Busy, i);
      }
  }

  lemma AdvanceInv(f: Fan, i: nat, p: Phase)
    requires FanInv(f) && CanAdvance(f, i, p)
    ensures FanInv(Advance(f, i, p))
    ensures Measure(Advance(f, i, p)) + Weight(f.ws[i]) == Measure(f) + Weight(p)
  {
    TotalUpdate(f.ws, Busy, i, p);
    TotalUpdate(f.ws, Weight, i, p);
  }

  /** The counter is never taken below zero. */
  lemma NoNegativeCounter(f: Fan)
    requires FanInv(f)
    ensures !DonePanics(f) && f.wg >= 0
  {
    forall i | 0 <= i < |f.ws| && f.ws[i].Leaving? ensures f.wg > 0 {
      TotalAtLeast(f.ws, Busy, i);
    }
  }

  /** The fan-out after its first `k` workers have been started and nothing else has happened. */
  function FirstBegun(n: nat, k: nat): Fan {
    Fan(k, false, false, false, k, seq(n, i => if i < k then Begun else Idle))
  }

  lemma FirstBegunNext(n: nat, k: nat)
    ensures FirstBegun(n, 0) == Start(n)
    ensures k < n ==> FanEnabled(FirstBegun(n, k), Add)
    ensures k < n ==> FanEnabled(Spawn(FirstBegun(n, k), Add), Go)
    ensures k < n ==> Spawn(Spawn(FirstBegun(n, k), Add), Go) == FirstBegun(n, k + 1)
  {
    assert FirstBegun(n, 0).ws == Start(n).ws;
    if k < n {
      assert FirstBegun(n, k).ws[k := Begun] == FirstBegun(n, k + 1).ws;
    }
  }

  /** A fan-out that has not been joined always has a step. */
  lemma FanProgress(f: Fan) returns (m: FanMove)
    requires FanInv(f) && !f.joined
    ensures FanEnabled(f, m)
  {
    if f.next < |f.ws| {
      m := if f.added then Go else Add;
    } else if !f.waiting {
      m := Wait;
    } else if f.wg == 0 {
      m := Join;
    } else {
      var i := TotalWitness(f.ws, Busy);
      m := Work(i);
    }
  }
}
