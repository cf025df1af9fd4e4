/**
 CheckpointPodPipelined (controllers/checkpoint.go): one goroutine per container asks the
 kubelet for a checkpoint; the function returns when all of them are done.
 */
module Capture {
  import opened FanOut
  import opened Storage
  import opened Model

  /** A request is issued, then answered (writing the snapshot if it succeeded), then the
      goroutine ends.  A failed request is only logged. */
  function CaptureFan(f: Fan, m: FanMove): Fan
    requires FanEnabled(f, m)
    requires forall i :: 0 <= i < |f.ws| ==> !f.ws[i].Opened?
  {
    match m
    case Work(i) =>
      (match f.ws[i]
       case Begun => Advance(f, i, Underway)
       case Underway => Advance(f, i, Leaving)
       case Leaving => Advance(f, i, Finished))
    case _ => Spawn(f, m)
  }

  function CaptureStore(cfg: Config, f: Fan, st: Store, m: FanMove): Store
    requires FanEnabled(f, m)
  {
    match m
    case Work(i) =>
      (match f.ws[i]
       case Begun => Log(st, Issued(i))
       case Underway => Log(st.(src := Answer(cfg, st.src, i)), Answered(i))
       case _ => st)
    case _ => st
  }

  /* ----- what every schedule keeps ----- */

  ghost function OverSet(ws: seq<Phase>): iset<nat> {
    iset i: nat | i < |ws| && ws[i].Over()
  }

  /** The requests, by container name, in the order they were issued. */
  function Requests(trace: seq<Effect>, containers: seq<string>): seq<string> {
    if trace == [] then []
    else
      var e := trace[|trace| - 1];
      Requests(trace[..|trace| - 1], containers) +
      (if e.Issued? && e.i < |containers| then [containers[e.i]] else [])
  }

  /** How many requests for a container of name `c` are still to be issued. */
  function Unissued(ws: seq<Phase>, containers: seq<string>, c: string): nat
    requires |ws| == |containers|
  {
    if ws == [] then 0
    else Open(ws[0], containers[0], c) + Unissued(ws[1..], containers[1..], c)
  }

  function Open(p: Phase, container: string, c: string): nat {
    if (p.Idle? || p.Begun?) && container == c then 1 else 0
  }

  lemma {:induction false} UnissuedUpdate(ws: seq<Phase>, containers: seq<string>, c: string, i: nat, p: Phase)
    requires |ws| == |containers| && i < |ws|
    ensures Unissued(ws, containers, c) + Open(p, containers[i], c) ==
            Unissued(ws[i := p], containers, c) + Open(ws[i], containers[i], c)
  {
    if i == 0 {
      assert ws[0 := p][1..] == ws[1..];
    } else {
      UnissuedUpdate(ws[1..], containers[1..], c, i - 1, p);
      assert ws[i := p][1..] == ws[1..][i - 1 := p];
    }
  }

  lemma {:induction false} UnissuedAll(ws: seq<Phase>, containers: seq<string>, c: string)
    requires |ws| == |containers|
    requires forall i :: 0 <= i < |ws| ==> ws[i].Idle?
    ensures Unissued(ws, containers, c) == multiset(containers)[c]
  {
    if ws == [] {
    } else {
      UnissuedAll(ws[1..], containers[1..], c);
      assert containers == [containers[0]] + containers[1..];
    }
  }

  lemma {:induction false} UnissuedNone(ws: seq<Phase>, containers: seq<string>, c: string)
    requires |ws| == |containers|
    requires forall i :: 0 <= i < |ws| ==> ws[i].Finished?
    ensures Unissued(ws, containers, c) == 0
  {
    if ws == [] {
    } else {
      UnissuedNone(ws[1..], containers[1..], c);
    }
  }

  lemma RequestsAppend(trace: seq<Effect>, e: Effect, containers: seq<string>)
    ensures Requests(trace + [e], containers) ==
            Requests(trace, containers) + (if e.Issued? && e.i < |containers| then [containers[e.i]] else [])
  {
    assert (trace + [e])[..|trace|] == trace;
  }

  /** Workers and trace agree: request `i` was issued exactly once if worker `i` got that far and
      never otherwise, and no other request was issued. */
  ghost predicate CountInv(f: Fan, trace: seq<Effect>) {
    && (forall i :: 0 <= i < |f.ws| ==> !f.ws[i].Opened?)
    && (forall i: nat :: CountAt(f.ws, trace, i))
  }

  ghost predicate CountAt(ws: seq<Phase>, trace: seq<Effect>, i: nat) {
    var p := if i < |ws| then ws[i] else Idle;
    && Times(trace, Issued(i)) == (if p.Idle? || p.Begun? then 0 else 1)
    && Times(trace, Answered(i)) == (if p.Over() then 1 else 0)
  }

  /** Issued and outstanding requests together are the container list. */
  ghost predicate NameInv(f: Fan, trace: seq<Effect>, containers: seq<string>) {
    && |f.ws| == |containers|
    && forall c :: NameAt(f.ws, trace, containers, c)
  }

  ghost predicate NameAt(ws: seq<Phase>, trace: seq<Effect>, containers: seq<string>, c: string)
    requires |ws| == |containers|
  {
    multiset(Requests(trace, containers))[c] + Unissued(ws, containers, c) == multiset(containers)[c]
  }

  ghost predicate RequestInv(cfg: Config, f: Fan, trace: seq<Effect>) {
    CountInv(f, trace) && NameInv(f, trace, cfg.containers)
  }

  lemma CaptureStartInv(cfg: Config, trace: seq<Effect>)
    requires forall e :: e in trace ==> !e.Issued? && !e.Answered?
    ensures RequestInv(cfg, Start(|cfg.containers|), trace)
  {
    var f := Start(|cfg.containers|);
    NoRequests(trace, cfg.containers);
    forall c ensures NameAt(f.ws, trace, cfg.containers, c) {
      UnissuedAll(f.ws, cfg.containers, c);
    }
    forall i: nat ensures Times(trace, Issued(i)) == 0 && Times(trace, Answered(i)) == 0 {
      TimesIn(trace, Issued(i));
      TimesIn(trace, Answered(i));
    }
  }

  lemma {:induction false} NoRequests(trace: seq<Effect>, containers: seq<string>)
    requires forall e :: e in trace ==> !e.Issued?
    ensures Requests(trace, containers) == []
  {
    if trace == [] {
    } else {
      var e := trace[|trace| - 1];
      assert e in trace;
      NoRequests(trace[..|trace| - 1], containers);
    }
  }

  /** An effect that is no request leaves the bookkeeping alone. */
  lemma OtherEffect(cfg: Config, f: Fan, trace: seq<Effect>, e: Effect)
    requires RequestInv(cfg, f, trace) && !e.Issued? && !e.Answered?
    ensures RequestInv(cfg, f, trace + [e])
  {
    forall k: nat ensures CountAt(f.ws, trace + [e], k) {
      assert CountAt(f.ws, trace, k);
      TimesAppend(trace, e, Issued(k));
      TimesAppend(trace, e, Answered(k));
    }
    RequestsAppend(trace, e, cfg.containers);
    assert Requests(trace, cfg.containers) + [] == Requests(trace, cfg.containers);
    forall c ensures NameAt(f.ws, trace + [e], cfg.containers, c) {
      assert NameAt(f.ws, trace, cfg.containers, c);
    }
  }

  lemma SpawnRequests(cfg: Config, f: Fan, trace: seq<Effect>, m: FanMove)
    requires FanInv(f) && RequestInv(cfg, f, trace) && FanEnabled(f, m) && !m.Work?
    ensures RequestInv(cfg, Spawn(f, m), trace)
    ensures OverSet(Spawn(f, m).ws) == OverSet(f.ws)
  {
    forall c ensures NameAt(Spawn(f, m).ws, trace, cfg.containers, c) {
      assert NameAt(f.ws, trace, cfg.containers, c);
      if m.Go? { UnissuedUpdate(f.ws, cfg.containers, c, f.next, Begun); }
    }
    forall k: nat ensures CountAt(Spawn(f, m).ws, trace, k) {
      assert CountAt(f.ws, trace, k);
    }
  }

  lemma CountIssued(ws: seq<Phase>, trace: seq<Effect>, i: nat, k: nat)
    requires i < |ws| && ws[i].Begun? && CountAt(ws, trace, k)
    ensures CountAt(ws[i := Underway], trace + [Issued(i)], k)
  {
    TimesAppend(trace, Issued(i), Issued(k));
    TimesAppend(trace, Issued(i), Answered(k));
  }

  lemma CountAnswered(ws: seq<Phase>, trace: seq<Effect>, i: nat, k: nat)
    requires i < |ws| && ws[i].Underway? && CountAt(ws, trace, k)
    ensures CountAt(ws[i := Leaving], trace + [Answered(i)], k)
  {
    TimesAppend(trace, Answered(i), Issued(k));
    TimesAppend(trace, Answered(i), Answered(k));
  }

  lemma WorkCounts(cfg: Config, f: Fan, st: Store, i: nat)
    requires CountInv(f, st.trace) && FanEnabled(f, Work(i))
    ensures CountInv(CaptureFan(f, Work(i)), CaptureStore(cfg, f, st, Work(i)).trace)
  {
    var ws', trace' := CaptureFan(f, Work(i)).ws, CaptureStore(cfg, f, st, Work(i)).trace;
    forall k: nat ensures CountAt(ws', trace', k) {
      assert CountAt(f.ws, st.trace, k);
      match f.ws[i]
      case Begun => CountIssued(f.ws, st.trace, i, k);
      case Underway => CountAnswered(f.ws, st.trace, i, k);
      case Leaving =>
    }
  }

  lemma NamesIssued(ws: seq<Phase>, trace: seq<Effect>, cs: seq<string>, i: nat, c: string)
    requires |ws| == |cs| && i < |ws| && ws[i].Begun? && NameAt(ws, trace, cs, c)
    ensures NameAt(ws[i := Underway], trace + [Issued(i)], cs, c)
  {
    UnissuedUpdate(ws, cs, c, i, Underway);
    RequestsAppend(trace, Issued(i), cs);
  }

  lemma NamesAnswered(ws: seq<Phase>, trace: seq<Effect>, cs: seq<string>, i: nat, c: string)
    requires |ws| == |cs| && i < |ws| && ws[i].Underway? && NameAt(ws, trace, cs, c)
    ensures NameAt(ws[i := Leaving], trace + [Answered(i)], cs, c)
  {
    UnissuedUpdate(ws, cs, c, i, Leaving);
    RequestsAppend(trace, Answered(i), cs);
    assert Requests(trace, cs) + [] == Requests(trace, cs);
  }

  lemma WorkNames(cfg: Config, f: Fan, st: Store, i: nat)
    requires forall i :: 0 <= i < |f.ws| ==> !f.ws[i].Opened?
    requires NameInv(f, st.trace, cfg.containers) && FanEnabled(f, Work(i))
    ensures NameInv(CaptureFan(f, Work(i)), CaptureStore(cfg, f, st, Work(i)).trace, cfg.containers)
  {
    var cs, f', st' := cfg.containers, CaptureFan(f, Work(i)), CaptureStore(cfg, f, st, Work(i));
    forall c ensures NameAt(f'.ws, st'.trace, cs, c) {
      assert NameAt(f.ws, st.trace, cs, c);
      match f.ws[i]
      case Begun => NamesIssued(f.ws, st.trace, cs, i, c);
      case Underway => NamesAnswered(f.ws, st.trace, cs, i, c);
      case Leaving => UnissuedUpdate(f.ws, cs, c, i, Finished);
    }
  }

  lemma WorkSnapshots(cfg: Config, f: Fan, st: Store, i: nat)
    requires FanEnabled(f, Work(i)) && |f.ws| == |cfg.containers|
    requires forall i :: 0 <= i < |f.ws| ==> !f.ws[i].Opened?
    requires HoldsSnapshots(cfg, st.src, OverSet(f.ws))
    ensures HoldsSnapshots(cfg, CaptureStore(cfg, f, st, Work(i)).src, OverSet(CaptureFan(f, Work(i)).ws))
  {
    var f', src' := CaptureFan(f, Work(i)), CaptureStore(cfg, f, st, Work(i)).src;
    var a, a' := OverSet(f.ws), OverSet(f'.ws);
    if f.ws[i].Underway? {
      assert a' == a + iset{i};
      forall n | n in src'
        ensures exists j: nat :: j in a' && j < |cfg.containers| && cfg.snap(j) == Some(Snapshot(n, src'[n]))
      {
        if cfg.snap(i).Some? && n == cfg.snap(i).value.name {
          assert i in a';
        } else {
          var j: nat :| j in a && j < |cfg.containers| && cfg.snap(j) == Some(Snapshot(n, st.src[n]));
          assert j in a';
        }
      }
    } else {
      assert a' == a;
    }
  }

  /** The parallel checkpoint refines the loop of CheckpointPodCrio: when the function returns,
      every list entry got exactly one request, each of them answered, and the requests are a
      rearrangement of the container list. */
  lemma JoinedRequests(cfg: Config, f: Fan, trace: seq<Effect>)
    requires FanInv(f) && RequestInv(cfg, f, trace) && f.joined
    ensures forall i: nat :: i < |cfg.containers| ==>
              Times(trace, Issued(i)) == 1 && Times(trace, Answered(i)) == 1
    ensures multiset(Requests(trace, cfg.containers)) == multiset(cfg.containers)
  {
    forall c ensures multiset(Requests(trace, cfg.containers))[c] == multiset(cfg.containers)[c] {
      assert NameAt(f.ws, trace, cfg.containers, c);
      UnissuedNone(f.ws, cfg.containers, c);
    }
    forall i: nat | i < |cfg.containers|
      ensures Times(trace, Issued(i)) == 1 && Times(trace, Answered(i)) == 1
    {
      assert CountAt(f.ws, trace, i);
    }
  }
}
