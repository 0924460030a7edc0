/** simulate and ideal_hit as the source has them: an event heap, engine objects and counters updated in loops. */
module Simulate {
  import opened Common
  import opened BlockPool
  import opened Scheduling
  import opened ScheduleLoops
  import opened ScheduleTheorems
  import opened FinishSteps
  import opened FinishLoops
  import opened DispatchOrder
  import opened IdealHit
  import opened RouterCell
  import opened Simulation
  import opened Timing
  import opened EngineObject

  /** heapq.heappop: the least entry by time and number. */
  method PopLeast(heap: set<Entry>) returns (e: Entry, rest: set<Entry>)
    requires heap != {}
    ensures e in heap && rest == heap - {e} && forall f :: f in heap ==> Before(e, f)
  {
    e :| e in heap;
    var todo := heap - {e};
    while todo != {}
      invariant e in heap && todo <= heap
      invariant forall f :: f in heap && f !in todo ==> Before(e, f)
      decreases todo
    {
      var f :| f in todo;
      if !Before(e, f) { e := f; }
      todo := todo - {f};
    }
    rest := heap - {e};
  }

  /** The trace in the order its requests arrive (load_trace sorts it). */
  predicate Sorted(trace: seq<Request>) {
    forall i, j :: 0 <= i < j < |trace| ==> trace[i].arrival <= trace[j].arrival
  }

  /** The index trims in the heap. */
  ghost function TrimsIn(heap: set<Entry>): set<Entry> {
    set e | e in heap && e.what.TrimOf?
  }

  lemma TrimsKept(heap: set<Entry>, e: Entry, more: set<Entry>)
    requires !e.what.TrimOf? && forall f :: f in more ==> !f.what.TrimOf?
    ensures TrimsIn(heap - {e} + more) == TrimsIn(heap)
  {}

  /** Beside the trims, the heap holds the requests still to arrive and one entry per step in flight, and nothing else. */
  ghost predicate HeapInv(trace: seq<Request>, heap: set<Entry>, next: nat, flights: seq<seq<Chunk>>) {
    && next <= |trace|
    && (forall r :: next <= r < |trace| ==> ArrivalEntry(trace, r) in heap)
    && (forall e :: e in heap ==>
          match e.what
          case ArrivalOf(r) => next <= r < |trace| && e == ArrivalEntry(trace, r)
          case StepOf(i, plan) => i < |flights| && plan == flights[i] && plan != []
          case TrimOf => true)
    && (forall i :: 0 <= i < |flights| && flights[i] != [] ==>
          exists e :: e in heap && e.what == StepOf(i, flights[i]))
    && (forall e, f :: e in heap && f in heap && e.what.StepOf? && f.what.StepOf? && e.what.i == f.what.i ==> e == f)
  }

  /** The least entry, if an arrival, is the next request of the trace. */
  lemma LeastArrival(trace: seq<Request>, heap: set<Entry>, next: nat, flights: seq<seq<Chunk>>, e: Entry)
    requires Sorted(trace) && HeapInv(trace, heap, next, flights) && e in heap && e.what.ArrivalOf?
    requires forall f :: f in heap ==> Before(e, f)
    ensures next < |trace| && e.what.r == next
  {
    assert ArrivalEntry(trace, next) in heap;
  }

  /** Separate engine objects, all replaying this trace. */
  ghost predicate Objects(trace: seq<Request>, cfg: Config, engines: seq<Engine>) {
    && (forall i, j :: 0 <= i < j < |engines| ==> engines[i] != engines[j])
    && forall i :: 0 <= i < |engines| ==> engines[i].trace == trace && engines[i].cfg == cfg
  }

  /** The program's view of instance `i` is cell `i` of the protocol. */
  ghost predicate Linked(engines: seq<Engine>, s: Sim, flights: seq<seq<Chunk>>, bs: seq<int>, queued: seq<int>,
                         pending: seq<multiset<nat>>)
    reads engines
  {
    && |engines| == |s.cells| == |flights| == |bs| == |queued| == |pending|
    && forall i :: 0 <= i < |engines| ==>
         s.cells[i] == Cell(engines[i].State(), flights[i], bs[i], queued[i], pending[i])
  }

  // ---------------------------------------------------------------------------------------
  // One instance of the program against one cell

  /** An arrival at one instance: count it, queue it and, if the engine is idle, start a step. */
  method Arrival(engine: Engine, r: nat, newTokens: int, flight: seq<Chunk>, bs0: int, queued0: int,
                 pending0: multiset<nat>, ghost c: Cell, ghost w: map<nat, int>)
    returns (plan: seq<Chunk>, bs: int, queued: int, pending: multiset<nat>)
    requires CellInv(engine.trace, engine.cfg, w, c) && c == Cell(engine.State(), flight, bs0, queued0, pending0)
    requires r < |engine.trace| && r !in engine.prog
    modifies engine
    ensures Receive(engine.trace, engine.cfg, c, r, newTokens) == Cell(engine.State(), plan, bs, queued, pending)
    ensures flight != [] ==> plan == flight
  {
    hide Inv, Schedule, Credited, Counts;
    bs := bs0 + 1;
    queued := queued0 + newTokens;
    pending := pending0 + multiset(FullKeys(engine.trace[r]));
    engine.Submit(r, flight);
    plan := flight;
    if flight == [] { plan := engine.Schedule(); }
  }

  /** The closures `first` and `done`, called in order: what they do to one instance's counters. */
  method Callbacks(trace: seq<Request>, tokens: map<nat, int>, calls: seq<Callback>, bs0: int, queued0: int,
                   pending0: multiset<nat>, ghost c: Cell)
    returns (bs: int, queued: int, pending: multiset<nat>)
    requires CallsKnown(trace, tokens, calls) && c.bs == bs0 && c.queued == queued0 && c.pending == pending0
    ensures var d := Apply(trace, tokens, c, calls); d.bs == bs && d.queued == queued && d.pending == pending
  {
    bs, queued, pending := bs0, queued0, pending0;
    assert calls[..0] == [];
    for k := 0 to |calls|
      invariant var d := Apply(trace, tokens, c, calls[..k]); d.bs == bs && d.queued == queued && d.pending == pending
    {
      assert calls[..k + 1][..k] == calls[..k];
      match calls[k]
      case First(r) =>
        queued := queued - tokens[r];
        pending := pending - multiset(FullKeys(trace[r]));
      case Done(_) =>
        bs := bs - 1;
    }
    assert calls[..|calls|] == calls;
  }

  /** A step ends at one instance: finish_step with its callbacks, then the next step. */
  method Departure(engine: Engine, flight: seq<Chunk>, now: int, tokens: map<nat, int>, bs0: int, queued0: int,
                   pending0: multiset<nat>, ghost c: Cell)
    returns (plan: seq<Chunk>, bs: int, queued: int, pending: multiset<nat>)
    requires CellInv(engine.trace, engine.cfg, tokens, c) && c == Cell(engine.State(), flight, bs0, queued0, pending0)
    modifies engine
    ensures EndStep(engine.trace, engine.cfg, tokens, c, now) == Cell(engine.State(), plan, bs, queued, pending)
  {
    hide Inv, Schedule, Credited, Counts, FinishLoop;
    FinishLoopCounts(engine.trace, engine.cfg, tokens, engine.State(), 0, flight, now, c);
    var calls := engine.FinishStep(flight, now);
    bs, queued, pending := Callbacks(engine.trace, tokens, calls, bs0, queued0, pending0, c);
    plan := engine.Schedule();
  }

  // ---------------------------------------------------------------------------------------
  // The heap

  lemma HeapArrive(trace: seq<Request>, heap: set<Entry>, next: nat, flights: seq<seq<Chunk>>, i: nat, plan: seq<Chunk>,
                   entry: Entry)
    requires HeapInv(trace, heap, next, flights) && next < |trace| && i < |flights|
    requires flights[i] == [] || plan == flights[i]
    requires entry.what == StepOf(i, plan)
    ensures HeapInv(trace, heap - {ArrivalEntry(trace, next)} + (if flights[i] == [] && plan != [] then {entry} else {}),
                    next + 1, flights[i := plan])
  {
    var h := heap - {ArrivalEntry(trace, next)} + (if flights[i] == [] && plan != [] then {entry} else {});
    var fl := flights[i := plan];
    forall k | 0 <= k < |flights| && fl[k] != []
      ensures exists e :: e in h && e.what == StepOf(k, fl[k])
    {
      if k == i && flights[i] == [] {
        assert entry in h;
      } else {
        var e :| e in heap && e.what == StepOf(k, flights[k]);
        assert e in h;
      }
    }
  }

  lemma HeapArrived(trace: seq<Request>, heap: set<Entry>, next: nat, flights: seq<seq<Chunk>>, i: nat, plan: seq<Chunk>,
                    entry: Entry, e: Entry, pushed: bool)
    requires HeapInv(trace, heap, next, flights) && next < |trace| && i < |flights| && e == ArrivalEntry(trace, next)
    requires flights[i] == [] || plan == flights[i]
    requires entry.what == StepOf(i, plan) && pushed == (flights[i] == [] && plan != [])
    ensures var later := heap - {e} + (if pushed then {entry} else {});
            HeapInv(trace, later, next + 1, flights[i := plan]) && TrimsIn(later) == TrimsIn(heap)
  {
    hide HeapInv, TrimsIn;
    HeapArrive(trace, heap, next, flights, i, plan, entry);
    TrimsKept(heap, e, if pushed then {entry} else {});
  }

  lemma HeapEnd(trace: seq<Request>, heap: set<Entry>, next: nat, flights: seq<seq<Chunk>>, e: Entry, plan: seq<Chunk>,
                entry: Entry)
    requires HeapInv(trace, heap, next, flights) && e in heap && e.what.StepOf?
    requires entry.what == StepOf(e.what.i, plan)
    ensures HeapInv(trace, heap - {e} + (if plan != [] then {entry} else {}), next, flights[e.what.i := plan])
  {
    var i := e.what.i;
    var h := heap - {e} + (if plan != [] then {entry} else {});
    var fl := flights[i := plan];
    forall k | 0 <= k < |flights| && fl[k] != []
      ensures exists f :: f in h && f.what == StepOf(k, fl[k])
    {
      if k == i {
        assert entry in h;
      } else {
        var f :| f in heap && f.what == StepOf(k, flights[k]);
        assert f in h;
      }
    }
  }

  lemma HeapDone(trace: seq<Request>, heap: set<Entry>, next: nat, flights: seq<seq<Chunk>>)
    requires HeapInv(trace, heap, next, flights)
    ensures heap == {} ==> next == |trace|
  {
    if next < |trace| { assert ArrivalEntry(trace, next) in heap; }
  }

  /** A trim leaves the heap. */
  lemma HeapTrim(trace: seq<Request>, heap: set<Entry>, next: nat, flights: seq<seq<Chunk>>, e: Entry)
    requires HeapInv(trace, heap, next, flights) && e in heap && e.what.TrimOf?
    ensures HeapInv(trace, heap - {e}, next, flights) && |TrimsIn(heap - {e})| == |TrimsIn(heap)| - 1
  {
    forall k | 0 <= k < |flights| && flights[k] != []
      ensures exists f :: f in heap - {e} && f.what == StepOf(k, flights[k])
    {
      var f :| f in heap && f.what == StepOf(k, flights[k]);
      assert f in heap - {e};
    }
    assert TrimsIn(heap - {e}) == TrimsIn(heap) - {e};
  }

  /** An empty heap leaves nothing to happen. */
  lemma HeapEmpty(trace: seq<Request>, s: Sim, heap: set<Entry>, next: nat, flights: seq<seq<Chunk>>)
    requires HeapInv(trace, heap, next, flights) && heap == {} && |flights| == |s.cells| && s.log == Simulation.UpTo(next)
    requires |TrimsIn(heap)| == s.trims
    requires forall i :: 0 <= i < |flights| ==> s.cells[i].flight == flights[i]
    ensures Quiet(trace, s) && next == |trace|
  {
    HeapDone(trace, heap, next, flights);
    forall ev ensures !Enabled(trace, s, ev) {
      match ev
      case Arrive(r, i, _) => assert r < |trace| ==> s.log[r] == r;
      case StepEnd(i, _) =>
      case Trim => assert TrimsIn(heap) == {};
    }
  }

  // ---------------------------------------------------------------------------------------
  // The whole replay

  /** A fresh engine per instance. */
  method Engines(trace: seq<Request>, cfg: Config, n: nat) returns (engines: seq<Engine>)
    requires Usable(trace, cfg)
    ensures |engines| == n && fresh(engines) && Objects(trace, cfg, engines)
    ensures forall i :: 0 <= i < n ==> engines[i].State() == NewEngine(cfg)
  {
    hide NewEngine, Usable, Engine.State, Engine.Valid;
    engines := [];
    for k := 0 to n
      invariant |engines| == k && fresh(engines)
      invariant forall i, j :: 0 <= i < j < k ==> engines[i] != engines[j]
      invariant forall i :: 0 <= i < k ==>
                  engines[i].trace == trace && engines[i].cfg == cfg && engines[i].State() == NewEngine(cfg)
    {
      var engine := new Engine(trace, cfg);
      engines := engines + [engine];
    }
  }

  method Arrivals(trace: seq<Request>) returns (heap: set<Entry>)
    ensures heap == set r | 0 <= r < |trace| :: ArrivalEntry(trace, r)
  {
    heap := {};
    for r := 0 to |trace|
      invariant heap == set k | 0 <= k < r :: ArrivalEntry(trace, k)
    {
      heap := heap + {ArrivalEntry(trace, r)};
    }
  }

  lemma InitialHeap(trace: seq<Request>, arrivals: set<Entry>, heap: set<Entry>, flights: seq<seq<Chunk>>)
    requires arrivals == (set r | 0 <= r < |trace| :: ArrivalEntry(trace, r))
    requires arrivals <= heap && TrimsIn(heap) == heap - arrivals
    requires forall i :: 0 <= i < |flights| ==> flights[i] == []
    ensures HeapInv(trace, heap, 0, flights)
  {
    forall e | e in heap ensures e.what.TrimOf? || e in arrivals {
      assert e !in arrivals ==> e in TrimsIn(heap);
    }
  }

  /** `start` as far as the heap goes: a plan's cost decides when its step ends. */
  method Push(engine: Engine, heap0: set<Entry>, now: int, no: nat, i: nat, plan: seq<Chunk>, step: Batch -> nat)
    returns (heap: set<Entry>, no': nat, ghost entry: Entry)
    requires engine.Valid(plan)
    ensures entry.what == StepOf(i, plan) && heap == heap0 + (if plan != [] then {entry} else {})
    ensures no' == if plan != [] then no + 1 else no
    ensures plan != [] ==>
              && PlanKnown(engine.trace, engine.State(), plan)
              && entry == Entry(now + step(BatchOf(engine.trace, engine.State(), plan)), no, StepOf(i, plan))
  {
    entry := Entry(now, no, StepOf(i, plan));
    heap, no' := heap0, no;
    if plan != [] {
      var batch := engine.StepBatch(plan);
      var e := Entry(now + step(batch), no, StepOf(i, plan));
      heap, no' := heap0 + {e}, no + 1;
      entry := e;
    }
  }

  /** The same when the instance was idle; nothing otherwise. */
  method PushIf(idle: bool, engine: Engine, heap0: set<Entry>, now: int, no: nat, i: nat, plan: seq<Chunk>, step: Batch -> nat)
    returns (heap: set<Entry>, no': nat, ghost entry: Entry)
    requires engine.Valid(plan)
    ensures entry.what == StepOf(i, plan) && heap == heap0 + (if idle && plan != [] then {entry} else {})
    ensures no' == if idle && plan != [] then no + 1 else no
    ensures idle && plan != [] ==>
              && PlanKnown(engine.trace, engine.State(), plan)
              && entry == Entry(now + step(BatchOf(engine.trace, engine.State(), plan)), no, StepOf(i, plan))
  {
    heap, no', entry := heap0, no, Entry(now, no, StepOf(i, plan));
    if idle { heap, no', entry := Push(engine, heap0, now, no, i, plan, step); }
  }

  /** Kind 0: request `r` arrives and is routed to instance `i`. */
  method HandleArrival(trace: seq<Request>, cfg: Config, engines: seq<Engine>, r: nat, i: nat, newTokens: int,
                       flights: seq<seq<Chunk>>, bs: seq<int>, queued: seq<int>, pending: seq<multiset<nat>>, ghost s: Sim)
    returns (plan: seq<Chunk>, bs': seq<int>, queued': seq<int>, pending': seq<multiset<nat>>)
    requires SimInv(trace, cfg, s) && Objects(trace, cfg, engines) && Linked(engines, s, flights, bs, queued, pending)
    requires Enabled(trace, s, Arrive(r, i, newTokens))
    modifies engines
    ensures i < |flights| && (flights[i] != [] ==> plan == flights[i])
    ensures Linked(engines, Step(trace, cfg, s, Arrive(r, i, newTokens)), flights[i := plan], bs', queued', pending')
  {
    hide SimInv, CellInv, Receive;
    NotSent(trace, cfg, s, r, i);
    CellOf(trace, cfg, s, i);
    ghost var t := Step(trace, cfg, s, Arrive(r, i, newTokens));
    var b, q, p;
    plan, b, q, p := Arrival(engines[i], r, newTokens, flights[i], bs[i], queued[i], pending[i], s.cells[i], s.tokens);
    bs', queued', pending' := bs[i := b], queued[i := q], pending[i := p];
  }

  /** Kind 1: the step in flight at instance `i` ends. */
  method HandleStepEnd(trace: seq<Request>, cfg: Config, engines: seq<Engine>, i: nat, now: int, tokens: map<nat, int>,
                       flights: seq<seq<Chunk>>, bs: seq<int>, queued: seq<int>, pending: seq<multiset<nat>>, ghost s: Sim)
    returns (plan: seq<Chunk>, bs': seq<int>, queued': seq<int>, pending': seq<multiset<nat>>)
    requires SimInv(trace, cfg, s) && Objects(trace, cfg, engines) && Linked(engines, s, flights, bs, queued, pending)
    requires Enabled(trace, s, StepEnd(i, now)) && tokens == s.tokens
    modifies engines
    ensures i < |flights|
    ensures Linked(engines, Step(trace, cfg, s, StepEnd(i, now)), flights[i := plan], bs', queued', pending')
  {
    hide SimInv, CellInv, EndStep;
    CellOf(trace, cfg, s, i);
    ghost var t := Step(trace, cfg, s, StepEnd(i, now));
    var b, q, p;
    plan, b, q, p := Departure(engines[i], flights[i], now, tokens, bs[i], queued[i], pending[i], s.cells[i]);
    bs', queued', pending' := bs[i := b], queued[i := q], pending[i := p];
  }

  lemma FlightsLinked(engines: seq<Engine>, s: Sim, flights: seq<seq<Chunk>>, bs: seq<int>, queued: seq<int>,
                      pending: seq<multiset<nat>>)
    requires Linked(engines, s, flights, bs, queued, pending)
    ensures |flights| == |bs| == |queued| == |pending| == |s.cells| == |engines|
    ensures forall k :: 0 <= k < |flights| ==>
              s.cells[k] == Cell(engines[k].State(), flights[k], bs[k], queued[k], pending[k])
  {
  }

  /** What an arrival does to the protocol's records. */
  lemma ArriveStep(trace: seq<Request>, cfg: Config, s: Sim, turn: nat, i: nat, newTokens: int)
    requires SimInv(trace, cfg, s) && Enabled(trace, s, Arrive(turn, i, newTokens)) && s.log == Simulation.UpTo(turn)
    ensures var t := Step(trace, cfg, s, Arrive(turn, i, newTokens));
            && SimInv(trace, cfg, t) && Fuel(trace, cfg, t) < Fuel(trace, cfg, s) && Fuel(trace, cfg, s) >= 0
            && t.log == Simulation.UpTo(turn + 1) && t.tokens == s.tokens[turn := newTokens]
            && t.placed == s.placed[turn := i] && |t.cells| == |s.cells| && t.trims == s.trims
  {
    hide SimInv, Fuel;
    StepKeeps(trace, cfg, s, Arrive(turn, i, newTokens));
    StepUsesFuel(trace, cfg, s, Arrive(turn, i, newTokens));
    hide Receive;
  }

  lemma EndStepped(trace: seq<Request>, cfg: Config, s: Sim, i: nat, now: int)
    requires SimInv(trace, cfg, s) && Enabled(trace, s, StepEnd(i, now))
    ensures var t := Step(trace, cfg, s, StepEnd(i, now));
            && SimInv(trace, cfg, t) && Fuel(trace, cfg, t) < Fuel(trace, cfg, s) && Fuel(trace, cfg, s) >= 0
            && t.log == s.log && t.tokens == s.tokens && t.placed == s.placed && |t.cells| == |s.cells| && t.trims == s.trims
  {
    hide SimInv, Fuel;
    StepKeeps(trace, cfg, s, StepEnd(i, now));
    StepUsesFuel(trace, cfg, s, StepEnd(i, now));
    hide EndStep;
  }

  /** The engine of an instance may be asked about the plan just started. */
  lemma PlanValid(trace: seq<Request>, cfg: Config, engines: seq<Engine>, s: Sim, flights: seq<seq<Chunk>>, bs: seq<int>,
                  queued: seq<int>, pending: seq<multiset<nat>>, i: nat)
    requires SimInv(trace, cfg, s) && Objects(trace, cfg, engines) && Linked(engines, s, flights, bs, queued, pending)
    requires i < |engines|
    ensures i < |flights| && engines[i].Valid(flights[i]) && engines[i].trace == trace
  {
    hide SimInv, Inv;
    StartedValid(trace, cfg, s, i);
  }

  lemma InitialLinked(cfg: Config, n: nat, trims: nat, engines: seq<Engine>, flights: seq<seq<Chunk>>, bs: seq<int>,
                      queued: seq<int>,
                      pending: seq<multiset<nat>>)
    requires |engines| == |flights| == |bs| == |queued| == |pending| == n
    requires forall i :: 0 <= i < n ==>
               engines[i].State() == NewEngine(cfg) && flights[i] == [] && bs[i] == 0 && queued[i] == 0 && pending[i] == multiset{}
    ensures Linked(engines, Initial(cfg, n, trims), flights, bs, queued, pending)
  {
    hide NewEngine;
  }

  lemma InitialRecords(cfg: Config, n: nat, trims: nat)
    ensures var s := Initial(cfg, n, trims);
            s.tokens == map[] && s.placed == map[] && s.log == Simulation.UpTo(0) && s.trims == trims
  {
  }

  lemma NextEvent(w: Inputs, c: Clock, s: Sim, heap: set<Entry>, no: nat, e: Entry, ev: Event, t: Sim)
    requires Timed(w, s, heap, no, c) && e in heap && (forall f :: f in heap ==> Before(e, f)) && Stands(w, s, e, ev)
    requires SimInv(w.trace, w.cfg, s) && Enabled(w.trace, s, ev) && t == Step(w.trace, w.cfg, s, ev)
    ensures Next(w, c.h, heap, e, ev, t)
  {
    hide Chronicle, Foresees, Before, SimInv, Enabled, Step;
  }

  lemma LaunchedBy(w: Inputs, s: Sim, ev: Event, t: Sim, now: int, no: nat, i: nat, entry: Entry)
    requires i < |s.cells| && i < |t.cells| && t.cells[i].flight != []
    requires match ev case StepEnd(k, _) => k == i case Arrive(_, k, _) => k == i && s.cells[i].flight == [] case Trim => false
    requires PlanKnown(w.trace, t.cells[i].e, t.cells[i].flight)
    requires entry == Entry(now + w.step(BatchOf(w.trace, t.cells[i].e, t.cells[i].flight)), no, StepOf(i, t.cells[i].flight))
    ensures Launches(w, s, ev, t, now, no, i, entry)
  {
  }

  /** The clock goes on with the event of the least entry, and with the end of the step it starts. */
  lemma EventTicks(w: Inputs, c: Clock, s: Sim, heap: set<Entry>, no: nat, e: Entry, ev: Event, t: Sim, pushed: bool, i: nat,
                   entry: Entry)
    requires Timed(w, s, heap, no, c) && e in heap && (forall f :: f in heap ==> Before(e, f)) && Stands(w, s, e, ev)
    requires SimInv(w.trace, w.cfg, s) && Enabled(w.trace, s, ev) && t == Step(w.trace, w.cfg, s, ev) && |t.cells| == |s.cells|
    requires pushed ==> i < |s.cells| && t.cells[i].flight != []
    requires pushed ==>
               match ev case StepEnd(k, _) => k == i case Arrive(_, k, _) => k == i && s.cells[i].flight == [] case Trim => false
    requires pushed ==> PlanKnown(w.trace, t.cells[i].e, t.cells[i].flight)
    requires pushed ==>
               entry == Entry(e.t + w.step(BatchOf(w.trace, t.cells[i].e, t.cells[i].flight)), no, StepOf(i, t.cells[i].flight))
    requires pushed ==> forall f :: f in heap - {e} && f.what.StepOf? ==> f.what.i != i
    ensures Timed(w, t, heap - {e} + (if pushed then {entry} else {}), if pushed then no + 1 else no,
                  Tick(w, c, e, ev, t, pushed, i))
    ensures SameStart(c.h, Tick(w, c, e, ev, t, pushed, i).h)
  {
    hide *;
    NextEvent(w, c, s, heap, no, e, ev, t);
    if pushed { LaunchedBy(w, s, ev, t, e.t, no, i, entry); }
    Ticks(w, s, heap, no, c, e, ev, t, pushed, i, entry);
  }

  /** No end of a step is in the heap for an idle instance. */
  lemma IdleHeap(trace: seq<Request>, heap: set<Entry>, next: nat, flights: seq<seq<Chunk>>, i: nat)
    requires HeapInv(trace, heap, next, flights) && i < |flights| && flights[i] == []
    ensures forall f :: f in heap && f.what.StepOf? ==> f.what.i != i
  {
  }

  /** An instance has one step in flight at most. */
  lemma OwnHeap(trace: seq<Request>, heap: set<Entry>, next: nat, flights: seq<seq<Chunk>>, e: Entry)
    requires HeapInv(trace, heap, next, flights) && e in heap && e.what.StepOf?
    ensures forall f :: f in heap - {e} && f.what.StepOf? ==> f.what.i != e.what.i
  {
  }

  /** The local variables of simulate. */
  datatype Locals = Locals(flights: seq<seq<Chunk>>, bs: seq<int>, queued: seq<int>, pending: seq<multiset<nat>>,
                           tokens: map<nat, int>, placed: map<nat, nat>, heap: set<Entry>, no: nat, turn: nat)

  /** Everything the event loop keeps; `place` lists the router's answers. */
  ghost predicate LoopInv(trace: seq<Request>, cfg: Config, place: seq<nat>, engines: seq<Engine>, s: Sim, l: Locals)
    reads engines
  {
    && SimInv(trace, cfg, s) && s.tokens == l.tokens && s.placed == l.placed
    && l.turn <= |trace| == |place| && s.log == Simulation.UpTo(l.turn)
    && (forall k :: 0 <= k < l.turn ==> k in l.placed && l.placed[k] == place[k])
    && Linked(engines, s, l.flights, l.bs, l.queued, l.pending)
    && HeapInv(trace, l.heap, l.turn, l.flights) && |TrimsIn(l.heap)| == s.trims
  }

  /** What the loop keeps beside instances and heap: the protocol's records are the program's. */
  ghost predicate Recorded(trace: seq<Request>, place: seq<nat>, s: Sim, l: Locals) {
    && s.tokens == l.tokens && s.placed == l.placed
    && l.turn <= |trace| == |place| && s.log == Simulation.UpTo(l.turn)
    && (forall k :: 0 <= k < l.turn ==> k in l.placed && l.placed[k] == place[k])
  }

  lemma LoopParts(trace: seq<Request>, cfg: Config, place: seq<nat>, engines: seq<Engine>, s: Sim, l: Locals)
    ensures LoopInv(trace, cfg, place, engines, s, l) <==>
              && SimInv(trace, cfg, s) && Recorded(trace, place, s, l)
              && Linked(engines, s, l.flights, l.bs, l.queued, l.pending)
              && HeapInv(trace, l.heap, l.turn, l.flights) && |TrimsIn(l.heap)| == s.trims
  {
    hide SimInv, Linked, HeapInv, TrimsIn;
  }

  /** The records after request `l.turn` was sent to the instance the router named. */
  lemma RecordedNext(trace: seq<Request>, place: seq<nat>, s: Sim, l: Locals, t: Sim, l': Locals, newTokens: int)
    requires Recorded(trace, place, s, l) && l.turn < |trace|
    requires t.log == Simulation.UpTo(l.turn + 1) && t.tokens == s.tokens[l.turn := newTokens]
    requires t.placed == s.placed[l.turn := place[l.turn]]
    requires l'.tokens == l.tokens[l.turn := newTokens] && l'.placed == l.placed[l.turn := place[l.turn]] && l'.turn == l.turn + 1
    ensures Recorded(trace, place, t, l')
  {
    hide Simulation.UpTo;
  }

  /** One arrival taken from the heap. */
  method OnArrival(trace: seq<Request>, cfg: Config, place: seq<nat>, hits: seq<nat>, step: Batch -> nat,
                   engines: seq<Engine>, l: Locals, e: Entry, ghost s: Sim, ghost w: Inputs, ghost c: Clock)
    returns (l': Locals, ghost t: Sim, ghost c': Clock)
    requires LoopInv(trace, cfg, place, engines, s, l) && Objects(trace, cfg, engines) && Sorted(trace)
    requires |hits| == |trace| && forall k :: 0 <= k < |place| ==> place[k] < |engines|
    requires e in l.heap && e.what.ArrivalOf? && forall f :: f in l.heap ==> Before(e, f)
    requires w == Inputs(trace, cfg, place, hits, step, w.trim) && Timed(w, s, l.heap, l.no, c)
    modifies engines
    ensures LoopInv(trace, cfg, place, engines, t, l') && 0 <= Fuel(trace, cfg, t) < Fuel(trace, cfg, s)
    ensures Timed(w, t, l'.heap, l'.no, c') && SameStart(c.h, c'.h)
  {
    hide Timed, Next, Launches, PlanKnown, BatchOf, Tick, SimInv, Usable, HeapInv, ArrivalEntry, Fuel, Engine.State,
         Linked, Step, Engine.Valid, Enabled, Before, Objects, Sorted, CellInv, TrimsIn, LoopInv;
    LoopParts(trace, cfg, place, engines, s, l);
    FlightsLinked(engines, s, l.flights, l.bs, l.queued, l.pending);
    NextArrival(trace, cfg, s, l.heap, l.turn, l.flights, e, place);
    var r, i := l.turn, place[l.turn];
    var newTokens := trace[r].inputLen - hits[r] * BLOCK;
    ArriveStep(trace, cfg, s, r, i, newTokens);
    t := Step(trace, cfg, s, Arrive(r, i, newTokens));
    FuelNonNegative(trace, cfg, t);
    var plan, bs, queued, pending := HandleArrival(trace, cfg, engines, r, i, newTokens, l.flights, l.bs, l.queued, l.pending, s);
    var flights := l.flights[i := plan];
    PlanValid(trace, cfg, engines, t, flights, bs, queued, pending, i);
    FlightsLinked(engines, t, flights, bs, queued, pending);
    var heap, no;
    ghost var entry;
    heap, no, entry := PushIf(l.flights[i] == [], engines[i], l.heap - {e}, e.t, l.no, i, plan, step);
    ghost var pushed := l.flights[i] == [] && plan != [];
    if pushed { IdleHeap(trace, l.heap, l.turn, l.flights, i); }
    EventTicks(w, c, s, l.heap, l.no, e, Arrive(r, i, newTokens), t, pushed, i, entry);
    c' := Tick(w, c, e, Arrive(r, i, newTokens), t, pushed, i);
    HeapArrived(trace, l.heap, l.turn, l.flights, i, plan, entry, e, pushed);
    l' := Locals(flights, bs, queued, pending, l.tokens[r := newTokens], l.placed[r := i], heap, no, l.turn + 1);
    RecordedNext(trace, place, s, l, t, l', newTokens);
    LoopParts(trace, cfg, place, engines, t, l');
  }

  /** One end of a step taken from the heap. */
  method OnStepEnd(trace: seq<Request>, cfg: Config, ghost place: seq<nat>, step: Batch -> nat, engines: seq<Engine>,
                   l: Locals, e: Entry, ghost s: Sim, ghost w: Inputs, ghost c: Clock)
    returns (l': Locals, ghost t: Sim, ghost c': Clock)
    requires LoopInv(trace, cfg, place, engines, s, l) && Objects(trace, cfg, engines)
    requires e in l.heap && e.what.StepOf? && forall f :: f in l.heap ==> Before(e, f)
    requires w == Inputs(trace, cfg, place, w.hits, step, w.trim) && Timed(w, s, l.heap, l.no, c)
    modifies engines
    ensures LoopInv(trace, cfg, place, engines, t, l') && 0 <= Fuel(trace, cfg, t) < Fuel(trace, cfg, s)
    ensures Timed(w, t, l'.heap, l'.no, c') && SameStart(c.h, c'.h)
  {
    hide Timed, Next, Launches, PlanKnown, BatchOf, Tick, Before, SimInv, Usable, HeapInv, ArrivalEntry, Fuel,
         Engine.State, Linked, Step, Engine.Valid, Enabled, Objects, Simulation.UpTo, CellInv, TrimsIn, LoopInv;
    LoopParts(trace, cfg, place, engines, s, l);
    FlightsLinked(engines, s, l.flights, l.bs, l.queued, l.pending);
    StepPending(trace, cfg, s, l.heap, l.turn, l.flights, e);
    var i := e.what.i;
    EndStepped(trace, cfg, s, i, e.t);
    t := Step(trace, cfg, s, StepEnd(i, e.t));
    FuelNonNegative(trace, cfg, t);
    var plan, bs, queued, pending := HandleStepEnd(trace, cfg, engines, i, e.t, l.tokens, l.flights, l.bs, l.queued, l.pending, s);
    var flights := l.flights[i := plan];
    PlanValid(trace, cfg, engines, t, flights, bs, queued, pending, i);
    FlightsLinked(engines, t, flights, bs, queued, pending);
    var heap, no;
    ghost var entry;
    heap, no, entry := Push(engines[i], l.heap - {e}, e.t, l.no, i, plan, step);
    if plan != [] { OwnHeap(trace, l.heap, l.turn, l.flights, e); }
    EventTicks(w, c, s, l.heap, l.no, e, StepEnd(i, e.t), t, plan != [], i, entry);
    c' := Tick(w, c, e, StepEnd(i, e.t), t, plan != [], i);
    HeapEnd(trace, l.heap, l.turn, l.flights, e, plan, entry);
    TrimsKept(l.heap, e, if plan != [] then {entry} else {});
    l' := Locals(flights, bs, queued, pending, l.tokens, l.placed, heap, no, l.turn);
    LoopParts(trace, cfg, place, engines, t, l');
  }

  /** Kind 2: the indexes are trimmed; engines and counters are left alone. */
  method OnTrim(ghost trace: seq<Request>, ghost cfg: Config, ghost place: seq<nat>, ghost engines: seq<Engine>, l: Locals,
                e: Entry, ghost s: Sim, ghost w: Inputs, ghost c: Clock) returns (l': Locals, ghost t: Sim, ghost c': Clock)
    requires LoopInv(trace, cfg, place, engines, s, l) && e in l.heap && e.what.TrimOf?
    requires forall f :: f in l.heap ==> Before(e, f)
    requires w == Inputs(trace, cfg, place, w.hits, w.step, w.trim) && Timed(w, s, l.heap, l.no, c)
    ensures LoopInv(trace, cfg, place, engines, t, l') && 0 <= Fuel(trace, cfg, t) < Fuel(trace, cfg, s)
    ensures Timed(w, t, l'.heap, l'.no, c') && SameStart(c.h, c'.h)
  {
    hide Timed, Next, Tick, Before, SimInv, HeapInv, Fuel, Engine.State, CellInv, Simulation.UpTo, TrimsIn;
    HeapTrim(trace, l.heap, l.turn, l.flights, e);
    StepKeeps(trace, cfg, s, Trim);
    StepUsesFuel(trace, cfg, s, Trim);
    t := Step(trace, cfg, s, Trim);
    FuelNonNegative(trace, cfg, t);
    NextEvent(w, c, s, l.heap, l.no, e, Trim, t);
    Ticks(w, s, l.heap, l.no, c, e, Trim, t, false, 0, e);
    c' := Tick(w, c, e, Trim, t, false, 0);
    assert l.heap - {e} + {} == l.heap - {e};
    l' := l.(heap := l.heap - {e});
  }

  /** The trim with running number `no`, `first` being the first one's. */
  predicate IsTrim(e: Entry, first: nat, interval: nat) {
    e.what.TrimOf? && e.no >= first && e.t == (e.no - first + 1) * interval
  }

  /** The trims pushed at the start: one every `interval` up to the last arrival, for the index that is trimmed. */
  method PushTrims(heap0: set<Entry>, interval: Option<nat>, horizon: int, first: nat) returns (heap: set<Entry>, no: nat)
    requires forall e :: e in heap0 ==> !e.what.TrimOf?
    requires interval.Some? ==> interval.value > 0
    ensures heap0 <= heap && TrimsIn(heap) == heap - heap0 && no >= first && |heap - heap0| == no - first
    ensures interval.None? ==> heap == heap0
    ensures interval.Some? ==>
              forall e :: e in heap - heap0 ==> e.no < no && IsTrim(e, first, interval.value) && e.t < horizon
    ensures interval.Some? && no > first ==> (no - first) * interval.value < horizon
    ensures interval.Some? ==> (no - first + 1) * interval.value >= horizon
  {
    hide IsTrim;
    no := first;
    var trims: set<Entry> := {};
    if interval.Some? {
      var t: int := interval.value;
      while t < horizon
        invariant no >= first && |trims| == no - first && t == (no - first + 1) * interval.value
        invariant forall e :: e in trims ==> e.no < no && IsTrim(e, first, interval.value) && e.t < horizon
        invariant no > first ==> (no - first) * interval.value < horizon
        decreases horizon - t
      {
        TrimMade(t, no, first, interval.value);
        var e := Entry(t, no, TrimOf);
        assert e !in trims;
        assert (no + 1 - first) * interval.value == t;
        trims, no, t := trims + {e}, no + 1, t + interval.value;
      }
      TrimsApart(heap0, trims, first, interval.value);
      assert (no - first + 1) * interval.value == t;
    }
    heap := heap0 + trims;
    assert heap - heap0 == trims;
    TrimsOnly(heap0, trims);
  }

  lemma TrimMade(t: int, no: nat, first: nat, interval: nat)
    requires no >= first && t == (no - first + 1) * interval
    ensures IsTrim(Entry(t, no, TrimOf), first, interval) && t + interval == (no + 1 - first + 1) * interval
  {
    assert (no + 1 - first + 1) * interval == (no - first + 1) * interval + interval;
  }

  lemma TrimsApart(heap0: set<Entry>, trims: set<Entry>, first: nat, interval: nat)
    requires forall e :: e in heap0 ==> !e.what.TrimOf?
    requires forall e :: e in trims ==> IsTrim(e, first, interval)
    ensures heap0 !! trims && forall e :: e in trims ==> e.what.TrimOf?
  {}

  lemma TrimsOnly(heap0: set<Entry>, trims: set<Entry>)
    requires (forall e :: e in heap0 ==> !e.what.TrimOf?) && forall e :: e in trims ==> e.what.TrimOf?
    ensures TrimsIn(heap0 + trims) == trims
  {}

  /** Before the first event: every request is still to arrive, and the trims are in place. */
  method Begin(trace: seq<Request>, cfg: Config, ghost place: seq<nat>, engines: seq<Engine>, trim: Option<nat>,
               ghost w: Inputs)
    returns (l: Locals, ghost s: Sim, ghost c: Clock)
    requires Usable(trace, cfg) && FitAlone(trace, cfg) && |place| == |trace| && (trim.Some? ==> trim.value > 0)
    requires forall i :: 0 <= i < |engines| ==> engines[i].State() == NewEngine(cfg)
    requires w == Inputs(trace, cfg, place, w.hits, w.step, trim)
    ensures LoopInv(trace, cfg, place, engines, s, l) && |s.cells| == |engines|
    ensures Timed(w, s, l.heap, l.no, c) && Begun(w, |engines|, c.h)
  {
    hide SimInv, Usable, FitAlone, HeapInv, NewEngine, Engine.State, Linked, TrimsIn, Timed, Begun;
    var n := |engines|;
    var arrivals := Arrivals(trace);
    var heap, no := PushTrims(arrivals, trim, if trace == [] then 0 else trace[|trace| - 1].arrival, |trace|);
    ghost var trims := no - |trace|;
    var pending: seq<multiset<nat>> := seq(n, _ => multiset{});
    l := Locals(seq(n, _ => []), seq(n, _ => 0), seq(n, _ => 0), pending, map[], map[], heap, no, 0);
    s := Initial(cfg, n, trims);
    InitialInv(trace, cfg, n, trims);
    InitialRecords(cfg, n, trims);
    InitialHeap(trace, arrivals, heap, l.flights);
    InitialLinked(cfg, n, trims, engines, l.flights, l.bs, l.queued, l.pending);
    c := Clock(History([s], []), seq(n, _ => 0), no);
    InitialTimed(w, n, trims, arrivals, heap);
  }

  lemma InitialTimed(w: Inputs, n: nat, k: nat, arrivals: set<Entry>, heap: set<Entry>)
    requires arrivals == (set r | 0 <= r < |w.trace| :: ArrivalEntry(w.trace, r))
    requires arrivals <= heap && (w.trim.None? ==> heap == arrivals && k == 0)
    requires TrimsIn(heap) == heap - arrivals
    requires w.trim.Some? ==> w.trim.value > 0
    requires w.trim.Some? ==>
               forall e :: e in heap - arrivals ==> e.no < |w.trace| + k && IsTrim(e, |w.trace|, w.trim.value)
    requires TrimCount(w, k)
    ensures var s := Initial(w.cfg, n, k);
            var c := Clock(History([s], []), seq(n, _ => 0), |w.trace| + k);
            Timed(w, s, heap, |w.trace| + k, c) && Begun(w, n, c.h)
  {
    hide TrimCount;
    var s := Initial(w.cfg, n, k);
    var c := Clock(History([s], []), seq(n, _ => 0), |w.trace| + k);
    forall e | e in heap ensures Foreseen(w, c.h, c.since, |w.trace| + k, c.base, e) {
      if e !in arrivals { assert e in TrimsIn(heap); }
    }
    assert Numbered(c.since, heap) by {
      forall e | e in heap ensures !e.what.StepOf? {
        if e !in arrivals { assert e in TrimsIn(heap); }
      }
    }
    assert forall e :: e in heap ==> Ahead(w, c.h, c.since, e) && Coming(w, c.h, c.since, |w.trace| + k, c.base, e);
  }

  /** The event loop of simulate. */
  method EventLoop(trace: seq<Request>, cfg: Config, n: nat, place: seq<nat>, hits: seq<nat>, step: Batch -> nat,
                   trim: Option<nat>)
    returns (engines: seq<Engine>, l: Locals, ghost s: Sim, ghost c: Clock)
    requires Usable(trace, cfg) && FitAlone(trace, cfg) && Sorted(trace) && (trim.Some? ==> trim.value > 0)
    requires |place| == |hits| == |trace| && forall k :: 0 <= k < |trace| ==> place[k] < n
    ensures LoopInv(trace, cfg, place, engines, s, l) && l.heap == {} && |engines| == n
    ensures var w := Inputs(trace, cfg, place, hits, step, trim); Timed(w, s, l.heap, l.no, c) && Begun(w, n, c.h)
  {
    hide LoopInv, Usable, FitAlone, Sorted, Fuel, Objects, NewEngine, Engine.State, Before, Timed, TrimCount;
    ghost var w := Inputs(trace, cfg, place, hits, step, trim);
    engines := Engines(trace, cfg, n);
    l, s, c := Begin(trace, cfg, place, engines, trim, w);
    while l.heap != {}
      invariant Objects(trace, cfg, engines) && fresh(engines) && |engines| == n
      invariant LoopInv(trace, cfg, place, engines, s, l)
      invariant Timed(w, s, l.heap, l.no, c) && Begun(w, n, c.h)
      decreases Fuel(trace, cfg, s)
    {
      var e, _ := PopLeast(l.heap);
      ghost var t;
      if e.what.ArrivalOf? {
        l, t, c := OnArrival(trace, cfg, place, hits, step, engines, l, e, s, w, c);
      } else if e.what.TrimOf? {
        l, t, c := OnTrim(trace, cfg, place, engines, l, e, s, w, c);
      } else {
        l, t, c := OnStepEnd(trace, cfg, place, step, engines, l, e, s, w, c);
      }
      s := t;
    }
  }

  /** A finished request whose first-admission hit is within the infinite cache's credit. */
  ghost predicate Served(trace: seq<Request>, r: nat, p: Progress)
    requires r < |trace|
  {
    && p.firstAt.Some? && p.doneAt.Some?
    && p.engineHit.Some? && p.engineHit.value <= Credit(trace, Simulation.UpTo(r), r)
  }

  lemma Outcome(trace: seq<Request>, cfg: Config, s: Sim)
    requires SimInv(trace, cfg, s) && Quiet(trace, s) && s.log == Simulation.UpTo(|trace|) && |s.cells| > 0
    ensures forall i :: 0 <= i < |s.cells| ==> s.cells[i].bs == 0 && s.cells[i].queued == 0
    ensures forall r :: 0 <= r < |trace| ==>
              && r in s.placed && s.placed[r] < |s.cells| && r in s.cells[s.placed[r]].e.prog
              && Served(trace, r, s.cells[s.placed[r]].e.prog[r])
  {
    hide SimInv, Credit, Quiet;
    QuietIsComplete(trace, cfg, s);
    forall r | 0 <= r < |trace|
      ensures r in s.placed && s.placed[r] < |s.cells| && r in s.cells[s.placed[r]].e.prog
              && Served(trace, r, s.cells[s.placed[r]].e.prog[r])
    {
      HitWithinIdeal(trace, cfg, s, r);
      assert s.log[r] == r && s.log[..r] == Simulation.UpTo(r);
    }
  }

  /** Every request's stamps, on the instance it was routed to, are the ends of steps that served it. */
  lemma AllExplained(w: Inputs, n: nat, h: History, r: nat)
    requires Chronicle(w, h) && Begun(w, n, h) && r < |w.place| && w.place[r] < n
    ensures var i, s := w.place[r], h.run[|h.log|];
            i < |s.cells| && (r in s.cells[i].e.prog ==> Explained(h, |h.log|, i, r, s.cells[i].e.prog[r]))
  {
    hide Chronicle, TrimCount, Explained, Initial;
    var k: nat :| TrimCount(w, k) && h.run[0] == Initial(w.cfg, n, k);
    StampsExplained(w, h, k, n, |h.log|, w.place[r], r);
  }

  /**
   simulate. `place` and `hits` are whatever the routing policy and its prefix index answer, `step` is the cost model,
   `trim` the interval of index trims if there are any. The replay ends; `h` is its history, a chronicle from the empty
   start to rest: requests arrive at their times, every step takes what the cost model charges for its batch from the
   arrival or the end of a step that started it, and events happen in the order of time. Every request then has its
   first token and completion on the instance it was routed to, each stamped with the end of a step that served it, the
   counters are back at zero, and no engine hit exceeds the infinite cache's credit.
   */
  method Replay(trace: seq<Request>, cfg: Config, n: nat, place: seq<nat>, hits: seq<nat>, step: Batch -> nat, trim: Option<nat>)
    returns (engines: seq<Engine>, bs: seq<int>, queued: seq<int>, ghost h: History)
    requires Usable(trace, cfg) && FitAlone(trace, cfg) && Sorted(trace) && n > 0 && (trim.Some? ==> trim.value > 0)
    requires |place| == |hits| == |trace| && forall k :: 0 <= k < |trace| ==> place[k] < n
    ensures |engines| == |bs| == |queued| == n && forall i :: 0 <= i < n ==> bs[i] == 0 && queued[i] == 0
    ensures forall r :: 0 <= r < |trace| ==>
              r in engines[place[r]].State().prog && Served(trace, r, engines[place[r]].State().prog[r])
    ensures Chronicle(Inputs(trace, cfg, place, hits, step, trim), h) && Begun(Inputs(trace, cfg, place, hits, step, trim), n, h)
    ensures var s := h.run[|h.log|];
            Quiet(trace, s) && |s.cells| == n && forall i :: 0 <= i < n ==> s.cells[i].e == engines[i].State()
    ensures forall r :: 0 <= r < |trace| ==> Explained(h, |h.log|, place[r], r, engines[place[r]].State().prog[r])
  {
    hide SimInv, Quiet, Usable, FitAlone, Sorted, Served, Engine.State, HeapInv, Foresees, Begun, Explained, Chronicle;
    var l;
    ghost var s, c;
    ghost var w := Inputs(trace, cfg, place, hits, step, trim);
    engines, l, s, c := EventLoop(trace, cfg, n, place, hits, step, trim);
    h := c.h;
    ChronicleFormed(w, h);
    bs, queued := l.bs, l.queued;
    FlightsLinked(engines, s, l.flights, l.bs, l.queued, l.pending);
    HeapEmpty(trace, s, l.heap, l.turn, l.flights);
    Outcome(trace, cfg, s);
    forall r | 0 <= r < |trace|
      ensures r in engines[place[r]].State().prog && Served(trace, r, engines[place[r]].State().prog[r])
      ensures Explained(h, |h.log|, place[r], r, engines[place[r]].State().prog[r])
    {
      assert s.placed[r] == place[r] && s.cells[place[r]].e == engines[place[r]].State();
      AllExplained(w, n, h, r);
    }
  }

  // ---------------------------------------------------------------------------------------
  // The bound the runs are compared with

  ghost function InputSum(trace: seq<Request>, n: nat): nat
    requires n <= |trace|
  {
    if n == 0 then 0 else InputSum(trace, n - 1) + trace[n - 1].inputLen
  }

  /** ideal_hit: numerator and denominator of the fraction, before the guard against an empty trace. */
  method IdealFraction(trace: seq<Request>) returns (hit: int, tokens: nat)
    ensures hit == IdealSum(trace, |trace|) && tokens == InputSum(trace, |trace|)
  {
    var seen: set<nat> := {};
    hit, tokens := 0, 0;
    for r := 0 to |trace|
      invariant forall id :: id in seen <==> SeenIn(trace, Simulation.UpTo(r), id)
      invariant hit == IdealSum(trace, r) && tokens == InputSum(trace, r)
    {
      hide SeenIn, Lead, Simulation.UpTo, InputSum;
      var n := LeadingRun(trace[r].keys, seen);
      LeadUnique(trace, Simulation.UpTo(r), trace[r].keys, n);
      hit := hit + Min(n, (trace[r].inputLen - 1) / BLOCK) * BLOCK;
      SeenNext(trace, r);
      seen := seen + set k | k in trace[r].keys;
      tokens := tokens + trace[r].inputLen;
    }
  }

  /** The inner loop: leading keys already seen. */
  method LeadingRun(keys: seq<nat>, seen: set<nat>) returns (n: nat)
    ensures n <= |keys| && (forall k :: 0 <= k < n ==> keys[k] in seen) && (n < |keys| ==> keys[n] !in seen)
  {
    n := 0;
    while n < |keys| && keys[n] in seen
      invariant n <= |keys| && forall k :: 0 <= k < n ==> keys[k] in seen
    {
      n := n + 1;
    }
  }

  lemma LeadUnique(trace: seq<Request>, before: seq<nat>, keys: seq<nat>, n: nat)
    requires n <= |keys| && forall k :: 0 <= k < n ==> SeenIn(trace, before, keys[k])
    requires n < |keys| ==> !SeenIn(trace, before, keys[n])
    ensures Lead(trace, before, keys) == n
  {
    LeadAtLeast(trace, before, keys, n);
  }

  lemma SeenNext(trace: seq<Request>, r: nat)
    requires r < |trace|
    ensures forall id :: SeenIn(trace, Simulation.UpTo(r + 1), id) <==>
                         SeenIn(trace, Simulation.UpTo(r), id) || id in trace[r].keys
  {
    var a, b := Simulation.UpTo(r), Simulation.UpTo(r + 1);
    forall id ensures SeenIn(trace, b, id) <==> SeenIn(trace, a, id) || id in trace[r].keys {
      if SeenIn(trace, a, id) {
        var i :| 0 <= i < r && a[i] < |trace| && id in trace[a[i]].keys;
        assert b[i] == a[i];
      }
      if id in trace[r].keys { assert b[r] == r; }
      if SeenIn(trace, b, id) && id !in trace[r].keys {
        var i :| 0 <= i < r + 1 && b[i] < |trace| && id in trace[b[i]].keys;
        assert b[i] == i && i < r && a[i] == i;
      }
    }
  }

  /** The least entry is an arrival: it is the next request, and dispatching it is enabled. */
  lemma NextArrival(trace: seq<Request>, cfg: Config, s: Sim, heap: set<Entry>, turn: nat, flights: seq<seq<Chunk>>,
                    e: Entry, place: seq<nat>)
    requires SimInv(trace, cfg, s) && s.log == Simulation.UpTo(turn) && Sorted(trace) && |place| == |trace|
    requires forall k :: 0 <= k < |trace| ==> place[k] < |s.cells|
    requires HeapInv(trace, heap, turn, flights) && e in heap && e.what.ArrivalOf?
    requires forall f :: f in heap ==> Before(e, f)
    ensures turn < |trace| && e.what.r == turn && e == ArrivalEntry(trace, turn) && place[turn] < |s.cells|
    ensures turn !in s.cells[place[turn]].e.prog && CellInv(trace, cfg, s.tokens, s.cells[place[turn]])
    ensures forall tokens :: Enabled(trace, s, Arrive(turn, place[turn], tokens))
  {
    LeastArrival(trace, heap, turn, flights, e);
    hide SimInv, CellInv, Sorted;
    assert turn !in s.log;
    NotSent(trace, cfg, s, turn, place[turn]);
    CellOf(trace, cfg, s, place[turn]);
  }

  lemma StepPending(trace: seq<Request>, cfg: Config, s: Sim, heap: set<Entry>, turn: nat, flights: seq<seq<Chunk>>, e: Entry)
    requires SimInv(trace, cfg, s) && HeapInv(trace, heap, turn, flights) && e in heap && e.what.StepOf?
    requires |flights| == |s.cells| && forall k :: 0 <= k < |flights| ==> s.cells[k].flight == flights[k]
    ensures e.what.i < |s.cells| && e.what.plan == flights[e.what.i] && Enabled(trace, s, StepEnd(e.what.i, e.t))
    ensures CellInv(trace, cfg, s.tokens, s.cells[e.what.i])
  {
    hide SimInv, CellInv;
    CellOf(trace, cfg, s, e.what.i);
  }

  lemma StartedValid(trace: seq<Request>, cfg: Config, s: Sim, i: nat)
    requires SimInv(trace, cfg, s) && i < |s.cells|
    ensures Usable(trace, cfg) && Inv(trace, cfg, s.cells[i].e, 0, s.cells[i].flight)
  {
    hide Inv, FitAlone, LogInv;
    assert CellInv(trace, cfg, s.tokens, s.cells[i]);
  }
}
