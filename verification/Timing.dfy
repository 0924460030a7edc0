/**
 The clock of simulate: in what order things happen, when steps end and what that stamps. A history lists
 the events of one replay with their times and the states between them; nothing in it mentions a heap.
 */
module Timing {
  import opened Common
  import opened BlockPool
  import opened Scheduling
  import opened ScheduleLoops
  import opened ScheduleTheorems
  import opened FinishSteps
  import opened FinishLoops
  import opened ProgressBound
  import opened DispatchOrder
  import opened IdealHit
  import opened RouterCell
  import opened Simulation
  import opened Caching

  // ---------------------------------------------------------------------------------------
  // finish_step as a whole

  /** What serving chunk `c` at time `now` makes of its request's record. */
  ghost predicate Booked(q: Request, before: Progress, after: Progress, c: Chunk, now: int) {
    var completes := before.computed + c.tokens == q.inputLen + before.generated;
    && after.computed == before.computed + c.tokens
    && after.generated == before.generated + (if completes then 1 else 0)
    && after.firstAt == (if completes && before.firstAt.None? then Some(now) else before.firstAt)
    && after.doneAt == (if completes && before.generated + 1 == q.outputLen then Some(now) else before.doneAt)
  }

  /** Some chunk of the plan is for request `r`. */
  ghost predicate InPlan(plan: seq<Chunk>, r: nat) {
    exists j :: 0 <= j < |plan| && plan[j].rid == r
  }

  ghost predicate AllBooked(trace: seq<Request>, p: map<nat, Progress>, q: map<nat, Progress>, plan: seq<Chunk>, now: int) {
    && p.Keys == q.Keys
    && (forall j :: 0 <= j < |plan| ==>
          plan[j].rid in p && plan[j].rid < |trace| && Booked(trace[plan[j].rid], p[plan[j].rid], q[plan[j].rid], plan[j], now))
    && (forall r :: r in p && !InPlan(plan, r) ==> q[r] == p[r])
  }

  lemma ServedBooked(trace: seq<Request>, cfg: Config, s: EngineState, off: nat, plan: seq<Chunk>, now: int)
    requires Pending(trace, cfg, s, off, plan)
    ensures var t := Served(trace, cfg, s, off, plan, now).s;
            && plan[0].rid in s.prog && plan[0].rid < |trace| && t.prog.Keys == s.prog.Keys
            && Booked(trace[plan[0].rid], s.prog[plan[0].rid], t.prog[plan[0].rid], plan[0], now)
            && (forall r :: r in s.prog && r != plan[0].rid ==> t.prog[r] == s.prog[r])
  {
    hide Inv, Served, Pending, Usable, Order, RemoveAt, Defined, CeilBlocks;
    PendingChunk(trace, cfg, s, off, plan);
    BookedSound(trace, cfg, s, off, plan);
    ServedStep(trace, cfg, s, off, plan, now);
  }

  /**
   finish_step serves every chunk of the plan once, at `now`: an output appears exactly where the chunk ends the
   current sequence, the first output and the last are stamped with `now`, and no other record changes.
   */
  lemma {:induction false} FinishRecords(trace: seq<Request>, cfg: Config, s: EngineState, off: nat, plan: seq<Chunk>, now: int)
    requires Usable(trace, cfg) && Inv(trace, cfg, s, off, plan)
    ensures AllBooked(trace, s.prog, FinishLoop(trace, cfg, s, off, plan, now).s.prog, plan, now)
    decreases |plan|
  {
    if plan != [] {
      assert Pending(trace, cfg, s, off, plan);
      FinishLoopStep(trace, cfg, s, off, plan, now);
      ServedBooked(trace, cfg, s, off, plan, now);
      PlanRids(trace, cfg, s, off, plan);
      hide Inv, Served, Usable, FinishLoop, NextOff, Pending, Booked;
      var t, next := Served(trace, cfg, s, off, plan, now).s, NextOff(trace, cfg, s, off, plan);
      FinishRecords(trace, cfg, t, next, plan[1..], now);
      BookedJoin(trace, s.prog, t.prog, FinishLoop(trace, cfg, t, next, plan[1..], now).s.prog, plan, now);
    }
  }

  lemma BookedJoin(trace: seq<Request>, p: map<nat, Progress>, q: map<nat, Progress>, u: map<nat, Progress>,
                   plan: seq<Chunk>, now: int)
    requires plan != [] && plan[0].rid in p && plan[0].rid < |trace| && q.Keys == p.Keys
    requires Booked(trace[plan[0].rid], p[plan[0].rid], q[plan[0].rid], plan[0], now)
    requires forall r :: r in p && r != plan[0].rid ==> q[r] == p[r]
    requires forall j :: 1 <= j < |plan| ==> plan[j].rid in p && plan[j].rid != plan[0].rid
    requires AllBooked(trace, q, u, plan[1..], now)
    ensures AllBooked(trace, p, u, plan, now)
  {
    hide Booked;
    var rest := plan[1..];
    assert forall j :: 0 <= j < |rest| ==> rest[j] == plan[j + 1];
    assert !InPlan(rest, plan[0].rid);
    assert InPlan(plan, plan[0].rid);
    assert forall r :: InPlan(rest, r) ==> InPlan(plan, r);
    forall j | 0 <= j < |plan|
      ensures plan[j].rid in p && plan[j].rid < |trace| && Booked(trace[plan[j].rid], p[plan[j].rid], u[plan[j].rid], plan[j], now)
    {
      if j > 0 { assert rest[j - 1] == plan[j]; }
    }
  }

  // ---------------------------------------------------------------------------------------
  // Histories

  /** What a replay is given: the policy's answers `place` and `hits`, the cost model and the trim interval. */
  datatype Inputs = Inputs(trace: seq<Request>, cfg: Config, place: seq<nat>, hits: seq<nat>, step: Batch -> nat,
                           trim: Option<nat>)

  /** An event and its time; `from` is the position of the event that started a step, or the number of a trim. */
  datatype Happening = Happening(ev: Event, t: int, from: nat)

  /** The events of a replay and the states before, between and after them. */
  datatype History = History(run: seq<Sim>, log: seq<Happening>)

  ghost predicate Formed(h: History) {
    |h.run| == |h.log| + 1
  }

  predicate EndsOn(ev: Event, i: nat) {
    ev.StepEnd? && ev.i == i
  }

  /** Event `j` starts a step on instance `i`: a step ended there, or a request woke it up. */
  ghost predicate Starts(h: History, j: nat, i: nat)
    requires Formed(h) && j < |h.log|
  {
    && i < |h.run[j].cells| && i < |h.run[j + 1].cells| && h.run[j + 1].cells[i].flight != []
    && match h.log[j].ev
       case StepEnd(k, _) => k == i
       case Arrive(_, k, _) => k == i && h.run[j].cells[i].flight == []
       case Trim => false
  }

  /**
   The step computing `plan` on instance `i` was started by event `j`, has not ended before event `n`, and takes
   from the start until `t` what the cost model charges for its batch.
   */
  ghost predicate Pays(w: Inputs, h: History, i: nat, plan: seq<Chunk>, j: nat, n: nat, t: int)
    requires Formed(h)
  {
    && j < n <= |h.log| && Starts(h, j, i) && h.run[j + 1].cells[i].flight == plan
    && (forall q :: j < q < n ==> !EndsOn(h.log[q].ev, i))
    && PlanKnown(w.trace, h.run[j + 1].cells[i].e, plan)
    && t == h.log[j].t + w.step(BatchOf(w.trace, h.run[j + 1].cells[i].e, plan))
  }

  /** Event `m` happens when and as it should. */
  ghost predicate Happens(w: Inputs, h: History, m: nat)
    requires Formed(h) && m < |h.log|
  {
    var s, x := h.run[m], h.log[m];
    && SimInv(w.trace, w.cfg, s) && Enabled(w.trace, s, x.ev) && h.run[m + 1] == Step(w.trace, w.cfg, s, x.ev)
    && match x.ev
       case Arrive(r, i, newTokens) =>
         && r < |w.place| && r < |w.hits| && x.t == w.trace[r].arrival
         && i == w.place[r] && newTokens == w.trace[r].inputLen - w.hits[r] * BLOCK
       case StepEnd(i, now) => now == x.t && Pays(w, h, i, s.cells[i].flight, x.from, m, x.t)
       case Trim => w.trim.Some? && x.t == (x.from + 1) * w.trim.value
  }

  /** Position in time; simultaneous events are ordered by kind and then by when they were foreseen. */
  datatype Slot = Slot(t: int, kind: nat, index: nat)

  predicate Sooner(a: Slot, b: Slot) {
    a.t < b.t || (a.t == b.t && (a.kind < b.kind || (a.kind == b.kind && a.index < b.index)))
  }

  function SlotOf(x: Happening): Slot {
    match x.ev
    case Arrive(r, _, _) => Slot(x.t, 0, r)
    case Trim => Slot(x.t, 1, x.from)
    case StepEnd(_, _) => Slot(x.t, 2, x.from)
  }

  /** Everything happens as it should, in the order of time. */
  ghost predicate Chronicle(w: Inputs, h: History) {
    && Formed(h)
    && (forall m :: 0 <= m < |h.log| ==> Happens(w, h, m))
    && (forall m, n :: 0 <= m < n < |h.log| ==> Sooner(SlotOf(h.log[m]), SlotOf(h.log[n])))
  }

  // ---------------------------------------------------------------------------------------
  // The heap foresees the history

  datatype Payload = ArrivalOf(r: nat) | StepOf(i: nat, plan: seq<Chunk>) | TrimOf

  /** A heap entry; the running number `no` breaks ties. */
  datatype Entry = Entry(t: int, no: nat, what: Payload)

  predicate Before(a: Entry, b: Entry) {
    a.t < b.t || (a.t == b.t && a.no <= b.no)
  }

  function ArrivalEntry(trace: seq<Request>, r: nat): Entry
    requires r < |trace|
  {
    Entry(trace[r].arrival, r, ArrivalOf(r))
  }

  /** `since[i]` is the event that started the step in flight on instance `i`; numbers from `base` on are steps. */
  ghost predicate Foreseen(w: Inputs, h: History, since: seq<nat>, no: nat, base: nat, e: Entry)
    requires Formed(h)
  {
    match e.what
    case ArrivalOf(r) => r < |w.trace| && e == ArrivalEntry(w.trace, r)
    case TrimOf => w.trim.Some? && |w.trace| <= e.no < base && e.t == (e.no - |w.trace| + 1) * w.trim.value
    case StepOf(i, plan) => i < |since| && |w.trace| <= base <= e.no < no && Pays(w, h, i, plan, since[i], |h.log|, e.t)
  }

  function SlotFor(w: Inputs, since: seq<nat>, e: Entry): Slot {
    match e.what
    case ArrivalOf(r) => Slot(e.t, 0, r)
    case TrimOf => Slot(e.t, 1, Max(0, e.no - |w.trace|))
    case StepOf(i, _) => Slot(e.t, 2, if i < |since| then since[i] else 0)
  }

  /** Steps are numbered in the order they were started, one per instance. */
  ghost predicate Numbered(since: seq<nat>, heap: set<Entry>) {
    forall e, f :: e in heap && f in heap && e.what.StepOf? && f.what.StepOf? && e.what.i < |since| && f.what.i < |since| ==>
      && (since[e.what.i] < since[f.what.i] ==> e.no < f.no)
      && (e.what.i == f.what.i ==> e == f)
  }

  ghost predicate Ahead(w: Inputs, h: History, since: seq<nat>, e: Entry) {
    forall m :: 0 <= m < |h.log| ==> Sooner(SlotOf(h.log[m]), SlotFor(w, since, e))
  }

  ghost predicate Coming(w: Inputs, h: History, since: seq<nat>, no: nat, base: nat, e: Entry)
    requires Formed(h)
  {
    Foreseen(w, h, since, no, base, e) && Ahead(w, h, since, e)
  }

  /** The heap holds what is to come: each entry at its time, after everything that has happened. */
  ghost predicate Foresees(w: Inputs, h: History, since: seq<nat>, heap: set<Entry>, no: nat, base: nat)
    requires Formed(h)
  {
    && Numbered(since, heap)
    && forall e :: e in heap ==> Coming(w, h, since, no, base, e)
  }

  /** The least entry of the heap is sooner than the others. */
  lemma LeastSooner(w: Inputs, h: History, since: seq<nat>, heap: set<Entry>, no: nat, base: nat, e: Entry, f: Entry)
    requires Formed(h) && Foresees(w, h, since, heap, no, base) && e in heap && f in heap && e != f && Before(e, f)
    ensures Sooner(SlotFor(w, since, e), SlotFor(w, since, f))
  {
    hide BatchOf, Ahead, PlanKnown;
    assert Coming(w, h, since, no, base, e) && Coming(w, h, since, no, base, f);
  }

  ghost function FromOf(w: Inputs, since: seq<nat>, e: Entry): nat {
    SlotFor(w, since, e).index
  }

  /** The event that the entry stands for. */
  ghost predicate Stands(w: Inputs, s: Sim, e: Entry, ev: Event) {
    match e.what
    case ArrivalOf(r) =>
      && r < |w.trace| && r < |w.place| && r < |w.hits|
      && ev == Arrive(r, w.place[r], w.trace[r].inputLen - w.hits[r] * BLOCK)
    case TrimOf => ev == Trim
    case StepOf(i, plan) => i < |s.cells| && s.cells[i].flight == plan && ev == StepEnd(i, e.t)
  }

  /** The history after one more event. */
  ghost function Then(w: Inputs, h: History, since: seq<nat>, e: Entry, ev: Event, t: Sim): History {
    History(h.run + [t], h.log + [Happening(ev, e.t, FromOf(w, since, e))])
  }

  lemma ChronicleFormed(w: Inputs, h: History)
    requires Chronicle(w, h)
    ensures Formed(h)
  {
  }

  ghost predicate Prefix(g: History, h: History) {
    Formed(g) && Formed(h) && g.run <= h.run && g.log <= h.log
  }

  lemma PaysExtends(w: Inputs, g: History, h: History, i: nat, plan: seq<Chunk>, j: nat, n: nat, t: int)
    requires Prefix(g, h) && Pays(w, g, i, plan, j, n, t)
    ensures Pays(w, h, i, plan, j, n, t)
  {
    hide BatchOf, PlanKnown;
    assert h.run[j] == g.run[j] && h.run[j + 1] == g.run[j + 1];
    assert forall q :: 0 <= q < |g.log| ==> h.log[q] == g.log[q];
  }

  lemma HappensExtends(w: Inputs, g: History, h: History, m: nat)
    requires Prefix(g, h) && m < |g.log| && Happens(w, g, m)
    ensures Happens(w, h, m)
  {
    hide SimInv, Enabled, Step, Pays;
    assert h.run[m] == g.run[m] && h.run[m + 1] == g.run[m + 1] && h.log[m] == g.log[m];
    match g.log[m].ev
    case Arrive(_, _, _) =>
    case Trim =>
    case StepEnd(i, _) =>
      assert i < |g.run[m].cells| by { StepIndex(w, g, m); }
      PaysExtends(w, g, h, i, g.run[m].cells[i].flight, g.log[m].from, m, g.log[m].t);
  }

  lemma StepIndex(w: Inputs, g: History, m: nat)
    requires Formed(g) && m < |g.log| && Happens(w, g, m)
    ensures g.log[m].ev.StepEnd? ==> g.log[m].ev.i < |g.run[m].cells|
  {
    hide SimInv, Step, Pays;
  }

  /** The event that the entry `e` stands for may happen next, and leads to `t`. */
  ghost predicate Next(w: Inputs, h: History, heap: set<Entry>, e: Entry, ev: Event, t: Sim)
    requires Formed(h)
  {
    var s := h.run[|h.log|];
    && e in heap && (forall f :: f in heap ==> Before(e, f)) && Stands(w, s, e, ev)
    && SimInv(w.trace, w.cfg, s) && Enabled(w.trace, s, ev) && t == Step(w.trace, w.cfg, s, ev)
  }

  lemma NextHappens(w: Inputs, h: History, since: seq<nat>, heap: set<Entry>, no: nat, base: nat, e: Entry, ev: Event, t: Sim)
    requires Formed(h) && Next(w, h, heap, e, ev, t) && Foreseen(w, h, since, no, base, e)
    ensures var g := Then(w, h, since, e, ev, t); Formed(g) && Happens(w, g, |h.log|)
  {
    hide SimInv, Enabled, Step, Pays;
    var g := Then(w, h, since, e, ev, t);
    assert g.run[|h.log|] == h.run[|h.log|] && g.run[|h.log| + 1] == t && g.log[|h.log|].ev == ev;
    if e.what.StepOf? {
      var i := e.what.i;
      PaysExtends(w, h, g, i, e.what.plan, since[i], |h.log|, e.t);
    }
  }

  /** Another entry stays foreseen. */
  lemma OtherForeseen(w: Inputs, h: History, since: seq<nat>, heap: set<Entry>, no: nat, base: nat, e: Entry, ev: Event,
                      t: Sim, f: Entry)
    requires Formed(h) && Next(w, h, heap, e, ev, t) && Foresees(w, h, since, heap, no, base) && f in heap && f != e
    ensures var g := Then(w, h, since, e, ev, t); Formed(g) && Coming(w, g, since, no, base, f)
  {
    var g := Then(w, h, since, e, ev, t);
    hide SimInv, Enabled, Step;
    assert Coming(w, h, since, no, base, f) && Coming(w, h, since, no, base, e);
    LeastSooner(w, h, since, heap, no, base, e, f);
    AheadThen(w, h, since, e, ev, t, f);
    if f.what.StepOf? {
      var i, n := f.what.i, |h.log|;
      assert Pays(w, h, i, f.what.plan, since[i], n, f.t);
      assert !EndsOn(ev, i);
      hide Pays;
      PaysExtends(w, h, g, i, f.what.plan, since[i], n, f.t);
      PaysLater(w, g, i, f.what.plan, since[i], n, f.t);
    }
  }

  lemma PaysLater(w: Inputs, h: History, i: nat, plan: seq<Chunk>, j: nat, n: nat, t: int)
    requires Formed(h) && Pays(w, h, i, plan, j, n, t) && n < |h.log| && !EndsOn(h.log[n].ev, i)
    ensures Pays(w, h, i, plan, j, n + 1, t)
  {
    hide Starts, BatchOf, PlanKnown;
  }

  lemma AheadThen(w: Inputs, h: History, since: seq<nat>, e: Entry, ev: Event, t: Sim, f: Entry)
    requires Ahead(w, h, since, f) && Sooner(SlotFor(w, since, e), SlotFor(w, since, f))
    requires SlotOf(Happening(ev, e.t, FromOf(w, since, e))) == SlotFor(w, since, e)
    ensures Ahead(w, Then(w, h, since, e, ev, t), since, f)
  {
    hide SlotFor, SlotOf, Sooner, FromOf;
  }

  lemma StandsSlot(w: Inputs, h: History, since: seq<nat>, no: nat, base: nat, s: Sim, e: Entry, ev: Event)
    requires Formed(h) && Stands(w, s, e, ev) && Foreseen(w, h, since, no, base, e)
    ensures SlotOf(Happening(ev, e.t, FromOf(w, since, e))) == SlotFor(w, since, e)
  {
    hide Pays;
  }

  lemma ChronicleMore(w: Inputs, h: History, g: History)
    requires Chronicle(w, h) && Prefix(h, g) && |g.log| == |h.log| + 1 && Happens(w, g, |h.log|)
    requires forall m :: 0 <= m < |h.log| ==> Sooner(SlotOf(h.log[m]), SlotOf(g.log[|h.log|]))
    ensures Chronicle(w, g)
  {
    hide Happens, Sooner, SlotOf;
    assert forall m :: 0 <= m < |h.log| ==> g.log[m] == h.log[m];
    forall m | 0 <= m < |g.log| ensures Happens(w, g, m) {
      if m < |h.log| { HappensExtends(w, h, g, m); }
    }
  }

  lemma ThenExtends(w: Inputs, h: History, since: seq<nat>, e: Entry, ev: Event, t: Sim)
    requires Formed(h)
    ensures var g := Then(w, h, since, e, ev, t);
            Prefix(h, g) && |g.log| == |h.log| + 1 && g.log[|h.log|] == Happening(ev, e.t, FromOf(w, since, e))
  {
  }

  lemma AdvanceChronicle(w: Inputs, h: History, since: seq<nat>, heap: set<Entry>, no: nat, base: nat, e: Entry, ev: Event, t: Sim)
    requires Chronicle(w, h) && Foresees(w, h, since, heap, no, base) && Next(w, h, heap, e, ev, t)
    ensures Chronicle(w, Then(w, h, since, e, ev, t))
  {
    ChronicleFormed(w, h);
    NextStands(w, h, heap, e, ev, t);
    assert Coming(w, h, since, no, base, e);
    ThenExtends(w, h, since, e, ev, t);
    hide Then, Chronicle, Foresees, Next, Foreseen, Happens, Stands, Sooner, SlotOf, SlotFor, FromOf;
    NextHappens(w, h, since, heap, no, base, e, ev, t);
    StandsSlot(w, h, since, no, base, h.run[|h.log|], e, ev);
    ChronicleMore(w, h, Then(w, h, since, e, ev, t));
  }

  lemma AdvanceForesees(w: Inputs, h: History, since: seq<nat>, heap: set<Entry>, no: nat, base: nat, e: Entry, ev: Event, t: Sim)
    requires Formed(h) && Foresees(w, h, since, heap, no, base) && Next(w, h, heap, e, ev, t)
    ensures var g := Then(w, h, since, e, ev, t); Formed(g) && Foresees(w, g, since, heap - {e}, no, base)
  {
    ThenExtends(w, h, since, e, ev, t);
    assert Numbered(since, heap);
    hide Then, Coming, Next, Numbered;
    NumberedLess(since, heap, e);
    var g := Then(w, h, since, e, ev, t);
    forall f | f in heap - {e} ensures Coming(w, g, since, no, base, f) {
      OtherForeseen(w, h, since, heap, no, base, e, ev, t, f);
    }
  }

  /** The least entry happens: the history stays a chronicle and the other entries stay foreseen. */
  lemma Advance(w: Inputs, h: History, since: seq<nat>, heap: set<Entry>, no: nat, base: nat, e: Entry, ev: Event, t: Sim)
    requires Chronicle(w, h) && Foresees(w, h, since, heap, no, base) && Next(w, h, heap, e, ev, t)
    ensures var g := Then(w, h, since, e, ev, t);
            Formed(g) && Chronicle(w, g) && Foresees(w, g, since, heap - {e}, no, base)
  {
    ChronicleFormed(w, h);
    hide *;
    AdvanceChronicle(w, h, since, heap, no, base, e, ev, t);
    AdvanceForesees(w, h, since, heap, no, base, e, ev, t);
  }

  lemma NextStands(w: Inputs, h: History, heap: set<Entry>, e: Entry, ev: Event, t: Sim)
    requires Formed(h) && Next(w, h, heap, e, ev, t)
    ensures Stands(w, h.run[|h.log|], e, ev) && e in heap
  {
    hide SimInv, Enabled, Step, Stands;
  }

  lemma NumberedLess(since: seq<nat>, heap: set<Entry>, e: Entry)
    requires Numbered(since, heap)
    ensures Numbered(since, heap - {e})
  {
  }

  /** A step that the last event starts comes after everything that has happened. */
  lemma LaunchAhead(w: Inputs, h: History, m: nat, t: int)
    requires Chronicle(w, h) && m < |h.log| && t >= h.log[|h.log| - 1].t
    ensures Sooner(SlotOf(h.log[m]), Slot(t, 2, |h.log| - 1))
  {
    hide Chronicle, Happens, SlotOf;
    var j := |h.log| - 1;
    ChronicleHas(w, h, m, j);
    SlotBound(w, h, m);
    SlotTime(h.log[m]);
    SlotTime(h.log[j]);
  }

  lemma ChronicleHas(w: Inputs, h: History, m: nat, n: nat)
    requires Chronicle(w, h) && m <= n < |h.log|
    ensures Formed(h) && Happens(w, h, m) && (m < n ==> Sooner(SlotOf(h.log[m]), SlotOf(h.log[n])))
  {
    hide Happens, Sooner, SlotOf;
  }

  lemma SlotTime(x: Happening)
    ensures SlotOf(x).t == x.t && SlotOf(x).kind <= 2 && (SlotOf(x).kind == 2 ==> x.ev.StepEnd? && SlotOf(x).index == x.from)
  {
  }

  lemma SlotBound(w: Inputs, h: History, m: nat)
    requires Formed(h) && m < |h.log| && Happens(w, h, m)
    ensures h.log[m].ev.StepEnd? ==> h.log[m].from < m
  {
    hide SimInv, Step, Starts, PlanKnown, BatchOf;
  }

  /** `start` pushes the end of the step that the last event starts on instance `i`. */
  lemma Launch(w: Inputs, h: History, since: seq<nat>, heap: set<Entry>, no: nat, base: nat, i: nat, entry: Entry)
    requires Chronicle(w, h) && Foresees(w, h, since, heap, no, base) && h.log != [] && |w.trace| <= base <= no
    requires i < |since| && forall f :: f in heap && f.what.StepOf? ==> f.what.i != i
    requires entry.no == no && entry.what.StepOf? && entry.what.i == i
    requires Pays(w, h, i, entry.what.plan, |h.log| - 1, |h.log|, entry.t)
    ensures Foresees(w, h, since[i := |h.log| - 1], heap + {entry}, no + 1, base)
  {
    var j, later := |h.log| - 1, since[i := |h.log| - 1];
    assert entry.t >= h.log[j].t && Starts(h, j, i);
    forall f | f in heap
      ensures Coming(w, h, later, no + 1, base, f)
      ensures f.what.StepOf? ==> f.what.i < |since| && f.what.i != i && since[f.what.i] < j && f.no < no
    {
      EarlierKept(w, h, since, heap, no, base, i, f);
    }
    hide Pays, Chronicle, Sooner, SlotOf, PlanKnown, BatchOf;
    forall m | 0 <= m < |h.log| ensures Sooner(SlotOf(h.log[m]), SlotFor(w, later, entry)) {
      LaunchAhead(w, h, m, entry.t);
    }
    assert Ahead(w, h, later, entry);
    assert Foreseen(w, h, later, no + 1, base, entry);
    assert Coming(w, h, later, no + 1, base, entry);
    hide Coming;
    NumberedMore(since, heap, i, j, entry);
  }

  lemma EarlierKept(w: Inputs, h: History, since: seq<nat>, heap: set<Entry>, no: nat, base: nat, i: nat, f: Entry)
    requires Formed(h) && Foresees(w, h, since, heap, no, base) && h.log != [] && f in heap
    requires i < |since| && Starts(h, |h.log| - 1, i) && (f.what.StepOf? ==> f.what.i != i)
    ensures Coming(w, h, since[i := |h.log| - 1], no + 1, base, f)
    ensures f.what.StepOf? ==> f.what.i < |since| && since[f.what.i] < |h.log| - 1 && f.no < no
  {
    assert Coming(w, h, since, no, base, f);
    assert SlotFor(w, since[i := |h.log| - 1], f) == SlotFor(w, since, f);
    hide Sooner, SlotOf, PlanKnown, BatchOf;
  }

  lemma NumberedMore(since: seq<nat>, heap: set<Entry>, i: nat, j: nat, entry: Entry)
    requires Numbered(since, heap) && i < |since| && entry.what.StepOf? && entry.what.i == i
    requires forall f :: f in heap && f.what.StepOf? ==>
               f.what.i < |since| && f.what.i != i && since[f.what.i] < j && f.no < entry.no
    ensures Numbered(since[i := j], heap + {entry})
  {
  }

  /** The event `ev` on instance `i` starts a step there, and `entry` is its end. */
  ghost predicate Launches(w: Inputs, s: Sim, ev: Event, t: Sim, now: int, no: nat, i: nat, entry: Entry) {
    && i < |s.cells| && i < |t.cells| && t.cells[i].flight != []
    && (match ev case StepEnd(k, _) => k == i case Arrive(_, k, _) => k == i && s.cells[i].flight == [] case Trim => false)
    && PlanKnown(w.trace, t.cells[i].e, t.cells[i].flight)
    && entry == Entry(now + w.step(BatchOf(w.trace, t.cells[i].e, t.cells[i].flight)), no, StepOf(i, t.cells[i].flight))
  }

  lemma LaunchPays(w: Inputs, h: History, since: seq<nat>, e: Entry, ev: Event, t: Sim, no: nat, i: nat, entry: Entry)
    requires Formed(h) && Launches(w, h.run[|h.log|], ev, t, e.t, no, i, entry)
    ensures var g := Then(w, h, since, e, ev, t);
            Formed(g) && entry.no == no && entry.what.StepOf? && entry.what.i == i
            && Pays(w, g, i, entry.what.plan, |h.log|, |h.log| + 1, entry.t)
  {
    hide PlanKnown, BatchOf, SlotFor;
    var g := Then(w, h, since, e, ev, t);
    assert g.run[|h.log|] == h.run[|h.log|] && g.run[|h.log| + 1] == t && g.log[|h.log|].ev == ev;
  }

  /** The least entry happens, and the end of the step it starts is pushed. */
  lemma AdvanceAndLaunch(w: Inputs, h: History, since: seq<nat>, heap: set<Entry>, no: nat, base: nat, e: Entry, ev: Event,
                         t: Sim, i: nat, entry: Entry)
    requires Chronicle(w, h) && Foresees(w, h, since, heap, no, base) && Next(w, h, heap, e, ev, t)
    requires |w.trace| <= base <= no && i < |since|
    requires Launches(w, h.run[|h.log|], ev, t, e.t, no, i, entry)
    requires forall f :: f in heap - {e} && f.what.StepOf? ==> f.what.i != i
    ensures var g := Then(w, h, since, e, ev, t);
            Formed(g) && Chronicle(w, g) && Foresees(w, g, since[i := |h.log|], heap - {e} + {entry}, no + 1, base)
  {
    ChronicleFormed(w, h);
    ThenExtends(w, h, since, e, ev, t);
    var g := Then(w, h, since, e, ev, t);
    assert g.log != [] && |g.log| - 1 == |h.log|;
    hide *;
    Advance(w, h, since, heap, no, base, e, ev, t);
    LaunchPays(w, h, since, e, ev, t, no, i, entry);
    var rest := heap - {e};
    Launch(w, g, since, rest, no, base, i, entry);
  }

  /** The history so far, the event that started each instance's step, and the first number of a step. */
  datatype Clock = Clock(h: History, since: seq<nat>, base: nat)

  ghost predicate Timed(w: Inputs, s: Sim, heap: set<Entry>, no: nat, c: Clock) {
    && Chronicle(w, c.h) && c.h.run[|c.h.log|] == s && Foresees(w, c.h, c.since, heap, no, c.base)
    && |w.trace| <= c.base <= no && |c.since| == |s.cells|
  }

  /** The clock after one more event. */
  ghost function Tick(w: Inputs, c: Clock, e: Entry, ev: Event, t: Sim, pushed: bool, i: nat): Clock {
    Clock(Then(w, c.h, c.since, e, ev, t), if pushed && i < |c.since| then c.since[i := |c.h.log|] else c.since, c.base)
  }

  ghost predicate SameStart(g: History, h: History) {
    g.run != [] && h.run != [] && h.run[0] == g.run[0]
  }

  lemma Ticks(w: Inputs, s: Sim, heap: set<Entry>, no: nat, c: Clock, e: Entry, ev: Event, t: Sim, pushed: bool, i: nat,
              entry: Entry)
    requires Timed(w, s, heap, no, c) && Next(w, c.h, heap, e, ev, t) && |t.cells| == |s.cells|
    requires pushed ==> Launches(w, s, ev, t, e.t, no, i, entry) && i < |s.cells|
    requires pushed ==> forall f :: f in heap - {e} && f.what.StepOf? ==> f.what.i != i
    ensures Timed(w, t, heap - {e} + (if pushed then {entry} else {}), if pushed then no + 1 else no,
                  Tick(w, c, e, ev, t, pushed, i))
    ensures SameStart(c.h, Tick(w, c, e, ev, t, pushed, i).h)
  {
    hide *;
    TimedParts(w, s, heap, no, c);
    ThenEnds(w, c.h, c.since, e, ev, t);
    TickIs(w, c, e, ev, t, pushed, i);
    var g, since := Then(w, c.h, c.since, e, ev, t), if pushed then c.since[i := |c.h.log|] else c.since;
    if pushed {
      AdvanceAndLaunch(w, c.h, c.since, heap, no, c.base, e, ev, t, i, entry);
    } else {
      Advance(w, c.h, c.since, heap, no, c.base, e, ev, t);
      assert heap - {e} + {} == heap - {e};
    }
    TimedMade(w, t, heap - {e} + (if pushed then {entry} else {}), if pushed then no + 1 else no, Clock(g, since, c.base));
  }

  lemma TickIs(w: Inputs, c: Clock, e: Entry, ev: Event, t: Sim, pushed: bool, i: nat)
    requires pushed ==> i < |c.since|
    ensures Tick(w, c, e, ev, t, pushed, i) ==
            Clock(Then(w, c.h, c.since, e, ev, t), if pushed then c.since[i := |c.h.log|] else c.since, c.base)
  {
    hide Then;
  }

  lemma TimedParts(w: Inputs, s: Sim, heap: set<Entry>, no: nat, c: Clock)
    requires Timed(w, s, heap, no, c)
    ensures Formed(c.h) && Chronicle(w, c.h) && c.h.run[|c.h.log|] == s && Foresees(w, c.h, c.since, heap, no, c.base)
    ensures |w.trace| <= c.base <= no && |c.since| == |s.cells|
  {
    hide Chronicle, Foresees;
    ChronicleFormed(w, c.h);
  }

  lemma TimedMade(w: Inputs, s: Sim, heap: set<Entry>, no: nat, c: Clock)
    requires Formed(c.h) && Chronicle(w, c.h) && c.h.run[|c.h.log|] == s && Foresees(w, c.h, c.since, heap, no, c.base)
    requires |w.trace| <= c.base <= no && |c.since| == |s.cells|
    ensures Timed(w, s, heap, no, c)
  {
  }

  lemma ThenEnds(w: Inputs, h: History, since: seq<nat>, e: Entry, ev: Event, t: Sim)
    requires Formed(h)
    ensures var g := Then(w, h, since, e, ev, t); Formed(g) && g.run[|g.log|] == t && SameStart(h, g)
  {
    hide FromOf;
  }

  // ---------------------------------------------------------------------------------------
  // What the history stamps

  /** How many trims are pushed: one every `interval` before the last arrival. */
  ghost predicate TrimCount(w: Inputs, k: nat) {
    match w.trim
    case None => k == 0
    case Some(v) =>
      var horizon := if w.trace == [] then 0 else w.trace[|w.trace| - 1].arrival;
      v > 0 && (k > 0 ==> k * v < horizon) && (k + 1) * v >= horizon
  }

  /** The history begins with `n` empty engines and all trims to come. */
  ghost predicate Begun(w: Inputs, n: nat, h: History) {
    h.run != [] && exists k: nat :: TrimCount(w, k) && h.run[0] == Initial(w.cfg, n, k)
  }

  /** The record changes outputs and stamps only by an output of a step that ends at `now`. */
  ghost predicate Stamped(p: Progress, q: Progress, serves: bool, now: int) {
    && (q.firstAt == p.firstAt || (serves && p.firstAt.None? && q.firstAt == Some(now)))
    && (q.doneAt == p.doneAt || (serves && q.doneAt == Some(now)))
  }

  /** No request is forgotten, and new ones have no stamps. */
  ghost predicate StampedAll(p: map<nat, Progress>, q: map<nat, Progress>, plan: seq<Chunk>, ends: bool, now: int) {
    && p.Keys <= q.Keys
    && (forall r :: r in p ==> Stamped(p[r], q[r], ends && InPlan(plan, r), now))
    && (forall r :: r in q && r !in p ==> q[r].firstAt.None? && q[r].doneAt.None?)
  }

  lemma ScheduleStamps(trace: seq<Request>, cfg: Config, p: map<nat, Progress>, c: Cell, plan: seq<Chunk>, ends: bool, now: int)
    requires Usable(trace, cfg) && Inv(trace, cfg, c.e, 0, []) && StampedAll(p, c.e.prog, plan, ends, now)
    ensures StampedAll(p, StartStep(trace, cfg, c).e.prog, plan, ends, now)
  {
    hide Inv, Schedule, Usable;
    ScheduleOutputs(trace, cfg, c.e);
  }

  lemma ReceiveStamps(trace: seq<Request>, cfg: Config, w: map<nat, int>, c: Cell, r: nat, tokens: int)
    requires CellInv(trace, cfg, w, c) && r < |trace| && r !in c.e.prog
    ensures StampedAll(c.e.prog, Receive(trace, cfg, c, r, tokens).e.prog, c.flight, false, 0)
  {
    hide Inv, Usable, StartStep, Credited, Counts;
    SubmitInv(trace, cfg, c.e, 0, c.flight, r);
    if c.flight == [] { ScheduleStamps(trace, cfg, c.e.prog, Enqueue(trace, c, r, tokens), c.flight, false, 0); }
  }

  lemma EndStamps(trace: seq<Request>, cfg: Config, w: map<nat, int>, c: Cell, now: int)
    requires CellInv(trace, cfg, w, c)
    ensures StampedAll(c.e.prog, EndStep(trace, cfg, w, c, now).e.prog, c.flight, true, now)
  {
    FinishRecords(trace, cfg, c.e, 0, c.flight, now);
    FinishLoopCounts(trace, cfg, w, c.e, 0, c.flight, now, c);
    hide Inv, Usable, StartStep, Credited, Counts, FinishLoop, Apply, StampedAll;
    var o := FinishStep(trace, cfg, c.e, c.flight, now);
    BookedStamps(trace, c.e.prog, o.s.prog, c.flight, now);
    ScheduleStamps(trace, cfg, c.e.prog, Apply(trace, w, c, o.calls).(e := o.s), c.flight, true, now);
  }

  lemma BookedStamps(trace: seq<Request>, p: map<nat, Progress>, q: map<nat, Progress>, plan: seq<Chunk>, now: int)
    requires AllBooked(trace, p, q, plan, now)
    ensures StampedAll(p, q, plan, true, now)
  {
    forall r | r in p ensures Stamped(p[r], q[r], InPlan(plan, r), now) {
      if InPlan(plan, r) {
        var j :| 0 <= j < |plan| && plan[j].rid == r;
      }
    }
  }

  lemma SameStamps(p: map<nat, Progress>, plan: seq<Chunk>, ends: bool, now: int)
    ensures StampedAll(p, p, plan, ends, now)
  {
  }

  /** Event `m` ends a step on instance `i` whose plan has a chunk for `r`. */
  ghost predicate EndsServing(h: History, m: nat, i: nat, r: nat)
    requires Formed(h) && m < |h.log|
  {
    EndsOn(h.log[m].ev, i) && i < |h.run[m].cells| && InPlan(h.run[m].cells[i].flight, r)
  }

  /** One event changes the stamps on an instance only by ending a step there, and only those of its plan. */
  lemma EventStamps(w: Inputs, h: History, m: nat, i: nat)
    requires Formed(h) && m < |h.log| && Happens(w, h, m) && i < |h.run[m].cells|
    ensures i < |h.run[m + 1].cells|
    ensures StampedAll(h.run[m].cells[i].e.prog, h.run[m + 1].cells[i].e.prog, h.run[m].cells[i].flight,
                       EndsOn(h.log[m].ev, i), h.log[m].t)
  {
    hide CellInv, LogInv, Usable, FitAlone, Receive, EndStep, StampedAll, Pays;
    var s, x := h.run[m], h.log[m];
    SameStamps(s.cells[i].e.prog, s.cells[i].flight, EndsOn(x.ev, i), x.t);
    match x.ev
    case Arrive(r, k, tokens) =>
      if k == i {
        NotSent(w.trace, w.cfg, s, r, k);
        CellOf(w.trace, w.cfg, s, k);
        ReceiveStamps(w.trace, w.cfg, s.tokens, s.cells[k], r, tokens);
        UnendedStamps(s.cells[i].e.prog, h.run[m + 1].cells[i].e.prog, s.cells[i].flight, x.t);
      }
    case StepEnd(k, now) =>
      if k == i {
        CellOf(w.trace, w.cfg, s, k);
        EndStamps(w.trace, w.cfg, s.tokens, s.cells[k], now);
      }
    case Trim =>
  }

  lemma UnendedStamps(p: map<nat, Progress>, q: map<nat, Progress>, plan: seq<Chunk>, now: int)
    requires StampedAll(p, q, plan, false, 0)
    ensures StampedAll(p, q, plan, false, now)
  {
  }

  /** Event `m` gives `r` its first token, at its own time. */
  ghost predicate FirstAt(h: History, m: nat, i: nat, r: nat, t: int)
    requires Formed(h) && m < |h.log|
  {
    EndsServing(h, m, i, r) && t == h.log[m].t
    && r in h.run[m].cells[i].e.prog && h.run[m].cells[i].e.prog[r].firstAt.None?
  }

  /** Event `m` completes `r`, at its own time. */
  ghost predicate DoneAt(h: History, m: nat, i: nat, r: nat, t: int)
    requires Formed(h) && m < |h.log|
  {
    EndsServing(h, m, i, r) && t == h.log[m].t
    && r in h.run[m].cells[i].e.prog && h.run[m].cells[i].e.prog[r].doneAt != Some(t)
  }

  /** The stamps of `r` are the times at which steps serving it ended. */
  ghost predicate Explained(h: History, n: nat, i: nat, r: nat, p: Progress)
    requires Formed(h) && n <= |h.log|
  {
    && (p.firstAt.Some? ==> exists m :: 0 <= m < n && FirstAt(h, m, i, r, p.firstAt.value))
    && (p.doneAt.Some? ==> exists m :: 0 <= m < n && DoneAt(h, m, i, r, p.doneAt.value))
  }

  lemma ExplainedNext(h: History, m: nat, i: nat, r: nat, p: Progress, q: Progress)
    requires Formed(h) && m < |h.log| && Explained(h, m, i, r, p) && i < |h.run[m].cells|
    requires r in h.run[m].cells[i].e.prog && h.run[m].cells[i].e.prog[r] == p
    requires Stamped(p, q, EndsServing(h, m, i, r), h.log[m].t)
    ensures Explained(h, m + 1, i, r, q)
  {
    hide EndsServing;
    if q.firstAt != p.firstAt { assert FirstAt(h, m, i, r, q.firstAt.value); }
    if q.doneAt != p.doneAt { assert DoneAt(h, m, i, r, q.doneAt.value); }
  }

  /** Every first token and every completion is stamped with the end of a step that served the request. */
  lemma {:induction false} StampsExplained(w: Inputs, h: History, k: nat, cells: nat, n: nat, i: nat, r: nat)
    requires Chronicle(w, h) && h.run[0] == Initial(w.cfg, cells, k) && n <= |h.log| && i < cells
    ensures i < |h.run[n].cells|
    ensures r in h.run[n].cells[i].e.prog ==> Explained(h, n, i, r, h.run[n].cells[i].e.prog[r])
    decreases n
  {
    hide Happens, Sooner, SlotOf, Explained, Stamped;
    if n > 0 {
      StampsExplained(w, h, k, cells, n - 1, i, r);
      EventStamps(w, h, n - 1, i);
      var p, q := h.run[n - 1].cells[i].e.prog, h.run[n].cells[i].e.prog;
      if r in q {
        if r in p {
          ExplainedNext(h, n - 1, i, r, p[r], q[r]);
        } else {
          assert Explained(h, n, i, r, q[r]) by { Unstamped(h, n, i, r, q[r]); }
        }
      }
    }
  }

  lemma Unstamped(h: History, n: nat, i: nat, r: nat, p: Progress)
    requires Formed(h) && n <= |h.log| && p.firstAt.None? && p.doneAt.None?
    ensures Explained(h, n, i, r, p)
  {
  }
}
