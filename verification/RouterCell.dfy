/**
 One instance as the router sees it (routing_sim.py, simulate): an engine, the step in flight, and the
 counters the router keeps from dispatches and callbacks.
 */
module RouterCell {
  import opened Common
  import opened BlockPool
  import opened Scheduling
  import opened ScheduleSteps
  import opened ScheduleLoops
  import opened ScheduleTheorems
  import opened FinishSteps
  import opened FinishLoops
  import opened ProgressBound
  import opened DispatchOrder
  import opened IdealHit

  /** `flight` is the plan of the step being computed, empty when the engine is not busy. */
  datatype Cell = Cell(e: EngineState, flight: seq<Chunk>, bs: int, queued: int, pending: multiset<nat>)

  /** Trace keys of the full prompt blocks. */
  function FullKeys(q: Request): seq<nat> {
    q.keys[..Min(|q.keys|, q.inputLen / BLOCK)]
  }

  // ---------------------------------------------------------------------------------------
  // What the counters should be

  /** New prompt tokens of the listed requests still without a first token. */
  ghost function QueuedSum(order: seq<nat>, prog: map<nat, Progress>, w: map<nat, int>): int
    requires forall i :: 0 <= i < |order| ==> order[i] in prog && order[i] in w
  {
    if order == [] then 0
    else
      var n := |order| - 1;
      QueuedSum(order[..n], prog, w) + (if prog[order[n]].firstAt.None? then w[order[n]] else 0)
  }

  /** Their prompt keys, with multiplicity. */
  ghost function PendingSum(trace: seq<Request>, order: seq<nat>, prog: map<nat, Progress>): multiset<nat>
    requires forall i :: 0 <= i < |order| ==> order[i] in prog && order[i] < |trace|
  {
    if order == [] then multiset{}
    else
      var n := |order| - 1;
      PendingSum(trace, order[..n], prog)
        + (if prog[order[n]].firstAt.None? then multiset(FullKeys(trace[order[n]])) else multiset{})
  }

  ghost predicate Weighed(trace: seq<Request>, order: seq<nat>, prog: map<nat, Progress>, w: map<nat, int>) {
    forall i :: 0 <= i < |order| ==> order[i] in prog && order[i] in w && order[i] < |trace|
  }

  lemma {:induction false} SumsFrame(trace: seq<Request>, order: seq<nat>, p: map<nat, Progress>, q: map<nat, Progress>, w: map<nat, int>, v: map<nat, int>)
    requires Weighed(trace, order, p, w) && Weighed(trace, order, q, v)
    requires forall i :: 0 <= i < |order| ==>
               p[order[i]].firstAt.None? == q[order[i]].firstAt.None? && w[order[i]] == v[order[i]]
    ensures QueuedSum(order, p, w) == QueuedSum(order, q, v)
    ensures PendingSum(trace, order, p) == PendingSum(trace, order, q)
  {
    if order != [] { SumsFrame(trace, order[..|order| - 1], p, q, w, v); }
  }

  /** The sums split at any position. */
  lemma {:induction false} SumsSplit(trace: seq<Request>, order: seq<nat>, p: map<nat, Progress>, w: map<nat, int>, i: nat)
    requires Weighed(trace, order, p, w) && i < |order|
    ensures Weighed(trace, RemoveAt(order, i), p, w)
    ensures QueuedSum(order, p, w) ==
            QueuedSum(RemoveAt(order, i), p, w) + (if p[order[i]].firstAt.None? then w[order[i]] else 0)
    ensures PendingSum(trace, order, p) ==
            PendingSum(trace, RemoveAt(order, i), p)
            + (if p[order[i]].firstAt.None? then multiset(FullKeys(trace[order[i]])) else multiset{})
  {
    var n := |order| - 1;
    var rest := RemoveAt(order, i);
    if i == n {
      assert rest == order[..n];
    } else {
      SumsSplit(trace, order[..n], p, w, i);
      assert rest[..n - 1] == RemoveAt(order[..n], i);
      assert rest[n - 1] == order[n];
    }
  }

  // ---------------------------------------------------------------------------------------
  // Callbacks

  /** The `first` and `done` closures of simulate, applied to the calls of one step. */
  function Apply(trace: seq<Request>, w: map<nat, int>, c: Cell, calls: seq<Callback>): Cell
    requires forall k :: 0 <= k < |calls| && calls[k].First? ==> calls[k].rid in w && calls[k].rid < |trace|
  {
    if calls == [] then c
    else
      var n := |calls| - 1;
      var d := Apply(trace, w, c, calls[..n]);
      match calls[n]
      case First(r) => d.(queued := d.queued - w[r], pending := d.pending - multiset(FullKeys(trace[r])))
      case Done(r) => d.(bs := d.bs - 1)
  }

  ghost predicate CallsKnown(trace: seq<Request>, w: map<nat, int>, calls: seq<Callback>) {
    forall k :: 0 <= k < |calls| && calls[k].First? ==> calls[k].rid in w && calls[k].rid < |trace|
  }

  lemma {:induction false} ApplyConcat(trace: seq<Request>, w: map<nat, int>, c: Cell, a: seq<Callback>, b: seq<Callback>)
    requires CallsKnown(trace, w, a) && CallsKnown(trace, w, b)
    ensures CallsKnown(trace, w, a + b)
    ensures Apply(trace, w, c, a + b) == Apply(trace, w, Apply(trace, w, c, a), b)
  {
    if b == [] {
      assert a + b == a;
    } else {
      var n := |b| - 1;
      ApplyConcat(trace, w, c, a, b[..n]);
      assert (a + b)[..|a + b| - 1] == a + b[..n];
    }
  }

  /** The counters agree with the engine's queues. */
  ghost predicate Counts(trace: seq<Request>, w: map<nat, int>, e: EngineState, c: Cell) {
    && Weighed(trace, Order(e), e.prog, w)
    && c.bs == |Order(e)|
    && c.queued == QueuedSum(Order(e), e.prog, w)
    && c.pending == PendingSum(trace, Order(e), e.prog)
  }

  /** Serving the request at position `off` takes its tokens and keys out of the sums with its first token. */
  lemma SumsServed(trace: seq<Request>, order: seq<nat>, p: map<nat, Progress>, q: map<nat, Progress>, w: map<nat, int>,
                   off: nat, leaves: bool)
    requires Weighed(trace, order, p, w) && Weighed(trace, order, q, w) && Distinct(order) && off < |order|
    requires forall y :: y in p && y != order[off] ==> y in q && q[y] == p[y]
    requires p[order[off]].firstAt.Some? || leaves ==> q[order[off]].firstAt.Some?
    ensures var rest, x := if leaves then RemoveAt(order, off) else order, order[off];
            var first := p[x].firstAt.None? && q[x].firstAt.Some?;
            && Weighed(trace, rest, q, w)
            && QueuedSum(rest, q, w) == QueuedSum(order, p, w) - (if first then w[x] else 0)
            && PendingSum(trace, rest, q) ==
                 PendingSum(trace, order, p) - (if first then multiset(FullKeys(trace[x])) else multiset{})
  {
    hide QueuedSum, PendingSum;
    SumsSplit(trace, order, p, w, off);
    SumsSplit(trace, order, q, w, off);
    RemoveAtDistinct(order, off);
    var rest := RemoveAt(order, off);
    assert forall i :: 0 <= i < |rest| ==> rest[i] in rest && rest[i] != order[off];
    SumsFrame(trace, rest, p, q, w, w);
    hide RemoveAt;
  }

  lemma ServedWeighed(trace: seq<Request>, w: map<nat, int>, s: EngineState, o: Outcome, ch: Chunk,
                      completes: bool, leaves: bool, now: int)
    requires ServedRecord(s, o, ch, completes, leaves, now) && Weighed(trace, Order(s), s.prog, w)
    ensures Weighed(trace, Order(s), o.s.prog, w)
  {
    hide Order;
    assert forall i :: 0 <= i < |Order(s)| ==> Order(s)[i] in s.prog.Keys;
  }

  function Calls(x: nat, first: bool, done: bool): seq<Callback> {
    (if first then [First(x)] else []) + (if done then [Done(x)] else [])
  }

  lemma ApplyFirst(trace: seq<Request>, w: map<nat, int>, c: Cell, x: nat, first: bool)
    requires x in w && x < |trace|
    ensures CallsKnown(trace, w, Calls(x, first, false))
    ensures Apply(trace, w, c, Calls(x, first, false)) ==
            c.(queued := c.queued - (if first then w[x] else 0),
               pending := c.pending - (if first then multiset(FullKeys(trace[x])) else multiset{}))
  {
    if first {
      assert Calls(x, first, false) == [First(x)] && [First(x)][..0] == [];
    } else {
      assert c.pending - multiset{} == c.pending;
    }
  }

  lemma ApplyDone(trace: seq<Request>, w: map<nat, int>, c: Cell, x: nat, done: bool)
    ensures CallsKnown(trace, w, Calls(x, false, done))
    ensures Apply(trace, w, c, Calls(x, false, done)) == c.(bs := c.bs - (if done then 1 else 0))
  {
    if done { assert Calls(x, false, done) == [Done(x)] && [Done(x)][..0] == []; }
  }

  lemma CallsSplit(x: nat, first: bool, done: bool)
    ensures Calls(x, first, done) == Calls(x, first, false) + Calls(x, false, done)
  {}

  lemma ApplyServed(trace: seq<Request>, w: map<nat, int>, c: Cell, x: nat, first: bool, done: bool)
    requires x in w && x < |trace|
    ensures CallsKnown(trace, w, Calls(x, first, done))
    ensures Apply(trace, w, c, Calls(x, first, done)) ==
            c.(queued := c.queued - (if first then w[x] else 0),
               pending := c.pending - (if first then multiset(FullKeys(trace[x])) else multiset{}),
               bs := c.bs - (if done then 1 else 0))
  {
    hide Calls, Apply, CallsKnown, FullKeys;
    var a, b := Calls(x, first, false), Calls(x, false, done);
    CallsSplit(x, first, done);
    ApplyFirst(trace, w, c, x, first);
    ApplyDone(trace, w, Apply(trace, w, c, a), x, done);
    ApplyConcat(trace, w, c, a, b);
  }

  lemma ServedCalls(s: EngineState, o: Outcome, ch: Chunk, completes: bool, leaves: bool, now: int)
    requires ServedRecord(s, o, ch, completes, leaves, now)
    ensures ch.rid in s.prog && ch.rid in o.s.prog
    ensures var first := s.prog[ch.rid].firstAt.None? && o.s.prog[ch.rid].firstAt.Some?;
            o.calls == Calls(ch.rid, first, leaves)
    ensures s.prog[ch.rid].firstAt.Some? || leaves ==> o.s.prog[ch.rid].firstAt.Some?
    ensures forall y :: y in s.prog && y != ch.rid ==> y in o.s.prog && o.s.prog[y] == s.prog[y]
  {
  }

  /** The counters after a chunk that does or does not bring a first token and a completion. */
  lemma CountsAfter(trace: seq<Request>, w: map<nat, int>, s: EngineState, t: EngineState, off: nat, first: bool,
                    leaves: bool, c: Cell)
    requires off < |Order(s)| && Weighed(trace, Order(s), s.prog, w)
    requires Counts(trace, w, s, c) && Weighed(trace, Order(t), t.prog, w)
    requires |Order(t)| == |Order(s)| - (if leaves then 1 else 0)
    requires var x := Order(s)[off];
             && QueuedSum(Order(t), t.prog, w) == QueuedSum(Order(s), s.prog, w) - (if first then w[x] else 0)
             && PendingSum(trace, Order(t), t.prog) ==
                  PendingSum(trace, Order(s), s.prog) - (if first then multiset(FullKeys(trace[x])) else multiset{})
    ensures var x := Order(s)[off];
            CallsKnown(trace, w, Calls(x, first, leaves)) && Counts(trace, w, t, Apply(trace, w, c, Calls(x, first, leaves)))
  {
    hide Order, QueuedSum, PendingSum, Calls;
    ApplyServed(trace, w, c, Order(s)[off], first, leaves);
  }

  /** The counter changes of one served chunk match what happened to its request. */
  lemma ServedCounts(trace: seq<Request>, w: map<nat, int>, s: EngineState, o: Outcome, ch: Chunk, off: nat,
                     completes: bool, leaves: bool, now: int, c: Cell)
    requires ServedRecord(s, o, ch, completes, leaves, now) && off < |Order(s)| && Order(s)[off] == ch.rid
    requires Distinct(Order(s)) && Order(o.s) == (if leaves then RemoveAt(Order(s), off) else Order(s))
    requires Counts(trace, w, s, c)
    ensures CallsKnown(trace, w, o.calls) && Counts(trace, w, o.s, Apply(trace, w, c, o.calls))
  {
    ServedWeighed(trace, w, s, o, ch, completes, leaves, now);
    ServedCalls(s, o, ch, completes, leaves, now);
    hide Order, QueuedSum, PendingSum, Distinct, ServedRecord, Calls, Apply, CallsKnown;
    SumsServed(trace, Order(s), s.prog, o.s.prog, w, off, leaves);
    CountsAfter(trace, w, s, o.s, off, s.prog[ch.rid].firstAt.None? && o.s.prog[ch.rid].firstAt.Some?, leaves, c);
  }

  lemma OneCounts(trace: seq<Request>, cfg: Config, w: map<nat, int>, s: EngineState, off: nat,
                  plan: seq<Chunk>, now: int, c: Cell)
    requires Pending(trace, cfg, s, off, plan) && Counts(trace, w, s, c)
    ensures var o := Served(trace, cfg, s, off, plan, now);
            CallsKnown(trace, w, o.calls) && Counts(trace, w, o.s, Apply(trace, w, c, o.calls))
  {
    PendingPosition(trace, cfg, s, off, plan);
    DoneFirst(trace, cfg, s, off, plan);
    hide Inv, Usable, Served, Pending, Counts, Apply, CallsKnown, ServedRecord, Order, Distinct, Completes, Leaves;
    ServedStep(trace, cfg, s, off, plan, now);
    ServedCounts(trace, w, s, Served(trace, cfg, s, off, plan, now), plan[0], off,
                 Completes(trace, cfg, s, off, plan), Leaves(trace, cfg, s, off, plan), now, c);
  }

  lemma {:induction false} FinishLoopCounts(trace: seq<Request>, cfg: Config, w: map<nat, int>, s: EngineState, off: nat,
                                            plan: seq<Chunk>, now: int, c: Cell)
    requires Usable(trace, cfg) && Inv(trace, cfg, s, off, plan) && Counts(trace, w, s, c)
    ensures var o := FinishLoop(trace, cfg, s, off, plan, now);
            CallsKnown(trace, w, o.calls) && Counts(trace, w, o.s, Apply(trace, w, c, o.calls))
    decreases |plan|
  {
    hide Inv, Usable, Served, NextOff, Counts;
    if plan != [] {
      assert Pending(trace, cfg, s, off, plan);
      hide Pending, Apply, CallsKnown, FinishLoop;
      FinishLoopStep(trace, cfg, s, off, plan, now);
      OneCounts(trace, cfg, w, s, off, plan, now, c);
      var o, next := Served(trace, cfg, s, off, plan, now), NextOff(trace, cfg, s, off, plan);
      FinishLoopCounts(trace, cfg, w, o.s, next, plan[1..], now, Apply(trace, w, c, o.calls));
      ApplyConcat(trace, w, c, o.calls, FinishLoop(trace, cfg, o.s, next, plan[1..], now).calls);
    } else {
      assert Apply(trace, w, c, []) == c;
    }
  }

  // ---------------------------------------------------------------------------------------
  // The cell's own operations

  /** Everything simulate relies on for one instance. */
  ghost predicate CellInv(trace: seq<Request>, cfg: Config, w: map<nat, int>, c: Cell) {
    && Usable(trace, cfg) && Inv(trace, cfg, c.e, 0, c.flight) && Credited(trace, c.e)
    && (c.flight == [] ==> Order(c.e) == [])
    && Counts(trace, w, c.e, c)
  }

  /** `start`: schedule the next step; the engine is busy as long as there is a plan. */
  function StartStep(trace: seq<Request>, cfg: Config, c: Cell): Cell
    requires Usable(trace, cfg) && Inv(trace, cfg, c.e, 0, [])
  {
    var t := Schedule(trace, cfg, c.e);
    c.(e := t.s, flight := t.plan)
  }

  /** Request `r` is queued and counted. */
  function Enqueue(trace: seq<Request>, c: Cell, r: nat, tokens: int): Cell
    requires r < |trace|
  {
    c.(e := Submit(c.e, r), bs := c.bs + 1, queued := c.queued + tokens,
       pending := c.pending + multiset(FullKeys(trace[r])))
  }

  /** Dispatch of request `r` to this instance with `tokens` new prompt tokens. */
  function Receive(trace: seq<Request>, cfg: Config, c: Cell, r: nat, tokens: int): Cell
    requires Usable(trace, cfg) && Inv(trace, cfg, c.e, 0, c.flight) && r < |trace| && r !in c.e.prog
  {
    SubmitInv(trace, cfg, c.e, 0, c.flight, r);
    var d := Enqueue(trace, c, r, tokens);
    if c.flight == [] then StartStep(trace, cfg, d) else d
  }

  /** The step in flight ends: finish_step with its callbacks, then the next step. */
  function EndStep(trace: seq<Request>, cfg: Config, w: map<nat, int>, c: Cell, now: int): Cell
    requires CellInv(trace, cfg, w, c)
  {
    FinishLoopCounts(trace, cfg, w, c.e, 0, c.flight, now, c);
    var o := FinishStep(trace, cfg, c.e, c.flight, now);
    StartStep(trace, cfg, Apply(trace, w, c, o.calls).(e := o.s))
  }

  /** What a step boundary has before the next step is started. */
  ghost predicate Ready(trace: seq<Request>, cfg: Config, w: map<nat, int>, c: Cell) {
    && Usable(trace, cfg) && Inv(trace, cfg, c.e, 0, []) && Credited(trace, c.e) && Counts(trace, w, c.e, c)
  }

  lemma CountsFrame(trace: seq<Request>, w: map<nat, int>, s: EngineState, t: EngineState, c: Cell)
    requires Counts(trace, w, s, c) && Order(t) == Order(s) && SameOutputs(s, t)
    ensures Counts(trace, w, t, c)
  {
    hide Order;
    assert forall i :: 0 <= i < |Order(s)| ==> Order(s)[i] in s.prog.Keys;
    SumsFrame(trace, Order(s), s.prog, t.prog, w, w);
  }

  lemma CountsCell(trace: seq<Request>, w: map<nat, int>, e: EngineState, c: Cell, d: Cell)
    requires Counts(trace, w, e, c) && d.bs == c.bs && d.queued == c.queued && d.pending == c.pending
    ensures Counts(trace, w, e, d)
  {
  }

  /** Starting a step keeps the counters and never idles with work to do. */
  lemma StartKeeps(trace: seq<Request>, cfg: Config, w: map<nat, int>, c: Cell)
    requires Ready(trace, cfg, w, c) && FitAlone(trace, cfg)
    ensures var d := StartStep(trace, cfg, c);
            && CellInv(trace, cfg, w, d) && (d.flight == [] <==> Order(c.e) == [])
            && Potential(trace, d.e) <= Potential(trace, c.e) && d.e.dispatched == c.e.dispatched
  {
    var t := Schedule(trace, cfg, c.e);
    ScheduleCredited(trace, cfg, c.e);
    ScheduleOutputs(trace, cfg, c.e);
    ScheduleKeepsPotential(trace, cfg, c.e);
    EmptyOrder(trace, cfg, t);
    hide Inv, Usable, Credited, Schedule, Potential, Counts, Order;
    CountsFrame(trace, w, c.e, t.s, c);
    CountsCell(trace, w, t.s, c, StartStep(trace, cfg, c));
    if Order(c.e) != [] { ScheduleServesHead(trace, cfg, c.e); }
  }

  lemma EmptyOrder(trace: seq<Request>, cfg: Config, t: Run)
    requires Inv(trace, cfg, t.s, 0, t.plan)
    ensures Order(t.s) == [] ==> t.plan == []
  {
    hide Owned, OwnKeys, Records;
  }

  lemma EndKeeps(trace: seq<Request>, cfg: Config, w: map<nat, int>, c: Cell, now: int)
    requires CellInv(trace, cfg, w, c) && FitAlone(trace, cfg) && c.flight != []
    ensures var d := EndStep(trace, cfg, w, c, now);
            && CellInv(trace, cfg, w, d) && Potential(trace, d.e) < Potential(trace, c.e)
            && d.e.dispatched == c.e.dispatched
  {
    var o := FinishStep(trace, cfg, c.e, c.flight, now);
    FinishLoopCounts(trace, cfg, w, c.e, 0, c.flight, now, c);
    FinishCredited(trace, cfg, c.e, c.flight, now);
    FinishLoopDrops(trace, cfg, c.e, 0, c.flight, now);
    FinishDispatched(trace, cfg, c.e, 0, c.flight, now);
    hide Inv, Usable, Credited, FinishLoop, Potential, Counts, Order, Apply, StartStep;
    var d := Apply(trace, w, c, o.calls).(e := o.s);
    CountsCell(trace, w, o.s, Apply(trace, w, c, o.calls), d);
    StartKeeps(trace, cfg, w, d);
  }

  lemma {:induction false} FinishDispatched(trace: seq<Request>, cfg: Config, s: EngineState, off: nat,
                                            plan: seq<Chunk>, now: int)
    requires Usable(trace, cfg) && Inv(trace, cfg, s, off, plan)
    ensures var t := FinishLoop(trace, cfg, s, off, plan, now).s;
            t.dispatched == s.dispatched && t.admitted == s.admitted
    decreases |plan|
  {
    if plan != [] {
      assert Pending(trace, cfg, s, off, plan);
      FinishLoopStep(trace, cfg, s, off, plan, now);
      ServedStep(trace, cfg, s, off, plan, now);
      hide Inv, Usable, Served, NextOff, FinishLoop;
      FinishDispatched(trace, cfg, Served(trace, cfg, s, off, plan, now).s, NextOff(trace, cfg, s, off, plan), plan[1..], now);
    }
  }

  lemma CountsSubmit(trace: seq<Request>, w: map<nat, int>, s: EngineState, c: Cell, r: nat, tokens: int)
    requires Counts(trace, w, s, c) && Order(Submit(s, r)) == Order(s) + [r] && r < |trace| && r !in s.prog
    requires s == c.e
    ensures Counts(trace, w[r := tokens], Submit(s, r), Enqueue(trace, c, r, tokens))
  {
    var order, t := Order(s), Submit(s, r);
    hide Order;
    SumsFrame(trace, order, s.prog, t.prog, w, w[r := tokens]);
    SumsAppend(trace, order, t.prog, w[r := tokens], r);
  }

  lemma SumsAppend(trace: seq<Request>, order: seq<nat>, p: map<nat, Progress>, w: map<nat, int>, r: nat)
    requires Weighed(trace, order, p, w) && r in p && r in w && r < |trace| && p[r].firstAt.None?
    ensures Weighed(trace, order + [r], p, w)
    ensures QueuedSum(order + [r], p, w) == QueuedSum(order, p, w) + w[r]
    ensures PendingSum(trace, order + [r], p) == PendingSum(trace, order, p) + multiset(FullKeys(trace[r]))
  {
    assert (order + [r])[..|order|] == order;
  }
}
