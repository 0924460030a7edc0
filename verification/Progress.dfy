/** A bound on the steps an engine needs: every round serves the head of the order, which is never preempted. */
module ProgressBound {
  import opened Common
  import opened BlockPool
  import opened Scheduling
  import opened ScheduleSteps
  import opened ScheduleLoops
  import opened ScheduleTheorems
  import opened FinishSteps
  import opened FinishLoops

  /** Tokens to compute for the given requests from scratch. */
  function Work(trace: seq<Request>, order: seq<nat>): (n: nat)
    requires Workable(trace, order)
    ensures order == [] ==> n == 0
  {
    if order == [] then 0 else Work(trace, order[..|order| - 1]) + Total(trace[order[|order| - 1]])
  }

  ghost predicate Workable(trace: seq<Request>, order: seq<nat>) {
    forall i :: 0 <= i < |order| ==> order[i] < |trace| && trace[order[i]].inputLen >= 1
  }

  /** The listed requests are known to the engine and to the trace. */
  ghost predicate Listed(trace: seq<Request>, order: seq<nat>, prog: map<nat, Progress>) {
    forall i :: 0 <= i < |order| ==>
      order[i] in prog && order[i] < |trace| && trace[order[i]].inputLen >= 1
  }

  /** Work of the listed requests, less what the first one has computed. */
  ghost function Left(trace: seq<Request>, order: seq<nat>, prog: map<nat, Progress>): int
    requires Listed(trace, order, prog)
  {
    if order == [] then 0 else Work(trace, order) - prog[order[0]].computed
  }

  /** Work left on an engine; it bounds the steps to come. */
  ghost function Potential(trace: seq<Request>, s: EngineState): int {
    if Listed(trace, Order(s), s.prog) then Left(trace, Order(s), s.prog) else 0
  }

  /** Everything in the order is a request of the trace with work left. */
  lemma OrderDefined(trace: seq<Request>, cfg: Config, s: EngineState, off: nat, plan: seq<Chunk>)
    requires Usable(trace, cfg) && Inv(trace, cfg, s, off, plan)
    ensures Defined(trace, s) && Distinct(Order(s)) && Listed(trace, Order(s), s.prog)
    ensures forall i :: 0 <= i < |Order(s)| ==>
              && s.prog[Order(s)[i]].computed < Total(trace[Order(s)[i]])
              && s.prog[Order(s)[i]].doneAt.None?
    ensures forall i :: 0 <= i < |s.running| ==> Order(s)[i] == s.running[i]
  {
    hide Owned, OwnKeys, Plans;
    forall i | 0 <= i < |Order(s)|
      ensures Order(s)[i] in s.prog && s.prog[Order(s)[i]].computed < Total(trace[Order(s)[i]])
    {
      if i >= |s.running| { assert Order(s)[i] == s.waiting[i - |s.running|]; }
    }
  }

  lemma WorkHead(trace: seq<Request>, order: seq<nat>)
    requires order != [] && Workable(trace, order)
    ensures Work(trace, order) >= Total(trace[order[0]])
  {
  }

  lemma WorkAppend(trace: seq<Request>, order: seq<nat>, x: nat)
    requires Workable(trace, order) && x < |trace| && trace[x].inputLen >= 1
    ensures Workable(trace, order + [x]) && Work(trace, order + [x]) == Work(trace, order) + Total(trace[x])
  {
    assert (order + [x])[..|order|] == order;
  }

  lemma RemoveWorkable(trace: seq<Request>, order: seq<nat>, i: nat)
    requires i < |order| && Workable(trace, order)
    ensures Workable(trace, RemoveAt(order, i)) && Workable(trace, order[..|order| - 1])
  {}

  lemma {:induction false} WorkRemove(trace: seq<Request>, order: seq<nat>, i: nat)
    requires i < |order| && Workable(trace, order)
    ensures Workable(trace, RemoveAt(order, i))
    ensures Work(trace, RemoveAt(order, i)) + Total(trace[order[i]]) == Work(trace, order)
  {
    hide Workable, Total;
    RemoveWorkable(trace, order, i);
    LastWorkable(trace, order);
    var n := |order| - 1;
    if i == n {
      assert RemoveAt(order, i) == order[..n];
    } else {
      WorkRemove(trace, order[..n], i);
      WorkAppend(trace, RemoveAt(order[..n], i), order[n]);
      RemoveInit(order, i);
    }
  }

  lemma LastWorkable(trace: seq<Request>, order: seq<nat>)
    requires order != [] && Workable(trace, order)
    ensures forall k :: 0 <= k < |order| ==> order[k] < |trace| && trace[order[k]].inputLen >= 1
  {}

  lemma RemoveInit(order: seq<nat>, i: nat)
    requires i < |order| - 1
    ensures RemoveAt(order, i) == RemoveAt(order[..|order| - 1], i) + [order[|order| - 1]]
  {}

  // ---------------------------------------------------------------------------------------
  // schedule keeps the potential, finish_step lowers it

  lemma ScheduleKeepsPotential(trace: seq<Request>, cfg: Config, s: EngineState)
    requires Usable(trace, cfg) && Inv(trace, cfg, s, 0, []) && FitAlone(trace, cfg)
    ensures var t := Schedule(trace, cfg, s);
            Potential(trace, t.s) <= Potential(trace, s)
  {
    hide Inv, Schedule, FitAlone, Usable, Distinct, Work, SameOutputs, Total, Order;
    var t := Schedule(trace, cfg, s);
    OrderDefined(trace, cfg, s, 0, []);
    OrderDefined(trace, cfg, t.s, 0, t.plan);
    if Order(s) != [] {
      ScheduleServesHead(trace, cfg, s);
      ScheduleOutputs(trace, cfg, s);
      assert Kept(s, t.s, t.plan[0].rid);
    }
  }

  /** Served by `Served`, whether the request stays or leaves. */
  lemma ServedStep(trace: seq<Request>, cfg: Config, s: EngineState, off: nat, plan: seq<Chunk>, now: int)
    requires Pending(trace, cfg, s, off, plan)
    ensures var o := Served(trace, cfg, s, off, plan, now);
            var completes := Completes(trace, cfg, s, off, plan);
            var leaves := Leaves(trace, cfg, s, off, plan);
            && off < |s.running| && plan[0].rid == s.running[off] && plan[0].rid in s.prog
            && ServedRecord(s, o, plan[0], completes, leaves, now)
            && (if leaves then Inv(trace, cfg, o.s, off, plan[1..]) && Order(o.s) == RemoveAt(Order(s), off)
                          && o.s.running == RemoveAt(s.running, off)
                else Inv(trace, cfg, o.s, off + 1, plan[1..]) && Order(o.s) == Order(s) && o.s.running == s.running)
            && (!completes ==> |plan| == 1)
  {
    PendingChunk(trace, cfg, s, off, plan);
    hide Inv, ServedRecord, Served;
    if Leaves(trace, cfg, s, off, plan) {
      ServedLeaves(trace, cfg, s, off, plan, now);
    } else if Completes(trace, cfg, s, off, plan) {
      ServedStays(trace, cfg, s, off, plan, now);
      assert ServedRecord(s, Served(trace, cfg, s, off, plan, now), plan[0], true, false, now);
      ServedOrder(trace, cfg, s, off, plan, now, true);
    } else {
      ServedIncomplete(trace, cfg, s, off, plan, now);
      ServedOrder(trace, cfg, s, off, plan, now, false);
    }
  }

  lemma ServedOrder(trace: seq<Request>, cfg: Config, s: EngineState, off: nat, plan: seq<Chunk>, now: int, completes: bool)
    requires Pending(trace, cfg, s, off, plan)
    requires var o := Served(trace, cfg, s, off, plan, now);
             o.s.running == s.running && ServedRecord(s, o, plan[0], completes, false, now)
    ensures Order(Served(trace, cfg, s, off, plan, now).s) == Order(s)
  {
    hide Inv, Served;
  }

  /** More computed tokens at position `off`. */
  lemma LeftStay(trace: seq<Request>, order: seq<nat>, p: map<nat, Progress>, q: map<nat, Progress>, off: nat, tokens: nat)
    requires Distinct(order) && Listed(trace, order, p) && Listed(trace, order, q) && off < |order|
    requires forall y :: y in p && y != order[off] ==> y in q && q[y] == p[y]
    requires q[order[off]].computed == p[order[off]].computed + tokens
    ensures Left(trace, order, q) == Left(trace, order, p) - (if off == 0 then tokens else 0)
  {
    hide Work;
  }

  /** The request at position `off` computes its last tokens and leaves. */
  lemma LeftLeave(trace: seq<Request>, order: seq<nat>, p: map<nat, Progress>, q: map<nat, Progress>, off: nat, tokens: nat)
    requires Distinct(order) && Listed(trace, order, p) && off < |order| && Listed(trace, RemoveAt(order, off), q)
    requires forall y :: y in p && y != order[off] ==> y in q && q[y] == p[y]
    requires p[order[off]].computed + tokens == Total(trace[order[off]])
    ensures Left(trace, RemoveAt(order, off), q) <= Left(trace, order, p) - (if off == 0 then tokens else 0)
  {
    var rest := RemoveAt(order, off);
    WorkRemove(trace, order, off);
    hide Work, Total;
    if off > 0 { assert rest[0] == order[0] != order[off]; }
  }

  lemma PotentialLeft(trace: seq<Request>, cfg: Config, s: EngineState, off: nat, plan: seq<Chunk>)
    requires Usable(trace, cfg) && Inv(trace, cfg, s, off, plan)
    ensures Listed(trace, Order(s), s.prog) && Distinct(Order(s))
    ensures Potential(trace, s) == Left(trace, Order(s), s.prog)
    ensures Potential(trace, s) >= 0 && (Potential(trace, s) == 0 <==> Order(s) == [])
  {
    OrderDefined(trace, cfg, s, off, plan);
    hide Inv;
    if Order(s) != [] { WorkHead(trace, Order(s)); }
  }

  lemma PendingPosition(trace: seq<Request>, cfg: Config, s: EngineState, off: nat, plan: seq<Chunk>)
    requires Pending(trace, cfg, s, off, plan)
    ensures Usable(trace, cfg) && Inv(trace, cfg, s, off, plan)
    ensures plan != [] && off < |Order(s)| && Order(s)[off] == plan[0].rid && plan[0].tokens >= 1
    ensures Leaves(trace, cfg, s, off, plan) ==>
              s.prog[plan[0].rid].computed + plan[0].tokens == Total(trace[plan[0].rid])
  {
    PendingChunk(trace, cfg, s, off, plan);
  }

  lemma StayDrops(trace: seq<Request>, cfg: Config, s: EngineState, off: nat, plan: seq<Chunk>, now: int)
    requires Pending(trace, cfg, s, off, plan) && !Leaves(trace, cfg, s, off, plan)
    ensures var t := Served(trace, cfg, s, off, plan, now).s;
            && Usable(trace, cfg) && Inv(trace, cfg, s, off, plan) && Inv(trace, cfg, t, off + 1, plan[1..])
            && Potential(trace, t) <=
                 Potential(trace, s) - (if off == 0 then 1 else 0)
  {
    hide Inv, Served, Order, Left, Potential, Pending, Leaves, Completes, Listed, Distinct;
    PendingPosition(trace, cfg, s, off, plan);
    ServedStep(trace, cfg, s, off, plan, now);
    var t := Served(trace, cfg, s, off, plan, now).s;
    PotentialLeft(trace, cfg, s, off, plan);
    PotentialLeft(trace, cfg, t, off + 1, plan[1..]);
    LeftStay(trace, Order(s), s.prog, t.prog, off, plan[0].tokens);
  }

  lemma LeaveDrops(trace: seq<Request>, cfg: Config, s: EngineState, off: nat, plan: seq<Chunk>, now: int)
    requires Pending(trace, cfg, s, off, plan) && Leaves(trace, cfg, s, off, plan)
    ensures var t := Served(trace, cfg, s, off, plan, now).s;
            && Usable(trace, cfg) && Inv(trace, cfg, s, off, plan) && Inv(trace, cfg, t, off, plan[1..])
            && Potential(trace, t) <=
                 Potential(trace, s) - (if off == 0 then 1 else 0)
  {
    hide Inv, Served, Order, Left, Potential, Pending, Leaves, Completes, Listed, Distinct, RemoveAt;
    PendingPosition(trace, cfg, s, off, plan);
    ServedStep(trace, cfg, s, off, plan, now);
    var t := Served(trace, cfg, s, off, plan, now).s;
    PotentialLeft(trace, cfg, s, off, plan);
    PotentialLeft(trace, cfg, t, off, plan[1..]);
    LeftLeave(trace, Order(s), s.prog, t.prog, off, plan[0].tokens);
  }

  lemma {:induction false} FinishLoopDrops(trace: seq<Request>, cfg: Config, s: EngineState, off: nat, plan: seq<Chunk>, now: int)
    requires Usable(trace, cfg) && Inv(trace, cfg, s, off, plan)
    ensures Potential(trace, FinishLoop(trace, cfg, s, off, plan, now).s) <=
              Potential(trace, s) - (if off == 0 && plan != [] then 1 else 0)
    decreases |plan|
  {
    if plan != [] {
      assert Pending(trace, cfg, s, off, plan);
      FinishLoopStep(trace, cfg, s, off, plan, now);
      hide Inv, Served, Potential, Leaves, Completes, Usable, FinishLoop;
      if Leaves(trace, cfg, s, off, plan) { LeaveDrops(trace, cfg, s, off, plan, now); }
      else { StayDrops(trace, cfg, s, off, plan, now); }
      FinishLoopDrops(trace, cfg, Served(trace, cfg, s, off, plan, now).s, NextOff(trace, cfg, s, off, plan), plan[1..], now);
    }
  }

  /**
   Every round of schedule and finish_step with unfinished work serves somebody and lowers the potential, in
   spite of preemptions: an engine drains within Potential(s) rounds, at most the total number of tokens.
   */
  lemma RoundLowersPotential(trace: seq<Request>, cfg: Config, s: EngineState, now: int)
    requires Usable(trace, cfg) && FitAlone(trace, cfg) && Inv(trace, cfg, s, 0, []) && Order(s) != []
    ensures var t := Schedule(trace, cfg, s);
            t.plan != []
            && Potential(trace, FinishStep(trace, cfg, t.s, t.plan, now).s) < Potential(trace, s)
  {
    var t := Schedule(trace, cfg, s);
    hide Inv, Schedule, FitAlone, Usable, Potential;
    ScheduleServesHead(trace, cfg, s);
    ScheduleKeepsPotential(trace, cfg, s);
    FinishLoopDrops(trace, cfg, t.s, 0, t.plan, now);
  }
}
