/**
 The exhaustive search over waiting orders: with the visited set and early pruning it still finds the best finish of
 all legal runs within the limits.
 */
module ToySearch {
  import opened Common
  import opened ToyModel
  import opened ToyInvariant
  import opened ToyTransition
  import opened ToyStep
  import opened ToyRuns
  import opened ToyLimits
  import opened ToyOrders
  import opened ToyStepper

  // ---------------------------------------------------------------------------------------
  // Runs of the search

  /** The first-token latency of a finished state. */
  function Objective(inst: Instance, s: State): int
    requires |s.progress| == |inst.requests|
    requires forall i :: 0 <= i < |s.progress| ==> s.progress[i].outputTimes != []
  {
    LatencyUpTo(inst, s, |inst.requests|)
  }

  /** A finished state of a run, within the limits. */
  ghost predicate Feasible(inst: Instance, limits: Limits, s: State) {
    && StateInv(inst, s) && |s.progress| == |inst.requests| && Finished(s) && Sized(inst, limits) && !Violates(inst, s, limits)
    && forall i :: 0 <= i < |s.progress| ==> s.progress[i].outputTimes != []
  }

  /** The state is handled: out of limits, or visited. */
  ghost predicate Handled(inst: Instance, limits: Limits, seen: set<State>, s: State)
    requires |s.progress| == |inst.requests| && Sized(inst, limits)
  {
    Violates(inst, s, limits) || s in seen
  }

  /** A visited state is settled: `bound` is no worse than its own finish, and all its successors are handled. */
  ghost predicate Settled(inst: Instance, limits: Limits, seen: set<State>, bound: int, s: State)
    requires Sized(inst, limits)
  {
    && StateInv(inst, s) && |s.progress| == |inst.requests| && Below(s.running, |inst.requests|)
    && (Feasible(inst, limits, s) ==> bound <= Objective(inst, s))
    && forall order :: !Finished(s) && Legal(inst, s, order) ==>
         && Below(order, |inst.requests|) && |Next(inst, s, order).progress| == |inst.requests|
         && Handled(inst, limits, seen, Next(inst, s, order))
  }

  ghost predicate AllSettled(inst: Instance, limits: Limits, seen: set<State>, open: set<State>, bound: int)
    requires Sized(inst, limits)
  {
    forall s :: s in seen && s !in open ==> Settled(inst, limits, seen, bound, s)
  }

  /** Seeing more and a better incumbent leave settled states settled. */
  lemma SettledGrows(inst: Instance, limits: Limits, seen: set<State>, more: set<State>, open: set<State>,
                     bound: int, better: int)
    requires Sized(inst, limits) && AllSettled(inst, limits, seen, open, bound) && seen <= more && better <= bound
    ensures forall s :: s in seen && s !in open ==> Settled(inst, limits, more, better, s)
  {
    hide StateInv, Feasible, Next, Legal, Finished, Violates;
    forall s | s in seen && s !in open ensures Settled(inst, limits, more, better, s) {
      assert Settled(inst, limits, seen, bound, s);
    }
  }

  /** Exhaustion: every feasible finish of a legal run was reached and compared. */
  lemma {:induction false} ExhaustedIsBest(inst: Instance, limits: Limits, seen: set<State>, bound: int, s: State,
                                           path: seq<seq<nat>>)
    requires Sized(inst, limits) && AllSettled(inst, limits, seen, {}, bound)
    requires StateInv(inst, s) && |s.progress| == |inst.requests| && Handled(inst, limits, seen, s)
    requires LegalRun(inst, s, path) && Feasible(inst, limits, Run(inst, s, path))
    ensures bound <= Objective(inst, Run(inst, s, path))
    decreases |path|
  {
    hide StateInv, Finished, Legal, Next, Violates;
    if Violates(inst, s, limits) {
      ViolatedRun(inst, limits, s, path);
      assert false;
    } else {
      assert Settled(inst, limits, seen, bound, s);
      if path != [] {
        StateScripts(inst, s);
        StepInv(inst, s, path[0]);
        ExhaustedIsBest(inst, limits, seen, bound, Next(inst, s, path[0]), path[1..]);
      }
    }
  }

  /** A run that breaks a limit never meets it again. */
  lemma {:induction false} ViolatedRun(inst: Instance, limits: Limits, s: State, path: seq<seq<nat>>)
    requires Sized(inst, limits) && StateInv(inst, s) && |s.progress| == |inst.requests| && Violates(inst, s, limits)
    requires LegalRun(inst, s, path)
    ensures var t := Run(inst, s, path); |t.progress| == |inst.requests| && Violates(inst, t, limits)
    decreases |path|
  {
    hide StateInv, Finished, Legal, Next, Violates;
    if path != [] {
      StateScripts(inst, s);
      StepInv(inst, s, path[0]);
      ViolationPersists(inst, s, path[0], limits);
      ViolatedRun(inst, limits, Next(inst, s, path[0]), path[1..]);
    }
  }

  lemma SettledGrowsIf(inst: Instance, limits: Limits, seen: set<State>, more: set<State>, open: set<State>,
                       bound: int, better: int, exact: bool)
    requires Sized(inst, limits) && seen <= more && better <= bound && (exact ==> AllSettled(inst, limits, seen, open, bound))
    ensures exact ==> forall s :: s in seen && s !in open ==> Settled(inst, limits, more, better, s)
  {
    if exact { SettledGrows(inst, limits, seen, more, open, bound, better); }
  }

  // ---------------------------------------------------------------------------------------
  // solve

  /** The first `k` orders were tried from `s`. */
  ghost predicate Tried(inst: Instance, limits: Limits, seen: set<State>, s: State, orders: seq<seq<nat>>, k: nat)
    requires inst.Valid() && |s.progress| == |inst.requests| && Below(s.running, |inst.requests|) && Sized(inst, limits)
    requires k <= |orders|
  {
    forall j :: 0 <= j < k ==>
      && Below(orders[j], |inst.requests|) && |Next(inst, s, orders[j]).progress| == |inst.requests|
      && Handled(inst, limits, seen, Next(inst, s, orders[j]))
  }

  lemma TriedGrows(inst: Instance, limits: Limits, seen: set<State>, more: set<State>, s: State, orders: seq<seq<nat>>, k: nat)
    requires inst.Valid() && |s.progress| == |inst.requests| && Below(s.running, |inst.requests|) && Sized(inst, limits)
    requires k <= |orders| && Tried(inst, limits, seen, s, orders, k) && seen <= more
    ensures Tried(inst, limits, more, s, orders, k)
  {
    hide Next, Violates;
  }

  /** A state all of whose permutations were tried is settled. */
  lemma TriedSettles(inst: Instance, limits: Limits, seen: set<State>, bound: int, s: State, orders: seq<seq<nat>>)
    requires StateInv(inst, s) && inst.Valid() && |s.progress| == |inst.requests| && Below(s.running, |inst.requests|)
    requires Sized(inst, limits) && !Finished(s)
    requires orders == Permutations(Eligible(inst, s)) && Tried(inst, limits, seen, s, orders, |orders|)
    ensures Settled(inst, limits, seen, bound, s)
  {
    hide StateInv, Next, Violates, Finished, Legal, Eligible, Permutations;
    forall order | Legal(inst, s, order)
      ensures Below(order, |inst.requests|) && |Next(inst, s, order).progress| == |inst.requests|
      ensures Handled(inst, limits, seen, Next(inst, s, order))
    {
      LegalOrders(inst, s, order);
      var j :| 0 <= j < |orders| && orders[j] == order;
    }
  }

  function FinishedOf(seen: set<State>): set<State> {
    set s | s in seen && Finished(s)
  }

  lemma NoneFinished()
    ensures |FinishedOf({})| == 0
  {
    assert FinishedOf({}) == {};
  }

  lemma FinishedNext(seen: set<State>, s: State)
    requires s !in seen
    ensures |FinishedOf(seen + {s})| == |FinishedOf(seen)| + (if Finished(s) then 1 else 0)
  {
    assert FinishedOf(seen + {s}) == FinishedOf(seen) + (if Finished(s) then {s} else {});
  }

  /** `best` is reached by `actions`, meets the limits and is no worse than the baseline. */
  ghost predicate Incumbent(inst: Instance, limits: Limits, baseline: State, best: State, actions: seq<seq<nat>>) {
    && inst.Valid() && Sized(inst, limits) && StateInv(inst, InitialState(inst))
    && LegalRun(inst, InitialState(inst), actions) && Run(inst, InitialState(inst), actions) == best
    && Feasible(inst, limits, baseline) && Feasible(inst, limits, best)
    && Objective(inst, best) <= Objective(inst, baseline)
  }

  class Search {
    const inst: Instance
    const limits: Limits
    const maxStates: nat
    const baseline: State
    var best: State
    var actions: seq<seq<nat>>
    var exact: bool
    var seen: set<State>
    var visited: nat
    var enumerated: nat
    var duplicates: nat
    var pruned: nat
    var completed: nat

    /** The incumbent is reached by its actions, meets the limits and is no worse than the baseline; counters count. */
    ghost predicate Valid()
      reads this
    {
      && Incumbent(inst, limits, baseline, best, actions)
      && visited == |seen| <= maxStates && completed == |FinishedOf(seen)|
    }

    /** The certificate: everything seen, but for the states still open, is settled by the incumbent. */
    ghost predicate Certified(open: set<State>)
      requires Valid()
      reads this
    {
      AllSettled(inst, limits, seen, open, Objective(inst, best))
    }

    constructor (inst: Instance, limits: Limits, maxStates: nat, baseline: State, actions: seq<seq<nat>>)
      requires Incumbent(inst, limits, baseline, baseline, actions)
      ensures Valid() && this.inst == inst && this.limits == limits && this.maxStates == maxStates && this.baseline == baseline
      ensures best == baseline && exact && seen == {} && enumerated == duplicates == pruned == 0
    {
      this.inst, this.limits, this.maxStates, this.baseline := inst, limits, maxStates, baseline;
      this.best, this.actions, this.exact, this.seen := baseline, actions, true, {};
      visited, enumerated, duplicates, pruned, completed := 0, 0, 0, 0, 0;
      new;
      NoneFinished();
      hide Incumbent;
    }

    /** A new state enters `seen`; it stays open until its orders are tried. */
    method Enter(s: State, ghost open: set<State>)
      requires Valid() && s !in seen && |seen| < maxStates
      requires exact ==> Certified(open)
      modifies this
      ensures Valid() && best == old(best) && actions == old(actions) && exact == old(exact)
      ensures seen == old(seen) + {s} && visited == old(visited) + 1
      ensures enumerated == old(enumerated) && duplicates == old(duplicates) && pruned == old(pruned)
      ensures exact ==> Certified(open + {s})
    {
      hide StateInv, LegalRun, Run, Finished, Violates, Settled, Objective, FinishedOf;
      SettledGrowsIf(inst, limits, seen, seen + {s}, open, Objective(inst, best), Objective(inst, best), exact);
      seen := seen + {s};
      visited := visited + 1;
      FinishedNext(old(seen), s);
      if Finished(s) { completed := completed + 1; }
    }

    /** A finished state within the limits is compared with the incumbent. */
    method Compare(s: State, path: seq<seq<nat>>, ghost open: set<State>)
      requires Valid() && Feasible(inst, limits, s) && s in seen && Below(s.running, |inst.requests|)
      requires LegalRun(inst, InitialState(inst), path) && Run(inst, InitialState(inst), path) == s
      requires exact ==> Certified(open + {s})
      modifies this`best, this`actions
      ensures Valid() && Objective(inst, best) <= Objective(inst, old(best)) && Objective(inst, best) <= Objective(inst, s)
      ensures exact ==> Certified(open)
    {
      hide StateInv, LegalRun, Run, Finished, Violates, Next;
      ghost var bound := Objective(inst, best);
      if Objective(inst, s) < Objective(inst, best) {
        best, actions := s, path;
      }
      SettledGrowsIf(inst, limits, seen, seen, open + {s}, bound, Objective(inst, best), exact);
    }

    /** visit: prune, skip, stop at the limit, or try every permutation of the waiting list. */
    method Visit(s: State, path: seq<seq<nat>>, ghost open: set<State>)
      requires Valid() && StateInv(inst, s) && |s.progress| == |inst.requests|
      requires LegalRun(inst, InitialState(inst), path) && Run(inst, InitialState(inst), path) == s
      requires exact ==> Certified(open) && visited + duplicates + pruned == enumerated
      modifies this
      ensures Valid() && old(seen) <= seen && Objective(inst, best) <= Objective(inst, old(best)) && (exact ==> old(exact))
      ensures exact ==> Certified(open) && Handled(inst, limits, seen, s) && visited + duplicates + pruned == enumerated + 1
      ensures old(exact) && !exact ==> visited + duplicates + pruned == enumerated && |seen| >= maxStates
      decreases Remaining(inst, s), 1
    {
      hide StateInv, LegalRun, Run, Finished, Violates, Next, Legal, Feasible;
      if !exact { return; }
      if Violates(inst, s, limits) {
        pruned := pruned + 1;
        return;
      }
      if s in seen {
        duplicates := duplicates + 1;
        return;
      }
      if |seen| >= maxStates {
        exact := false;
        return;
      }
      Enter(s, open);
      if Finished(s) {
        FinishedFeasible(inst, limits, s);
        Compare(s, path, open);
      } else {
        TryAll(s, path, open);
      }
    }

    /** The loop over all permutations of the waiting list. */
    method TryAll(s: State, path: seq<seq<nat>>, ghost open: set<State>)
      requires Valid() && StateInv(inst, s) && |s.progress| == |inst.requests| && !Finished(s)
      requires LegalRun(inst, InitialState(inst), path) && Run(inst, InitialState(inst), path) == s
      requires exact && s in seen && Certified(open + {s}) && visited + duplicates + pruned == enumerated + 1
      modifies this
      ensures Valid() && old(seen) <= seen && Objective(inst, best) <= Objective(inst, old(best))
      ensures exact ==> Certified(open) && visited + duplicates + pruned == enumerated + 1
      ensures !exact ==> visited + duplicates + pruned == enumerated && |seen| >= maxStates
      decreases Remaining(inst, s), 0
    {
      hide StateInv, LegalRun, Run, Finished, Violates, Next, Legal, Eligible, Permutations, Remaining, Handled,
           Settled;
      StateScripts(inst, s);
      RunningBelow(inst, s);
      RemainingNonnegative(inst, s);
      var orders := Permutations(Eligible(inst, s));
      var k := 0;
      while k < |orders|
        invariant 0 <= k <= |orders| && exact
        invariant Valid() && old(seen) <= seen && Objective(inst, best) <= Objective(inst, old(best))
        invariant Certified(open + {s}) && visited + duplicates + pruned == enumerated + 1
        invariant Tried(inst, limits, seen, s, orders, k)
        decreases |orders| - k
      {
        enumerated := enumerated + 1;
        LegalOrders(inst, s, orders[k]);
        StepUsesRemaining(inst, s, orders[k]);
        RunAppend(inst, InitialState(inst), path, orders[k]);
        var step := Transition(inst, s, orders[k]);
        ghost var before := seen;
        Visit(step.state, path + [orders[k]], open + {s});
        TriedGrows(inst, limits, before, seen, s, orders, k);
        if !exact { return; }
        k := k + 1;
      }
      TriedSettles(inst, limits, seen, Objective(inst, best), s, orders);
    }
  }

  lemma EmptyRun(inst: Instance, s: State)
    requires StateInv(inst, s)
    ensures LegalRun(inst, s, []) && Run(inst, s, []) == s
  {}

  lemma RunningBelow(inst: Instance, s: State)
    requires StateInv(inst, s)
    ensures Below(s.running, |inst.requests|)
  {}

  lemma FinishedFeasible(inst: Instance, limits: Limits, s: State)
    requires StateInv(inst, s) && Finished(s) && Sized(inst, limits) && |s.progress| == |inst.requests|
    requires !Violates(inst, s, limits)
    ensures Feasible(inst, limits, s) && Below(s.running, |inst.requests|)
  {
    FinishedOutputs(inst, s);
    RunningBelow(inst, s);
  }

  /** What first come, first served ends in. */
  ghost predicate IsStock(inst: Instance, s: State) {
    && StateInv(inst, InitialState(inst))
    && exists actions ::
         && LegalRun(inst, InitialState(inst), actions) && Stock(inst, InitialState(inst), actions)
         && Run(inst, InitialState(inst), actions) == s
  }

  lemma StockIs(inst: Instance, s: State, actions: seq<seq<nat>>)
    requires StateInv(inst, InitialState(inst)) && LegalRun(inst, InitialState(inst), actions)
    requires Stock(inst, InitialState(inst), actions) && Run(inst, InitialState(inst), actions) == s
    ensures IsStock(inst, s)
  {
    hide StateInv, LegalRun, Run, Stock;
  }

  /**
   solve: the baseline is first come first served. If the search stays exact, no legal run that meets the baseline's
   limits finishes with a smaller sum of first-token latencies.
   */
  method Solve(inst: Instance, maxStates: nat) returns (result: Search)
    requires inst.Valid() && maxStates > 0
    ensures fresh(result) && result.Valid() && result.inst == inst && result.maxStates == maxStates
    ensures |result.baseline.progress| == |inst.requests| && Finished(result.baseline) && IsStock(inst, result.baseline)
    ensures forall i :: 0 <= i < |inst.requests| ==> result.baseline.progress[i].outputTimes != []
    ensures result.limits == LimitsOf(inst, result.baseline)
    ensures result.exact ==> forall path ::
              LegalRun(inst, InitialState(inst), path) && Feasible(inst, result.limits, Run(inst, InitialState(inst), path)) ==>
              Objective(inst, result.best) <= Objective(inst, Run(inst, InitialState(inst), path))
    ensures result.exact ==> result.visited + result.duplicates + result.pruned == result.enumerated + 1
    ensures !result.exact ==> result.visited == maxStates
  {
    hide StateInv, LegalRun, Run, Finished, Violates, Next, Legal, Stock, IsStock;
    var baseline, actions := Replay(inst, None);
    StockIs(inst, baseline.value, actions);
    BaselineMeets(inst, baseline.value);
    var limits := LimitsOf(inst, baseline.value);
    StateScripts(inst, baseline.value);
    result := new Search(inst, limits, maxStates, baseline.value, actions);
    var s := InitialState(inst);
    StateScripts(inst, s);
    EmptyRun(inst, s);
    result.Visit(s, [], {});
    if result.exact {
      forall path | LegalRun(inst, s, path) && Feasible(inst, limits, Run(inst, s, path))
        ensures Objective(inst, result.best) <= Objective(inst, Run(inst, s, path))
      {
        ExhaustedIsBest(inst, limits, result.seen, Objective(inst, result.best), s, path);
      }
    }
  }
}
