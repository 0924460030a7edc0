/** The search over victim choices: replaying ever longer scripts, it finds the best replay within the limits. */
module EvictionSearch {
  import opened Common
  import opened OrderedChoices
  import opened OutputGaps
  import opened EvictionModel
  import opened EvictionPool
  import opened EvictionRound
  import opened EvictionStep
  import opened EvictionIterate
  import opened EvictionReplay
  import opened EvictionBaseline
  import opened EvictionRun

  /** Sum of first-token latencies of the first `n` requests. */
  function LatencyUpTo(inst: Instance, w: World, n: nat): int
    requires n <= |w.progress| == |inst.requests|
    requires forall i :: 0 <= i < n ==> w.progress[i].outputs != []
  {
    if n == 0 then 0 else LatencyUpTo(inst, w, n - 1) + w.progress[n - 1].outputs[0] - inst.requests[n - 1].arrival
  }

  /** The objective is the sum of the first output times less the sum of the arrivals. */
  lemma {:induction false} LatencyMeans(inst: Instance, w: World, n: nat)
    requires n <= |w.progress| == |inst.requests|
    requires forall i :: 0 <= i < n ==> w.progress[i].outputs != []
    ensures LatencyUpTo(inst, w, n)
            == SumOf(seq(n, i requires 0 <= i < n => w.progress[i].outputs[0]))
               - SumOf(seq(n, i requires 0 <= i < n => inst.requests[i].arrival))
  {
    if n > 0 {
      LatencyMeans(inst, w, n - 1);
      var first := seq(n - 1, i requires 0 <= i < n - 1 => w.progress[i].outputs[0]);
      var arrivals := seq(n - 1, i requires 0 <= i < n - 1 => inst.requests[i].arrival);
      SumOfLast(first, w.progress[n - 1].outputs[0]);
      SumOfLast(arrivals, inst.requests[n - 1].arrival);
      assert seq(n, i requires 0 <= i < n => w.progress[i].outputs[0]) == first + [w.progress[n - 1].outputs[0]];
      assert seq(n, i requires 0 <= i < n => inst.requests[i].arrival) == arrivals + [inst.requests[n - 1].arrival];
    }
  }

  /** The end of a replay: everybody has answered. */
  ghost predicate Complete(inst: Instance, w: World) {
    |w.progress| == |inst.requests| && forall i :: 0 <= i < |w.progress| ==> w.progress[i].completed.Some? && w.progress[i].outputs != []
  }

  function Latency(inst: Instance, w: World): int
    requires Complete(inst, w)
  {
    LatencyUpTo(inst, w, |inst.requests|)
  }

  /** A victim script that runs to the end within the limits. */
  ghost predicate Feasible(inst: Instance, limits: seq<Limit>, script: seq<seq<nat>>)
    requires inst.Valid() && |limits| == |inst.requests|
  {
    FullReplay(inst, Some(script), Some(limits)).Ok?
  }

  lemma FeasibleComplete(inst: Instance, limits: seq<Limit>, script: seq<seq<nat>>)
    requires inst.Valid() && |limits| == |inst.requests|
    ensures var r := FullReplay(inst, Some(script), Some(limits));
            && FailsOutside(inst, r, Some(script), Some(limits)) && (r.Ok? ==> Complete(inst, r.value))
  {
    hide Inv, Start, Replay;
    StartInv(inst);
    StartLoad(inst);
    ReplaySound(inst, Start(inst), Some(script), Some(limits), 0);
    var r := FullReplay(inst, Some(script), Some(limits));
    if r.Ok? { FinishedRecords(inst, r.value); }
  }

  /** Nothing that extends `prefix` beats `bound`. */
  ghost predicate Covers(inst: Instance, limits: seq<Limit>, prefix: seq<seq<nat>>, bound: int)
    requires inst.Valid() && |limits| == |inst.requests|
  {
    forall script: seq<seq<nat>> :: prefix <= script && Feasible(inst, limits, script) ==>
      Complete(inst, FullReplay(inst, Some(script), Some(limits)).value)
      && bound <= Latency(inst, FullReplay(inst, Some(script), Some(limits)).value)
  }

  /** Every action of the prefix answers the choice that was open before it. */
  ghost predicate Answers(inst: Instance, limits: seq<Limit>, prefix: seq<seq<nat>>)
    requires inst.Valid() && |limits| == |inst.requests|
  {
    prefix == [] ||
    (var q, x := prefix[..|prefix| - 1], prefix[|prefix| - 1];
     var r := FullReplay(inst, Some(q), Some(limits));
     r.Choose? && LegalVictims(x, r.candidates, r.count))
  }

  /** A script whose actions all answer open choices is never a script error. */
  lemma AnswersLegal(inst: Instance, limits: seq<Limit>, prefix: seq<seq<nat>>)
    requires inst.Valid() && |limits| == |inst.requests| && Answers(inst, limits, prefix)
    ensures var r := FullReplay(inst, Some(prefix), Some(limits)); r.Fails? ==> r.why == Deadline || r.why == MissingCost
  {
    hide Inv, Start, Replay, LegalVictims;
    StartInv(inst);
    FeasibleComplete(inst, limits, prefix);
    StartUsed(inst);
    if prefix == [] {
      ReplayContinues(inst, Start(inst), Some(limits), 0, [], [], []);
    } else {
      var q, x := prefix[..|prefix| - 1], prefix[|prefix| - 1];
      assert prefix == q + [x];
      ReplayContinues(inst, Start(inst), Some(limits), 0, q, x, prefix);
    }
  }

  lemma StartUsed(inst: Instance)
    ensures Start(inst).used == []
  {}

  /** What a feasible extension of `prefix` looks like, given how the replay of `prefix` ends. */
  lemma FeasibleExtends(inst: Instance, limits: seq<Limit>, prefix: seq<seq<nat>>, script: seq<seq<nat>>)
    requires inst.Valid() && |limits| == |inst.requests| && prefix <= script && Feasible(inst, limits, script)
    ensures var r := FullReplay(inst, Some(prefix), Some(limits));
            && !r.Fails? && (r.Ok? ==> script == prefix)
            && (r.Choose? ==> |script| > |prefix| && LegalVictims(script[|prefix|], r.candidates, r.count))
  {
    hide Inv, Start, Replay, LegalVictims;
    StartInv(inst);
    StartUsed(inst);
    var more := script[|prefix|..];
    assert script == prefix + more;
    ReplayExtends(inst, Start(inst), Some(limits), 0, prefix, more);
  }

  /** A script that is finished covers its extensions: there are none. */
  lemma LeafCovers(inst: Instance, limits: seq<Limit>, prefix: seq<seq<nat>>, bound: int)
    requires inst.Valid() && |limits| == |inst.requests|
    requires var r := FullReplay(inst, Some(prefix), Some(limits)); !r.Choose? && (r.Ok? ==> Complete(inst, r.value) && bound <= Latency(inst, r.value))
    ensures Covers(inst, limits, prefix, bound)
  {
    hide FullReplay, Complete, Latency;
    forall script: seq<seq<nat>> | prefix <= script && Feasible(inst, limits, script)
      ensures Complete(inst, FullReplay(inst, Some(script), Some(limits)).value)
      ensures bound <= Latency(inst, FullReplay(inst, Some(script), Some(limits)).value)
    {
      FeasibleExtends(inst, limits, prefix, script);
    }
  }

  /** No script whose replay, left to run, keeps the limits has a smaller latency than `bound`. */
  ghost predicate Optimal(inst: Instance, limits: seq<Limit>, bound: int)
    requires inst.Valid() && |limits| == |inst.requests|
  {
    forall script: seq<seq<nat>> :: EndsWithin(inst, limits, script) ==>
      bound <= Latency(inst, FullReplay(inst, Some(script), None).value)
  }

  /** The unlimited replay of the script finishes, and its end keeps the limits. */
  ghost predicate EndsWithin(inst: Instance, limits: seq<Limit>, script: seq<seq<nat>>)
    requires inst.Valid() && |limits| == |inst.requests|
  {
    var r := FullReplay(inst, Some(script), None);
    r.Ok? && Complete(inst, r.value) && !Late(inst, r.value, limits)
  }

  lemma CoversOptimal(inst: Instance, limits: seq<Limit>, bound: int)
    requires inst.Valid() && |limits| == |inst.requests| && Covers(inst, limits, [], bound)
    ensures Optimal(inst, limits, bound)
  {
    hide FullReplay, Complete, Latency, Late;
    forall script: seq<seq<nat>> | EndsWithin(inst, limits, script)
      ensures bound <= Latency(inst, FullReplay(inst, Some(script), None).value)
    {
      PruningExact(inst, script, limits);
      assert [] <= script && Feasible(inst, limits, script);
    }
  }

  /** The branches of an open choice cover it. */
  lemma BranchesCover(inst: Instance, limits: seq<Limit>, prefix: seq<seq<nat>>, bound: int, branches: seq<seq<nat>>)
    requires inst.Valid() && |limits| == |inst.requests|
    requires var r := FullReplay(inst, Some(prefix), Some(limits)); r.Choose? && branches == Arrangements(r.candidates, r.count)
    requires forall k :: 0 <= k < |branches| ==> Covers(inst, limits, prefix + [branches[k]], bound)
    ensures Covers(inst, limits, prefix, bound)
  {
    hide FullReplay, Complete, Latency, Arrangements;
    var r := FullReplay(inst, Some(prefix), Some(limits));
    forall script: seq<seq<nat>> | prefix <= script && Feasible(inst, limits, script)
      ensures Complete(inst, FullReplay(inst, Some(script), Some(limits)).value)
      ensures bound <= Latency(inst, FullReplay(inst, Some(script), Some(limits)).value)
    {
      FeasibleExtends(inst, limits, prefix, script);
      var x := script[|prefix|];
      LegalArranges(x, r.candidates, r.count);
      ArrangementsComplete(r.candidates, r.count, x);
      var k :| 0 <= k < |branches| && branches[k] == x;
      assert script[..|prefix| + 1] == prefix + [x];
      assert prefix + [branches[k]] <= script;
      assert Covers(inst, limits, prefix + [branches[k]], bound);
    }
  }

  lemma LegalArranges(x: seq<nat>, candidates: seq<nat>, count: nat)
    ensures LegalVictims(x, candidates, count) <==> Arranges(x, candidates, count)
  {
    ElementsLength(x);
    if LegalVictims(x, candidates, count) {
      DistinctByCount(x);
      forall y | y in x ensures y in candidates { assert y in Elements(x); }
    }
  }

  lemma CoversBetter(inst: Instance, limits: seq<Limit>, prefix: seq<seq<nat>>, bound: int, better: int)
    requires inst.Valid() && |limits| == |inst.requests| && Covers(inst, limits, prefix, bound) && better <= bound
    ensures Covers(inst, limits, prefix, better)
  {
    hide FullReplay, Complete, Latency;
  }

  // ---------------------------------------------------------------------------------------
  // solve

  class Search {
    const inst: Instance
    const limits: seq<Limit>
    const maxNodes: nat
    const baseline: World
    var best: World
    var nodes: nat
    var pruned: nat
    var leaves: nat
    var exact: bool

    /** The incumbent is the replay of its own victims within the limits, and no worse than the baseline. */
    ghost predicate Valid()
      reads this
    {
      && inst.Valid() && |limits| == |inst.requests| && Complete(inst, baseline) && Complete(inst, best)
      && FullReplay(inst, Some(best.used), Some(limits)) == Ok(best)
      && Latency(inst, best) <= Latency(inst, baseline) && pruned + leaves <= nodes <= maxNodes
    }

    constructor (inst: Instance, limits: seq<Limit>, maxNodes: nat, baseline: World)
      requires inst.Valid() && |limits| == |inst.requests| && Complete(inst, baseline)
      requires FullReplay(inst, Some(baseline.used), Some(limits)) == Ok(baseline)
      ensures Valid() && this.inst == inst && this.limits == limits && this.maxNodes == maxNodes && this.baseline == baseline
      ensures best == baseline && exact && nodes == 0
    {
      this.inst, this.limits, this.maxNodes, this.baseline, this.best := inst, limits, maxNodes, baseline, baseline;
      nodes, pruned, leaves, exact := 0, 0, 0, true;
    }

    /** visit: one replay of the prefix, then every ordered choice of victims it leaves open. */
    method Visit(prefix: seq<seq<nat>>) returns (missing: bool)
      requires Valid() && Answers(inst, limits, prefix)
      modifies this
      ensures Valid() && Latency(inst, best) <= Latency(inst, old(best)) && (exact ==> old(exact)) && nodes >= old(nodes)
      ensures missing ==> inst.costTable.Some?
      ensures !missing && exact ==> Covers(inst, limits, prefix, Latency(inst, best))
      ensures old(exact) && !exact ==> nodes == maxNodes
      decreases maxNodes - nodes, 1
    {
      hide FullReplay, Complete, Latency, Covers, Answers;
      missing := false;
      if nodes >= maxNodes {
        exact := false;
        return;
      }
      nodes := nodes + 1;
      AnswersLegal(inst, limits, prefix);
      FeasibleComplete(inst, limits, prefix);
      var run := new Replayer(inst);
      var result := run.Run(Some(prefix), Some(limits));
      match result
      case Fails(why) =>
        if why == Deadline {
          pruned := pruned + 1;
          LeafCovers(inst, limits, prefix, Latency(inst, best));
        } else {
          missing := true;
        }
      case Choose(candidates, count) => missing := TryAll(prefix, candidates, count);
      case Ok(w) =>
        leaves := leaves + 1;
        if Latency(inst, w) < Latency(inst, best) {
          FinishedUsed(inst, limits, prefix);
          best := w;
        }
        LeafCovers(inst, limits, prefix, Latency(inst, best));
    }

    /** The loop over the ordered victim choices. */
    method TryAll(prefix: seq<seq<nat>>, candidates: seq<nat>, count: nat) returns (missing: bool)
      requires Valid() && pruned + leaves < nodes && FullReplay(inst, Some(prefix), Some(limits)) == Choose(candidates, count)
      modifies this
      ensures Valid() && Latency(inst, best) <= Latency(inst, old(best)) && (exact ==> old(exact)) && nodes >= old(nodes)
      ensures missing ==> inst.costTable.Some?
      ensures !missing && exact ==> Covers(inst, limits, prefix, Latency(inst, best))
      ensures old(exact) && !exact ==> nodes == maxNodes
      decreases maxNodes - nodes, 2
    {
      hide FullReplay, Complete, Latency, Covers, Arrangements;
      missing := false;
      FeasibleComplete(inst, limits, prefix);
      ArrangementsSound(candidates, count);
      var branches := Arrangements(candidates, count);
      ghost var start := nodes;
      var k := 0;
      while k < |branches|
        invariant 0 <= k <= |branches| && Valid() && nodes >= start && !missing
        invariant Latency(inst, best) <= Latency(inst, old(best)) && (exact ==> old(exact)) && (old(exact) ==> exact)
        invariant exact ==> forall j :: 0 <= j < k ==> Covers(inst, limits, prefix + [branches[j]], Latency(inst, best))
        decreases |branches| - k
      {
        BranchAnswers(inst, limits, prefix, candidates, count, branches[k]);
        ghost var bound := Latency(inst, best);
        missing := Visit(prefix + [branches[k]]);
        if missing { return; }
        if !exact { return; }
        forall j | 0 <= j < k ensures Covers(inst, limits, prefix + [branches[j]], Latency(inst, best)) {
          CoversBetter(inst, limits, prefix + [branches[j]], bound, Latency(inst, best));
        }
        k := k + 1;
      }
      if exact { BranchesCover(inst, limits, prefix, Latency(inst, best), branches); }
    }
  }

  lemma BranchAnswers(inst: Instance, limits: seq<Limit>, prefix: seq<seq<nat>>, candidates: seq<nat>, count: nat, x: seq<nat>)
    requires inst.Valid() && |limits| == |inst.requests|
    requires FullReplay(inst, Some(prefix), Some(limits)) == Choose(candidates, count) && Arranges(x, candidates, count)
    ensures Answers(inst, limits, prefix + [x])
  {
    hide FullReplay;
    LegalArranges(x, candidates, count);
    assert (prefix + [x])[..|prefix|] == prefix;
  }

  /** A finished replay has used its whole script. */
  lemma FinishedUsed(inst: Instance, limits: seq<Limit>, script: seq<seq<nat>>)
    requires inst.Valid() && |limits| == |inst.requests|
    ensures var r := FullReplay(inst, Some(script), Some(limits)); r.Ok? ==> r.value.used == script
  {
    hide Inv, Start, Replay;
    StartInv(inst);
    StartUsed(inst);
    ReplayUses(inst, Start(inst), script, limits, 0);
  }

  lemma {:induction false} ReplayUses(inst: Instance, w: World, script: seq<seq<nat>>, limits: seq<Limit>, steps: nat)
    requires Inv(inst, w) && |limits| == |inst.requests| && w.used <= script
    ensures var r := Replay(inst, w, Some(script), Some(limits), steps); r.Ok? ==> r.value.used == script
    decreases Measure(inst, w)
  {
    hide Inv, Iterate, Progressed, Finished;
    if Finished(w) {
      ReplayDone(inst, w, Some(script), Some(limits), steps);
    } else {
      ReplayNext(inst, w, Some(script), Some(limits), steps);
      IterateExtends(inst, w, Some(limits), script, []);
      var next := Iterate(inst, w, Some(script), Some(limits));
      if next.Ok? {
        MeasureDrops(inst, w, next.value);
        ReplayUses(inst, next.value, script, limits, steps + 1);
      }
    }
  }

  /**
   solve: the baseline is the stock policy. If the search stays exact, no victim script whose own replay, run to its end,
   keeps the baseline's limits has a smaller sum of first-token latencies. Only a missing cost entry can stop it.
   */
  method Solve(inst: Instance, maxNodes: nat) returns (result: Option<Search>)
    requires inst.Valid() && maxNodes > 0
    ensures result.None? ==> inst.costTable.Some?
    ensures result.Some? ==>
              && fresh(result.value) && result.value.Valid() && result.value.inst == inst
              && FullReplay(inst, None, None) == Ok(result.value.baseline)
              && Inv(inst, result.value.baseline) && Finished(result.value.baseline)
              && result.value.limits == LimitsFor(inst, result.value.baseline)
              && (result.value.exact ==> Optimal(inst, result.value.limits, Latency(inst, result.value.best)))
              && (!result.value.exact ==> result.value.nodes == maxNodes)
  {
    hide FullReplay, Latency, Covers, Inv, Finished, Optimal;
    BaselineFinishes(inst);
    var run := new Replayer(inst);
    var first := run.Run(None, None);
    if !first.Ok? { return None; }
    var baseline := first.value;
    BaselineReproduced(inst);
    var limits := LimitsFor(inst, baseline);
    var again := new Replayer(inst);
    var second := again.Run(Some(baseline.used), Some(limits));
    assert second == Ok(baseline);
    var search := new Search(inst, limits, maxNodes, baseline);
    var missing := search.Visit([]);
    if missing { return None; }
    if search.exact { CoversOptimal(inst, limits, Latency(inst, search.best)); }
    result := Some(search);
  }
}
