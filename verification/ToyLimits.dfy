/** The run-time check, the progress limits, and why a violated limit stays violated. */
module ToyLimits {
  import opened Common
  import opened ToyModel
  import opened ToyInvariant
  import opened ToyTransition
  import opened ToyStep
  import opened OutputGaps

  // ---------------------------------------------------------------------------------------
  // check_state

  /** What check_state asserts of one record. */
  ghost predicate CheckRecord(inst: Instance, s: State, i: nat)
    requires i < |s.progress| == |inst.requests|
  {
    var r, p := inst.requests[i], s.progress[i];
    && p.prefillDone <= |r.prompt| && |p.outputTimes| <= |r.output|
    && (forall a :: 0 < a < |p.outputTimes| ==> p.outputTimes[a - 1] < p.outputTimes[a])
    && if p.admittedAt.None? then p.blockIds == [] && p.outputTimes == [] && i !in s.running
       else
         && p.admittedAt.value >= r.arrival && |p.blockIds| == |r.prompt| + |r.output| && Distinct(p.blockIds)
         && if p.completedAt.Some? then
              i !in s.running && |p.outputTimes| == |r.output| > 0 && p.completedAt.value == p.outputTimes[|r.output| - 1]
            else i in s.running && Holds(r, i, p, s.blocks)
  }

  /** check_state, in the order of its assertions; block ids are unique because blocks are a map. */
  ghost predicate CheckState(inst: Instance, s: State) {
    && |s.blocks| <= inst.kvBlocks && |s.running| <= inst.maxSequences && Distinct(s.running)
    && |s.progress| == |inst.requests|
    && (forall i :: 0 <= i < |s.progress| ==> CheckRecord(inst, s, i))
    && forall b :: b in s.blocks ==>
         && (forall j :: j in s.blocks[b].refs ==> j in s.running && j < |s.progress| && b in s.progress[j].blockIds)
         && (s.blocks[b].refs == {} ==> s.blocks[b].computed)
  }

  /** The inductive invariant implies every run-time assertion. */
  lemma InvChecks(inst: Instance, s: State)
    requires StateInv(inst, s)
    ensures CheckState(inst, s)
  {
    forall i | 0 <= i < |s.progress| ensures CheckRecord(inst, s, i) { RecordChecks(inst, s, i); }
    forall b, j | b in s.blocks && j in s.blocks[b].refs
      ensures j in s.running && j < |s.progress| && b in s.progress[j].blockIds
    {
      assert Refers(s.progress, s.running, b, j);
    }
  }

  lemma RecordChecks(inst: Instance, s: State, i: nat)
    requires StateInv(inst, s) && i < |s.progress| == |inst.requests|
    ensures CheckRecord(inst, s, i)
  {
    hide Holds;
    var r, p := inst.requests[i], s.progress[i];
    assert Scripted(r, p) && Timed(r, p, s.time);
    if p.admittedAt.None? {
      FreshNotRunning(inst, Opened(inst, s), i);
    } else if p.completedAt.Some? {
      if k :| 0 <= k < |s.running| && s.running[k] == i { assert false; }
    } else {
      assert i in s.running;
      var k := IndexOf(s.running, i);
      assert Holds(inst.requests[s.running[k]], s.running[k], s.progress[s.running[k]], s.blocks);
    }
  }

  // ---------------------------------------------------------------------------------------
  // Limits

  datatype Limits = Limits(completion: seq<real>, duration: seq<real>, gap: seq<real>)

  function Larger(a: real, b: real): real {
    if a >= b then a else b
  }

  /** What a request may take, given what it took in the baseline. */
  function Allowed(inst: Instance, value: int): real {
    value as real + Larger((value * inst.slackPercent) as real / 100.0, inst.epsilon as real)
  }

  /** `x` is more than the slack above `value`: more than the percentage and more than the absolute tolerance. */
  predicate Over(inst: Instance, x: int, value: int) {
    100 * (x - value) > inst.slackPercent * value && x - value > inst.epsilon
  }

  lemma AllowedMeans(inst: Instance, x: int, value: int)
    ensures x as real > Allowed(inst, value) <==> Over(inst, x, value)
  {
    var p := value * inst.slackPercent;
    assert p == inst.slackPercent * value;
    assert (x - value) as real > p as real / 100.0 <==> 100 * (x - value) > p by {
      assert ((100 * (x - value)) as real) == 100.0 * ((x - value) as real);
    }
  }

  ghost predicate Sized(inst: Instance, limits: Limits) {
    |limits.completion| == |limits.duration| == |limits.gap| == |inst.requests|
  }

  /** progress_limits of a finished baseline. */
  function LimitsOf(inst: Instance, baseline: State): (limits: Limits)
    requires |baseline.progress| == |inst.requests| && Finished(baseline)
    requires forall i :: 0 <= i < |baseline.progress| ==> baseline.progress[i].outputTimes != []
    ensures Sized(inst, limits)
  {
    var n := |inst.requests|;
    Limits(seq(n, i requires 0 <= i < n =>
             inst.requests[i].arrival as real
             + Allowed(inst, baseline.progress[i].completedAt.value - inst.requests[i].arrival)),
           seq(n, i requires 0 <= i < n =>
             Allowed(inst, baseline.progress[i].completedAt.value - baseline.progress[i].outputTimes[0])),
           seq(n, i requires 0 <= i < n => Allowed(inst, Largest(Gaps(baseline.progress[i].outputTimes)))))
  }

  /** The three limits of one request: completion, decode duration, longest gap. */
  predicate Breaks(r: Request, p: Progress, time: int, completion: real, duration: real, gap: real) {
    || Completion(p.completedAt, time) as real > completion
    || (|r.output| > 1 && p.outputTimes != [] &&
        (|| (Completion(p.completedAt, time) - p.outputTimes[0]) as real > duration
         || Largest(OpenGaps(p.outputTimes, p.completedAt, time)) as real > gap))
  }

  /** violations is not empty. */
  predicate Violates(inst: Instance, s: State, limits: Limits)
    requires |s.progress| == |inst.requests| && Sized(inst, limits)
  {
    exists i | 0 <= i < |s.progress| ::
      Breaks(inst.requests[i], s.progress[i], s.time, limits.completion[i], limits.duration[i], limits.gap[i])
  }

  lemma FinishedOutputs(inst: Instance, s: State)
    requires StateInv(inst, s) && Finished(s)
    ensures |s.progress| == |inst.requests|
    ensures forall i :: 0 <= i < |s.progress| ==> s.progress[i].outputTimes != []
  {
    forall i | 0 <= i < |s.progress| ensures s.progress[i].outputTimes != [] {
      assert Timed(inst.requests[i], s.progress[i], s.time);
    }
  }

  /** Some gap between outputs, or since the last one while the request runs, is over the slack above `value`. */
  ghost predicate LongGap(inst: Instance, p: Progress, time: int, value: int) {
    || (exists k: nat :: k < |p.outputTimes| - 1 && Over(inst, GapAt(p.outputTimes, k), value))
    || (p.completedAt.None? && p.outputTimes != [] && Over(inst, time - p.outputTimes[|p.outputTimes| - 1], value))
  }

  /**
   A request with record `p` is behind its baseline record `b` by more than the slack: in completing since its
   arrival, in decoding since its first output, or in one gap between outputs. An open request is measured up to
   now, and the last two only count for more than one output.
   */
  ghost predicate Behind(inst: Instance, r: Request, b: Progress, p: Progress, time: int)
    requires b.completedAt.Some? && b.outputTimes != []
  {
    var done := if p.completedAt.Some? then p.completedAt.value else time;
    || Over(inst, done - r.arrival, b.completedAt.value - r.arrival)
    || (|r.output| > 1 && p.outputTimes != [] &&
        (|| Over(inst, done - p.outputTimes[0], b.completedAt.value - b.outputTimes[0])
         || LongGap(inst, p, time, Largest(Gaps(b.outputTimes)))))
  }

  ghost predicate SomeOver(inst: Instance, gaps: seq<int>, value: int) {
    exists k :: 0 <= k < |gaps| && Over(inst, gaps[k], value)
  }

  lemma LargestOver(inst: Instance, gaps: seq<int>, value: int)
    requires gaps != []
    ensures Largest(gaps) as real > Allowed(inst, value) <==> SomeOver(inst, gaps, value)
  {
    var m := Largest(gaps);
    var k :| 0 <= k < |gaps| && gaps[k] == m;
    hide Largest, Allowed, Over;
    AllowedMeans(inst, m, value);
    forall j | 0 <= j < |gaps| && Over(inst, gaps[j], value) ensures Over(inst, m, value) {
      OverGrows(inst, gaps[j], m, value);
    }
  }

  lemma OverGrows(inst: Instance, x: int, y: int, value: int)
    requires x <= y && Over(inst, x, value)
    ensures Over(inst, y, value)
  {
    assert 100 * (y - value) >= 100 * (x - value);
  }

  lemma GapsOver(inst: Instance, p: Progress, time: int, value: int)
    requires p.outputTimes != [] && (p.completedAt.Some? ==> |p.outputTimes| > 1)
    ensures var gaps := OpenGaps(p.outputTimes, p.completedAt, time);
            gaps != [] && (SomeOver(inst, gaps, value) <==> LongGap(inst, p, time, value))
  {
    hide Over, Gaps, GapAt;
    var gaps, n := OpenGaps(p.outputTimes, p.completedAt, time), |p.outputTimes|;
    GapsAre(p.outputTimes);
    assert forall k: nat :: k < n - 1 ==> gaps[k] == GapAt(p.outputTimes, k);
    if SomeOver(inst, gaps, value) {
      var k :| 0 <= k < |gaps| && Over(inst, gaps[k], value);
      if k < n - 1 { assert Over(inst, GapAt(p.outputTimes, k), value); }
    }
    if LongGap(inst, p, time, value) {
      if k: nat :| k < n - 1 && Over(inst, GapAt(p.outputTimes, k), value) {
        assert Over(inst, gaps[k], value);
      } else {
        assert Over(inst, gaps[n - 1], value);
      }
    }
  }

  lemma LimitsAt(inst: Instance, baseline: State, i: nat)
    requires i < |baseline.progress| == |inst.requests| && Finished(baseline)
    requires forall k :: 0 <= k < |baseline.progress| ==> baseline.progress[k].outputTimes != []
    ensures var limits, b, arrival := LimitsOf(inst, baseline), baseline.progress[i], inst.requests[i].arrival;
            && b.completedAt.Some?
            && limits.completion[i] == arrival as real + Allowed(inst, b.completedAt.value - arrival)
            && limits.duration[i] == Allowed(inst, b.completedAt.value - b.outputTimes[0])
            && limits.gap[i] == Allowed(inst, Largest(Gaps(b.outputTimes)))
  {
    hide Allowed, Largest, Gaps;
  }

  lemma CompleteOutputs(inst: Instance, s: State, i: nat)
    requires StateInv(inst, s) && i < |inst.requests| == |s.progress|
    ensures s.progress[i].completedAt.Some? ==> |s.progress[i].outputTimes| == |inst.requests[i].output|
  {
    assert Scripted(inst.requests[i], s.progress[i]);
  }

  lemma DurationsOver(inst: Instance, r: Request, b: Progress, p: Progress, time: int)
    requires b.completedAt.Some? && b.outputTimes != [] && p.outputTimes != [] && |r.output| > 1
    requires p.completedAt.Some? ==> |p.outputTimes| == |r.output|
    ensures (Completion(p.completedAt, time) - p.outputTimes[0]) as real > Allowed(inst, b.completedAt.value - b.outputTimes[0])
            <==> Over(inst, Completion(p.completedAt, time) - p.outputTimes[0], b.completedAt.value - b.outputTimes[0])
    ensures Largest(OpenGaps(p.outputTimes, p.completedAt, time)) as real > Allowed(inst, Largest(Gaps(b.outputTimes)))
            <==> LongGap(inst, p, time, Largest(Gaps(b.outputTimes)))
  {
    hide *;
    AllowedMeans(inst, Completion(p.completedAt, time) - p.outputTimes[0], b.completedAt.value - b.outputTimes[0]);
    GapsOver(inst, p, time, Largest(Gaps(b.outputTimes)));
    LargestOver(inst, OpenGaps(p.outputTimes, p.completedAt, time), Largest(Gaps(b.outputTimes)));
  }

  lemma RecordBehind(inst: Instance, r: Request, b: Progress, p: Progress, time: int, c: real, d: real, g: real)
    requires b.completedAt.Some? && b.outputTimes != [] && (p.completedAt.Some? ==> |p.outputTimes| == |r.output|)
    requires c == r.arrival as real + Allowed(inst, b.completedAt.value - r.arrival)
    requires d == Allowed(inst, b.completedAt.value - b.outputTimes[0]) && g == Allowed(inst, Largest(Gaps(b.outputTimes)))
    ensures Breaks(r, p, time, c, d, g) <==> Behind(inst, r, b, p, time)
  {
    hide Allowed, Over, Largest, Gaps, LongGap, OpenGaps;
    AllowedShift(inst, Completion(p.completedAt, time), r.arrival, b.completedAt.value - r.arrival);
    if |r.output| > 1 && p.outputTimes != [] { DurationsOver(inst, r, b, p, time); }
  }

  lemma AllowedShift(inst: Instance, x: int, from: int, value: int)
    ensures x as real > from as real + Allowed(inst, value) <==> Over(inst, x - from, value)
  {
    AllowedMeans(inst, x - from, value);
    assert (x - from) as real == x as real - from as real;
  }

  /** Every request of the state has an output and has completed. */
  ghost predicate Served(s: State) {
    forall i :: 0 <= i < |s.progress| ==> s.progress[i].outputTimes != [] && s.progress[i].completedAt.Some?
  }

  /** Some request of `s` is behind its record in the baseline. */
  ghost predicate AnyBehind(inst: Instance, baseline: State, s: State)
    requires |s.progress| == |baseline.progress| == |inst.requests| && Served(baseline)
  {
    exists i | 0 <= i < |inst.requests| :: Behind(inst, inst.requests[i], baseline.progress[i], s.progress[i], s.time)
  }

  lemma BehindAt(inst: Instance, baseline: State, s: State, i: nat)
    requires StateInv(inst, s) && Finished(baseline) && Served(baseline)
    requires i < |inst.requests| == |s.progress| == |baseline.progress|
    ensures var limits := LimitsOf(inst, baseline);
            Breaks(inst.requests[i], s.progress[i], s.time, limits.completion[i], limits.duration[i], limits.gap[i])
            <==> Behind(inst, inst.requests[i], baseline.progress[i], s.progress[i], s.time)
  {
    hide StateInv, Breaks, Behind, Finished, LimitsOf, Allowed, Largest, Gaps;
    CompleteOutputs(inst, s, i);
    LimitsAt(inst, baseline, i);
    var limits := LimitsOf(inst, baseline);
    RecordBehind(inst, inst.requests[i], baseline.progress[i], s.progress[i], s.time, limits.completion[i],
                 limits.duration[i], limits.gap[i]);
  }

  /** The limits of a baseline are violated exactly if some request is behind it by more than the slack. */
  lemma ViolatesMeans(inst: Instance, baseline: State, s: State)
    requires StateInv(inst, baseline) && Finished(baseline) && StateInv(inst, s)
    ensures |s.progress| == |baseline.progress| == |inst.requests| && Served(baseline)
    ensures Violates(inst, s, LimitsOf(inst, baseline)) <==> AnyBehind(inst, baseline, s)
  {
    BaselineServed(inst, baseline);
    StateScripts(inst, s);
    hide StateInv, Breaks, Behind, Finished, LimitsOf, Served, Instance.Valid;
    forall i | 0 <= i < |inst.requests|
      ensures var limits := LimitsOf(inst, baseline);
              Breaks(inst.requests[i], s.progress[i], s.time, limits.completion[i], limits.duration[i], limits.gap[i])
              <==> Behind(inst, inst.requests[i], baseline.progress[i], s.progress[i], s.time)
    {
      BehindAt(inst, baseline, s, i);
    }
  }

  lemma BaselineServed(inst: Instance, baseline: State)
    requires StateInv(inst, baseline) && Finished(baseline)
    ensures Served(baseline) && |baseline.progress| == |inst.requests|
    ensures forall i :: 0 <= i < |baseline.progress| ==> baseline.progress[i].outputTimes != []
  {
    FinishedOutputs(inst, baseline);
    hide StateInv;
  }

  lemma BreaksOn(r: Request, p: Progress, q: Progress, time: int, later: int, c: real, d: real, g: real)
    requires Moved(p, q, time, later) && time <= later
    requires Breaks(r, p, time, c, d, g)
    ensures Breaks(r, q, later, c, d, g)
  {
    hide Largest, OpenGaps;
    if |r.output| > 1 && p.outputTimes != [] { GapsGrow(p.outputTimes, p.completedAt, q.outputTimes, q.completedAt, time, later); }
  }

  /** Pruning is sound: a violation persists in every successor. */
  lemma ViolationPersists(inst: Instance, s: State, order: seq<nat>, limits: Limits)
    requires StateInv(inst, s) && Legal(inst, s, order) && Sized(inst, limits)
    ensures Below(s.running, |inst.requests|) && Below(order, |inst.requests|)
    ensures var t := Next(inst, s, order);
            |s.progress| == |t.progress| == |inst.requests| && (Violates(inst, s, limits) ==> Violates(inst, t, limits))
  {
    hide Breaks, Core, Batch, MaxCost, ServeAll, ReleaseAll, Moved, AllTimed;
    StateScripts(inst, s);
    StepMoves(inst, s, order);
    ServedStep(inst, s, order);
    var t := Next(inst, s, order);
    if Violates(inst, s, limits) {
      var i :| 0 <= i < |s.progress| &&
        Breaks(inst.requests[i], s.progress[i], s.time, limits.completion[i], limits.duration[i], limits.gap[i]);
      assert t.time >= s.time;
      BreaksOn(inst.requests[i], s.progress[i], t.progress[i], s.time, t.time,
               limits.completion[i], limits.duration[i], limits.gap[i]);
    }
  }

  lemma AllowsItself(inst: Instance, value: int)
    requires inst.Valid()
    ensures value as real <= Allowed(inst, value)
  {}

  /** A finished baseline meets the limits derived from it. */
  lemma BaselineMeets(inst: Instance, s: State)
    requires StateInv(inst, s) && Finished(s)
    ensures |s.progress| == |inst.requests|
    ensures forall i :: 0 <= i < |s.progress| ==> s.progress[i].outputTimes != []
    ensures !Violates(inst, s, LimitsOf(inst, s))
  {
    hide Core, Largest, Allowed, Gaps;
    FinishedOutputs(inst, s);
    var limits := LimitsOf(inst, s);
    forall i | 0 <= i < |s.progress|
      ensures !Breaks(inst.requests[i], s.progress[i], s.time, limits.completion[i], limits.duration[i], limits.gap[i])
    {
      var p := s.progress[i];
      assert OpenGaps(p.outputTimes, p.completedAt, s.time) == Gaps(p.outputTimes);
      AllowsItself(inst, p.completedAt.value - inst.requests[i].arrival);
      AllowsItself(inst, p.completedAt.value - p.outputTimes[0]);
      AllowsItself(inst, Largest(Gaps(p.outputTimes)));
    }
  }

  // ---------------------------------------------------------------------------------------
  // The objective

  /** Sum of first-token latencies of the first `n` requests. */
  function LatencyUpTo(inst: Instance, s: State, n: nat): int
    requires n <= |s.progress| == |inst.requests|
    requires forall i :: 0 <= i < n ==> s.progress[i].outputTimes != []
  {
    if n == 0 then 0
    else LatencyUpTo(inst, s, n - 1) + s.progress[n - 1].outputTimes[0] - inst.requests[n - 1].arrival
  }

  /** The objective is the sum of the first output times less the sum of the arrivals. */
  lemma {:induction false} LatencyMeans(inst: Instance, s: State, n: nat)
    requires n <= |s.progress| == |inst.requests|
    requires forall i :: 0 <= i < n ==> s.progress[i].outputTimes != []
    ensures LatencyUpTo(inst, s, n)
            == SumOf(seq(n, i requires 0 <= i < n => s.progress[i].outputTimes[0]))
               - SumOf(seq(n, i requires 0 <= i < n => inst.requests[i].arrival))
  {
    if n > 0 {
      LatencyMeans(inst, s, n - 1);
      var first := seq(n - 1, i requires 0 <= i < n - 1 => s.progress[i].outputTimes[0]);
      var arrivals := seq(n - 1, i requires 0 <= i < n - 1 => inst.requests[i].arrival);
      SumOfLast(first, s.progress[n - 1].outputTimes[0]);
      SumOfLast(arrivals, inst.requests[n - 1].arrival);
      assert seq(n, i requires 0 <= i < n => s.progress[i].outputTimes[0]) == first + [s.progress[n - 1].outputTimes[0]];
      assert seq(n, i requires 0 <= i < n => inst.requests[i].arrival) == arrivals + [inst.requests[n - 1].arrival];
    }
  }
}
