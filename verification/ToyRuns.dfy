/** Runs of the toy model: every legal order keeps the invariant, there is always a step, and runs end. */
module ToyRuns {
  import opened Common
  import opened ToyModel
  import opened ToyInvariant
  import opened ToyService
  import opened ToyTransition
  import opened ToyStep

  // ---------------------------------------------------------------------------------------
  // The invariant

  lemma InitialInv(inst: Instance)
    requires inst.Valid()
    ensures StateInv(inst, InitialState(inst))
  {}

  lemma TimedStep(r: Request, p: Progress, q: Progress, time: int, end: int)
    requires Timed(r, p, time) && Moved(p, q, time, end) && time < end && Scripted(r, p) && r.output != []
    requires p.admittedAt.None? && q.admittedAt.Some? ==> r.arrival <= time
    requires q.outputTimes != [] ==> q.admittedAt.Some?
    ensures Timed(r, q, end)
  {}

  lemma OutputsAdmitted(inst: Instance, w: Work)
    requires Core(inst, w)
    ensures |w.progress| == |inst.requests|
    ensures forall i :: 0 <= i < |w.progress| && w.progress[i].outputTimes != [] ==> w.progress[i].admittedAt.Some?
  {
    forall i | 0 <= i < |w.progress| && w.progress[i].outputTimes != [] ensures w.progress[i].admittedAt.Some? {
      assert Scripted(inst.requests[i], w.progress[i]);
    }
  }

  /** Service does not admit. */
  lemma UnchangedKeepsAdmission(inst: Instance, w: Work, after: seq<Progress>, i: nat, end: int)
    requires Planned(inst, w) && AllAdvanced(inst, w.progress, after, w.services, end) && i < |w.progress|
    ensures after[i].admittedAt == w.progress[i].admittedAt
  {
    if k :| 0 <= k < |w.services| && w.services[k].index == i {
      assert after[i] == Advanced(inst.requests[i], w.progress[i], w.services[k], end);
    } else {
      assert Unplanned(w.services, i);
    }
  }

  /** A newly admitted request had arrived. */
  lemma AdmittedArrived(inst: Instance, s: State, order: seq<nat>, i: nat)
    requires StateInv(inst, s) && Legal(inst, s, order) && i < |inst.requests| == |s.progress|
    ensures Below(s.running, |inst.requests|) && Below(order, |inst.requests|)
    ensures var t := Next(inst, s, order);
            |t.progress| == |s.progress| && (s.progress[i].admittedAt.None? && t.progress[i].admittedAt.Some? ==> inst.requests[i].arrival <= s.time)
  {
    hide Core, Batch, MaxCost, ServeAll, ReleaseAll, Scripted;
    ServedStep(inst, s, order);
    StepMoves(inst, s, order);
    var w := Batch(inst, s, order);
    var t := Next(inst, s, order);
    if w.services != [] && s.progress[i].admittedAt.None? && t.progress[i].admittedAt.Some? {
      if i !in order {
        UnchangedKeepsAdmission(inst, w, t.progress, i, t.time);
        assert false;
      }
      assert Waits(inst, s, order[IndexOf(order, i)]);
    }
  }

  /** Every legal order keeps everything check_state asserts. */
  lemma StepInv(inst: Instance, s: State, order: seq<nat>)
    requires StateInv(inst, s) && Legal(inst, s, order)
    ensures Below(s.running, |inst.requests|) && Below(order, |inst.requests|)
    ensures StateInv(inst, Next(inst, s, order))
  {
    hide Core, Batch, MaxCost, ServeAll, ReleaseAll, Moved, Timed, Scripted, AllAdvanced, AllEntered, Planned;
    StateScripts(inst, s);
    ServedStep(inst, s, order);
    var w := Batch(inst, s, order);
    var t := Next(inst, s, order);
    if w.services == [] {
      OpenedCore(inst, Opened(inst, s), t);
      forall i | 0 <= i < |t.progress| ensures Timed(inst.requests[i], t.progress[i], t.time) {
        TimedLater(inst.requests[i], s.progress[i], s.time, t.time);
      }
    } else {
      StepMoves(inst, s, order);
      OutputsAdmitted(inst, Opened(inst, t));
      forall i | 0 <= i < |t.progress| ensures Timed(inst.requests[i], t.progress[i], t.time) {
        AdmittedArrived(inst, s, order, i);
        TimedStep(inst.requests[i], s.progress[i], t.progress[i], s.time, t.time);
      }
    }
  }

  lemma TimedLater(r: Request, p: Progress, time: int, later: int)
    requires Timed(r, p, time) && time <= later
    ensures Timed(r, p, later)
  {}

  // ---------------------------------------------------------------------------------------
  // Progress

  /** The assertion "No legal progress" is never reached: a batch without services means an idle jump is possible. */
  lemma NeverStuck(inst: Instance, s: State, order: seq<nat>)
    requires StateInv(inst, s) && Legal(inst, s, order) && !Finished(s)
    ensures Below(s.running, |inst.requests|) && Below(order, |inst.requests|) && |s.progress| == |inst.requests|
    ensures Batch(inst, s, order).services == [] ==> s.running == [] && order == [] && Future(inst, s) != {}
  {
    hide Core, Batch;
    BatchServes(inst, s, order);
    StateScripts(inst, s);
    if Batch(inst, s, order).services == [] {
      var i :| 0 <= i < |s.progress| && s.progress[i].completedAt.None?;
      assert s.progress[i].admittedAt.None? by {
        if s.progress[i].admittedAt.Some? {
          AdmittedRuns(inst, s, i);
          assert false;
        }
      }
      if inst.requests[i].arrival <= s.time {
        assert false;
      }
      assert inst.requests[i].arrival in Future(inst, s);
    }
  }

  lemma AdmittedRuns(inst: Instance, s: State, i: nat)
    requires StateInv(inst, s) && i < |s.progress| && s.progress[i].admittedAt.Some? && s.progress[i].completedAt.None?
    ensures i in s.running
  {}

  /** Tokens of one request still to be served. */
  function LeftOf(r: Request, p: Progress): int {
    |r.prompt| - p.prefillDone + |r.output| - |p.outputTimes|
  }

  function LeftUpTo(inst: Instance, progress: seq<Progress>, n: nat): int
    requires n <= |progress| == |inst.requests|
  {
    if n == 0 then 0 else LeftUpTo(inst, progress, n - 1) + LeftOf(inst.requests[n - 1], progress[n - 1])
  }

  /** Requests that have not arrived. */
  function LateUpTo(inst: Instance, time: int, n: nat): nat
    requires n <= |inst.requests|
  {
    if n == 0 then 0 else LateUpTo(inst, time, n - 1) + (if inst.requests[n - 1].arrival > time then 1 else 0)
  }

  /** Tokens to be served and arrivals to come: the events a run can still have. */
  function Remaining(inst: Instance, s: State): int
    requires |s.progress| == |inst.requests|
  {
    LeftUpTo(inst, s.progress, |inst.requests|) + LateUpTo(inst, s.time, |inst.requests|)
  }

  lemma {:induction false} LeftDrops(inst: Instance, p: seq<Progress>, q: seq<Progress>, n: nat, i: int)
    requires n <= |p| == |q| == |inst.requests|
    requires forall k :: 0 <= k < n ==> LeftOf(inst.requests[k], q[k]) <= LeftOf(inst.requests[k], p[k])
    requires 0 <= i < n ==> LeftOf(inst.requests[i], q[i]) < LeftOf(inst.requests[i], p[i])
    ensures LeftUpTo(inst, q, n) <= LeftUpTo(inst, p, n) - (if 0 <= i < n then 1 else 0)
  {
    if n > 0 { LeftDrops(inst, p, q, n - 1, i); }
  }

  lemma {:induction false} LateDrops(inst: Instance, time: int, later: int, n: nat, i: int)
    requires n <= |inst.requests| && time <= later
    requires 0 <= i < n ==> time < inst.requests[i].arrival <= later
    ensures LateUpTo(inst, later, n) <= LateUpTo(inst, time, n) - (if 0 <= i < n then 1 else 0)
  {
    if n > 0 { LateDrops(inst, time, later, n - 1, i); }
  }

  lemma {:induction false} LeftNonnegative(inst: Instance, p: seq<Progress>, n: nat)
    requires n <= |p| == |inst.requests|
    requires forall k :: 0 <= k < n ==> Scripted(inst.requests[k], p[k])
    ensures LeftUpTo(inst, p, n) >= 0
  {
    if n > 0 { LeftNonnegative(inst, p, n - 1); }
  }

  lemma RemainingNonnegative(inst: Instance, s: State)
    requires StateInv(inst, s)
    ensures |s.progress| == |inst.requests| && Remaining(inst, s) >= 0
  {
    StateScripts(inst, s);
    LeftNonnegative(inst, s.progress, |inst.requests|);
  }

  /** Each step of an unfinished workload serves a token or reaches an arrival. */
  lemma StepUsesRemaining(inst: Instance, s: State, order: seq<nat>)
    requires StateInv(inst, s) && Legal(inst, s, order) && !Finished(s)
    ensures Below(s.running, |inst.requests|) && Below(order, |inst.requests|)
    ensures var t := Next(inst, s, order);
            |s.progress| == |t.progress| == |inst.requests| && t.time > s.time && Remaining(inst, t) < Remaining(inst, s)
  {
    hide Core, Batch, MaxCost, ServeAll, ReleaseAll, Timed, Scripted;
    StateScripts(inst, s);
    ServedStep(inst, s, order);
    StepMoves(inst, s, order);
    NeverStuck(inst, s, order);
    var w := Batch(inst, s, order);
    var t := Next(inst, s, order);
    var n := |inst.requests|;
    if w.services == [] {
      var i :| 0 <= i < n && inst.requests[i].arrival == t.time;
      LateDrops(inst, s.time, t.time, n, i);
    } else {
      var v := w.services[0];
      assert t.progress[v.index] == Advanced(inst.requests[v.index], w.progress[v.index], v, t.time);
      assert Entered(s.progress[v.index], w.progress[v.index], s.time);
      LeftDrops(inst, s.progress, t.progress, n, v.index);
      LateDrops(inst, s.time, t.time, n, -1);
    }
  }

  lemma UnfinishedRemains(inst: Instance, s: State)
    requires StateInv(inst, s) && !Finished(s)
    ensures |s.progress| == |inst.requests| && Remaining(inst, s) > 0
  {
    StateScripts(inst, s);
    LeftNonnegative(inst, s.progress, |inst.requests|);
    var i :| 0 <= i < |s.progress| && s.progress[i].completedAt.None?;
    assert Scripted(inst.requests[i], s.progress[i]) && LeftOf(inst.requests[i], s.progress[i]) > 0;
    LeftPositive(inst, s.progress, |inst.requests|, i);
  }

  lemma {:induction false} LeftPositive(inst: Instance, p: seq<Progress>, n: nat, i: nat)
    requires i < n <= |p| == |inst.requests| && LeftOf(inst.requests[i], p[i]) > 0
    requires forall k :: 0 <= k < n ==> Scripted(inst.requests[k], p[k])
    ensures LeftUpTo(inst, p, n) > 0
  {
    if i < n - 1 {
      LeftPositive(inst, p, n - 1, i);
    } else {
      LeftNonnegative(inst, p, n - 1);
    }
  }

  // ---------------------------------------------------------------------------------------
  // Runs

  /** The actions are legal one after another from `s`, and none follows the end of the workload. */
  ghost predicate LegalRun(inst: Instance, s: State, actions: seq<seq<nat>>)
    requires StateInv(inst, s)
    decreases |actions|
  {
    actions == [] ||
    (|s.progress| == |inst.requests| && !Finished(s) && Legal(inst, s, actions[0])
     && (StepInv(inst, s, actions[0]); LegalRun(inst, Next(inst, s, actions[0]), actions[1..])))
  }

  ghost function Run(inst: Instance, s: State, actions: seq<seq<nat>>): (t: State)
    requires StateInv(inst, s) && LegalRun(inst, s, actions)
    ensures StateInv(inst, t)
    decreases |actions|
  {
    if actions == [] then s
    else
      StepInv(inst, s, actions[0]);
      Run(inst, Next(inst, s, actions[0]), actions[1..])
  }

  lemma {:induction false} RunAppend(inst: Instance, s: State, path: seq<seq<nat>>, order: seq<nat>)
    requires StateInv(inst, s) && LegalRun(inst, s, path)
    requires var t := Run(inst, s, path); |t.progress| == |inst.requests| && !Finished(t) && Legal(inst, t, order)
    ensures LegalRun(inst, s, path + [order])
    ensures Below(Run(inst, s, path).running, |inst.requests|) && Below(order, |inst.requests|)
    ensures Run(inst, s, path + [order]) == Next(inst, Run(inst, s, path), order)
    decreases |path|
  {
    hide StateInv, Finished, Legal, Next;
    var all := path + [order];
    if path == [] {
      StateScripts(inst, s);
      assert all == [order] && all[1..] == [];
      StepInv(inst, s, order);
      assert LegalRun(inst, Next(inst, s, order), []);
    } else {
      StateScripts(inst, s);
      StepInv(inst, s, path[0]);
      RunAppend(inst, Next(inst, s, path[0]), path[1..], order);
      assert all[0] == path[0] && all[1..] == path[1..] + [order];
    }
  }

  /** No run is longer than the tokens to serve and the arrivals to come. */
  lemma {:induction false} RunIsBounded(inst: Instance, s: State, actions: seq<seq<nat>>)
    requires StateInv(inst, s) && LegalRun(inst, s, actions)
    ensures |s.progress| == |inst.requests|
    ensures |actions| + Remaining(inst, Run(inst, s, actions)) <= Remaining(inst, s)
    ensures Remaining(inst, Run(inst, s, actions)) >= 0
    decreases |actions|
  {
    StateScripts(inst, s);
    if actions == [] {
      RemainingNonnegative(inst, s);
    } else {
      StepInv(inst, s, actions[0]);
      StepUsesRemaining(inst, s, actions[0]);
      RunIsBounded(inst, Next(inst, s, actions[0]), actions[1..]);
    }
  }

  /** Prompt and output tokens of all requests. */
  function TokensUpTo(inst: Instance, n: nat): nat
    requires n <= |inst.requests|
  {
    if n == 0 then 0 else TokensUpTo(inst, n - 1) + |inst.requests[n - 1].prompt| + |inst.requests[n - 1].output|
  }

  lemma {:induction false} InitialRemaining(inst: Instance, n: nat)
    requires n <= |inst.requests|
    ensures LeftUpTo(inst, InitialState(inst).progress, n) == TokensUpTo(inst, n)
    ensures LateUpTo(inst, 0, n) <= n
  {
    if n > 0 { InitialRemaining(inst, n - 1); }
  }

  /** replay's bound: a run from the start that is not finished has fewer events than all tokens plus the requests. */
  lemma ReplayBound(inst: Instance, actions: seq<seq<nat>>)
    requires StateInv(inst, InitialState(inst)) && LegalRun(inst, InitialState(inst), actions)
    ensures |actions| <= TokensUpTo(inst, |inst.requests|) + |inst.requests|
    ensures !Finished(Run(inst, InitialState(inst), actions)) ==> |actions| < TokensUpTo(inst, |inst.requests|) + |inst.requests|
  {
    hide Finished, Next, StateInv;
    RunIsBounded(inst, InitialState(inst), actions);
    var t := Run(inst, InitialState(inst), actions);
    if !Finished(t) { UnfinishedRemains(inst, t); }
    InitialRemaining(inst, |inst.requests|);
  }
}
