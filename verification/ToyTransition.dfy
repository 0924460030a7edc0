/** One step of the toy model from any reachable state with any legal waiting order. */
module ToyTransition {
  import opened Common
  import opened ToyModel
  import opened ToyInvariant
  import opened ToyService

  // ---------------------------------------------------------------------------------------
  // The state invariant

  /** Times follow the clock: admission after arrival, outputs strictly later one after another, none in the future. */
  ghost predicate Timed(r: Request, p: Progress, time: int) {
    && (p.admittedAt.Some? ==> r.arrival <= p.admittedAt.value <= time)
    && (forall a, b :: 0 <= a < b < |p.outputTimes| ==> p.outputTimes[a] < p.outputTimes[b])
    && (p.outputTimes != [] ==> p.admittedAt.Some? && p.admittedAt.value < p.outputTimes[0])
    && (forall a :: 0 <= a < |p.outputTimes| ==> p.outputTimes[a] <= time)
    && (p.completedAt.Some? ==> p.outputTimes != [] && p.completedAt.value == p.outputTimes[|p.outputTimes| - 1])
  }

  ghost predicate AllTimed(inst: Instance, progress: seq<Progress>, time: int)
    requires |progress| == |inst.requests|
  {
    forall i :: 0 <= i < |progress| ==> Timed(inst.requests[i], progress[i], time)
  }

  ghost predicate NoneComplete(progress: seq<Progress>, running: seq<nat>) {
    Below(running, |progress|) && forall k :: 0 <= k < |running| ==> progress[running[k]].completedAt.None?
  }

  /** The locals transition starts with. */
  function Opened(inst: Instance, s: State): Work
    requires inst.Valid()
  {
    Work(s.progress, s.running, s.blocks, s.clock, s.nextId, inst.tokenBudget, [])
  }

  /** Everything check_state asserts, and what makes it inductive. */
  ghost predicate StateInv(inst: Instance, s: State) {
    && inst.Valid() && Core(inst, Opened(inst, s))
    && NoneComplete(s.progress, s.running) && AllTimed(inst, s.progress, s.time)
  }

  // ---------------------------------------------------------------------------------------
  // Planning

  ghost predicate Unplanned(services: seq<Service>, i: nat) {
    forall k :: 0 <= k < |services| ==> services[k].index != i
  }

  /** The batch serves running requests, each at most once, with work that is due. */
  ghost predicate Planned(inst: Instance, w: Work) {
    && |w.progress| == |inst.requests|
    && (forall k :: 0 <= k < |w.services| ==>
          && w.services[k].index < |w.progress| && w.services[k].index in w.running
          && Due(inst.requests[w.services[k].index], w.progress[w.services[k].index], w.services[k]))
    && forall j, k :: 0 <= j < k < |w.services| ==> w.services[j].index != w.services[k].index
  }

  lemma PlanPlanned(inst: Instance, w: Work, i: nat)
    requires inst.Valid() && Planned(inst, w) && i < |w.progress| && i in w.running && Unplanned(w.services, i)
    requires w.progress[i].admittedAt.Some? && w.progress[i].completedAt.None? && Scripted(inst.requests[i], w.progress[i])
    ensures Planned(inst, Plan(inst, w, i))
    ensures w.budget > 0 ==> Plan(inst, w, i).services != []
    ensures forall j :: j != i && Unplanned(w.services, j) ==> Unplanned(Plan(inst, w, i).services, j)
  {}

  lemma {:induction false} PlanAllPlanned(inst: Instance, w: Work, todo: seq<nat>)
    requires inst.Valid() && Core(inst, w) && Planned(inst, w) && Below(todo, |w.progress|) && Distinct(todo)
    requires forall k :: 0 <= k < |todo| ==>
               && todo[k] in w.running && Unplanned(w.services, todo[k])
               && w.progress[todo[k]].admittedAt.Some? && w.progress[todo[k]].completedAt.None?
    ensures Planned(inst, PlanAll(inst, w, todo))
    ensures w.services != [] || (todo != [] && w.budget > 0) ==> PlanAll(inst, w, todo).services != []
    ensures forall j :: j !in todo && Unplanned(w.services, j) ==> Unplanned(PlanAll(inst, w, todo).services, j)
    decreases |todo|
  {
    if todo != [] {
      var v := Plan(inst, w, todo[0]);
      assert Scripted(inst.requests[todo[0]], w.progress[todo[0]]);
      PlanPlanned(inst, w, todo[0]);
      assert forall j :: j in todo[1..] ==> j in todo;
      PlanAllPlanned(inst, v, todo[1..]);
    }
  }

  // ---------------------------------------------------------------------------------------
  // Admission

  /** A record during planning: unchanged, or just admitted. */
  ghost predicate Entered(p: Progress, q: Progress, time: int) {
    q == p || (p == NotAdmitted && q.admittedAt == Some(time) && q.outputTimes == [] && q.completedAt.None?)
  }

  ghost predicate AllEntered(before: seq<Progress>, after: seq<Progress>, order: seq<nat>, time: int) {
    && |after| == |before|
    && forall i :: 0 <= i < |before| ==>
         Entered(before[i], after[i], time) && (i !in order ==> after[i] == before[i])
  }

  lemma AdmitPlanned(inst: Instance, time: int, w: Work, i: nat)
    requires inst.Valid() && i < |inst.requests| == |w.progress| && Planned(inst, w) && i !in w.running
    ensures Planned(inst, Admit(inst, time, w, i)) && Unplanned(w.services, i)
  {
    hide Hits, Evict, Reserve, Touch;
    var a := Admit(inst, time, w, i);
    forall k | 0 <= k < |a.services|
      ensures w.services[k].index != i && a.services[k].index in a.running
    {
      assert w.services[k].index in w.running;
    }
  }

  lemma FreshNotRunning(inst: Instance, w: Work, i: nat)
    requires Core(inst, w) && i < |w.progress| && w.progress[i].admittedAt.None?
    ensures i !in w.running
  {
    if k :| 0 <= k < |w.running| && w.running[k] == i { assert false; }
  }

  lemma AdmitOne(inst: Instance, time: int, w: Work, i: nat)
    requires inst.Valid() && Core(inst, w) && Planned(inst, w) && NoneComplete(w.progress, w.running)
    requires i < |inst.requests| == |w.progress| && w.progress[i].admittedAt.None? && w.budget > 0
    requires |w.running| < inst.maxSequences && Fits(inst, i, w.blocks)
    ensures var a := Plan(inst, Admit(inst, time, w, i), i);
            && Core(inst, a) && Planned(inst, a) && NoneComplete(a.progress, a.running) && a.services != []
            && AllEntered(w.progress, a.progress, [i], time)
  {
    hide Core, Planned, Fits, Hits, Evict, Reserve, Touch;
    var a := Admit(inst, time, w, i);
    assert w.progress[i] == NotAdmitted && Scripted(inst.requests[i], a.progress[i]) by { ScriptedParts(inst, time, w, i); }
    AdmitCore(inst, time, w, i);
    FreshNotRunning(inst, w, i);
    AdmitPlanned(inst, time, w, i);
    PlanPlanned(inst, a, i);
    PlanCore(inst, a, i);
  }

  lemma ScriptedParts(inst: Instance, time: int, w: Work, i: nat)
    requires inst.Valid() && Core(inst, w) && i < |inst.requests| == |w.progress| && w.progress[i].admittedAt.None?
    requires |w.running| < inst.maxSequences && Fits(inst, i, w.blocks)
    ensures w.progress[i] == NotAdmitted && Scripted(inst.requests[i], Admit(inst, time, w, i).progress[i])
  {
    hide Fits, Hits, Evict, Reserve, Touch;
    assert Scripted(inst.requests[i], w.progress[i]);
    AdmitCore(inst, time, w, i);
    assert Scripts(inst, Admit(inst, time, w, i).progress);
  }

  lemma PlanCore(inst: Instance, w: Work, i: nat)
    requires inst.Valid() && Core(inst, w) && i < |inst.requests| == |w.progress|
    ensures Core(inst, Plan(inst, w, i))
  {}

  lemma {:induction false} AdmitAllKeeps(inst: Instance, time: int, w: Work, order: seq<nat>)
    requires inst.Valid() && Core(inst, w) && Planned(inst, w) && NoneComplete(w.progress, w.running)
    requires Distinct(order) && Below(order, |w.progress|)
    requires forall k :: 0 <= k < |order| ==> w.progress[order[k]].admittedAt.None?
    ensures var r := AdmitAll(inst, time, w, order);
            && Core(inst, r) && Planned(inst, r) && NoneComplete(r.progress, r.running)
            && AllEntered(w.progress, r.progress, order, time) && (w.services != [] ==> r.services != [])
    decreases |order|
  {
    hide Fits, Core, Planned, NoneComplete, Hits, Evict, Reserve, Touch;
    assert |w.progress| == |inst.requests| && |w.running| <= inst.maxSequences by { CoreSizes(inst, w); }
    if order != [] && |w.running| != inst.maxSequences && w.budget > 0 && Fits(inst, order[0], w.blocks) {
      var a := Plan(inst, Admit(inst, time, w, order[0]), order[0]);
      AdmitOne(inst, time, w, order[0]);
      forall k | 0 <= k < |order[1..]| ensures a.progress[order[1..][k]].admittedAt.None? {
        assert order[1..][k] == order[k + 1] != order[0];
      }
      AdmitAllKeeps(inst, time, a, order[1..]);
      EnteredChain(w.progress, a.progress, AdmitAll(inst, time, w, order).progress, order, time);
    }
  }

  lemma CoreSizes(inst: Instance, w: Work)
    requires Core(inst, w)
    ensures |w.progress| == |inst.requests| && |w.running| <= inst.maxSequences && Below(w.running, |inst.requests|)
  {}

  lemma EnteredChain(p: seq<Progress>, q: seq<Progress>, r: seq<Progress>, order: seq<nat>, time: int)
    requires order != [] && AllEntered(p, q, [order[0]], time) && AllEntered(q, r, order[1..], time)
    ensures AllEntered(p, r, order, time)
  {
    forall i | 0 <= i < |p| ensures Entered(p[i], r[i], time) && (i !in order ==> r[i] == p[i]) {
      assert Entered(p[i], q[i], time) && Entered(q[i], r[i], time);
    }
  }

  // ---------------------------------------------------------------------------------------
  // There is always something to serve

  /** With nothing running, the first waiting request fits. */
  lemma FitsAlone(inst: Instance, w: Work, i: nat)
    requires inst.Valid() && Core(inst, w) && w.running == [] && i < |inst.requests|
    ensures Fits(inst, i, w.blocks)
  {
    var hits := Hits(inst.requests[i].prompt, w.blocks, 0);
    forall b | b in w.blocks ensures w.blocks[b].refs == {} {
      if j :| j in w.blocks[b].refs { assert false; }
    }
    assert Active(w.blocks) == {};
    ElementsLength(hits);
    assert Elements(hits) - Active(w.blocks) == Elements(hits);
  }

  /** A batch is empty only if nothing runs and nothing waits. */
  lemma BatchServes(inst: Instance, s: State, order: seq<nat>)
    requires StateInv(inst, s) && Legal(inst, s, order)
    ensures Below(s.running, |inst.requests|) && Below(order, |inst.requests|)
    ensures var w := Batch(inst, s, order);
            && Core(inst, w) && Planned(inst, w) && NoneComplete(w.progress, w.running)
            && AllEntered(s.progress, w.progress, order, s.time)
            && (s.running != [] || order != [] ==> w.services != [])
  {
    hide Core, AdmitAll, Scripted, Holds, Fits, Hits, Evict, Reserve, Touch;
    var w0 := Opened(inst, s);
    OpenedReady(inst, s);
    var w1 := PlanAll(inst, w0, s.running);
    PlanAllPlanned(inst, w0, s.running);
    PlanAllCore(inst, w0, w1);
    AdmitAllKeeps(inst, s.time, w1, order);
    if s.running == [] && order != [] { IdleAdmits(inst, s, w1, order); }
  }

  /** An idle engine admits the first request it is offered: it fits alone. */
  lemma IdleAdmits(inst: Instance, s: State, w: Work, order: seq<nat>)
    requires order != [] && Below(order, |inst.requests|) && Distinct(order)
    requires inst.Valid() && Core(inst, w) && Planned(inst, w) && NoneComplete(w.progress, w.running)
    requires w.running == [] && w.budget > 0 && |w.progress| == |inst.requests|
    requires forall k :: 0 <= k < |order| ==> w.progress[order[k]].admittedAt.None?
    ensures AdmitAll(inst, s.time, w, order).services != []
  {
    hide Core, AdmitAll, Scripted, Holds, Fits, Hits, Evict, Reserve, Touch;
    FitsAlone(inst, w, order[0]);
    AdmitOne(inst, s.time, w, order[0]);
    var a := Plan(inst, Admit(inst, s.time, w, order[0]), order[0]);
    forall k | 0 <= k < |order[1..]| ensures a.progress[order[1..][k]].admittedAt.None? {
      assert order[1..][k] == order[k + 1] != order[0];
    }
    AdmitAllKeeps(inst, s.time, a, order[1..]);
    AdmitAllFirst(inst, s.time, w, order);
  }

  lemma AdmitAllFirst(inst: Instance, time: int, w: Work, order: seq<nat>)
    requires inst.Valid() && |w.progress| == |inst.requests| && Below(order, |inst.requests|)
    requires order != [] && |w.running| < inst.maxSequences && w.budget > 0 && Fits(inst, order[0], w.blocks)
    ensures AdmitAll(inst, time, w, order) == AdmitAll(inst, time, Plan(inst, Admit(inst, time, w, order[0]), order[0]), order[1..])
  {}

  lemma OpenedReady(inst: Instance, s: State)
    requires StateInv(inst, s)
    ensures Below(s.running, |inst.requests|) && |s.progress| == |inst.requests| && Distinct(s.running)
    ensures Planned(inst, Opened(inst, s))
    ensures forall k :: 0 <= k < |s.running| ==>
              && s.running[k] in s.running && Unplanned([], s.running[k])
              && s.progress[s.running[k]].admittedAt.Some? && s.progress[s.running[k]].completedAt.None?
  {}

  lemma PlanAllCore(inst: Instance, w: Work, r: Work)
    requires Core(inst, w) && r == w.(budget := r.budget, services := r.services)
    ensures Core(inst, r)
  {}
}
