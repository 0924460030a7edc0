/** The whole step: the invariant is kept, work is used up, and no request falls back. */
module ToyStep {
  import opened Common
  import opened ToyModel
  import opened ToyInvariant
  import opened ToyService
  import opened ToyTransition

  // ---------------------------------------------------------------------------------------
  // The whole batch

  /** Each service is due to a running request, and no request has two. */
  ghost predicate AllDue(inst: Instance, w: Work, todo: seq<Service>) {
    && |w.progress| == |inst.requests|
    && (forall k :: 0 <= k < |todo| ==>
          && todo[k].index < |w.progress| && todo[k].index in w.running
          && Due(inst.requests[todo[k].index], w.progress[todo[k].index], todo[k]))
    && forall j, k :: 0 <= j < k < |todo| ==> todo[j].index != todo[k].index
  }

  /** Every record advanced by its own service, if it had one. */
  ghost predicate AllAdvanced(inst: Instance, before: seq<Progress>, after: seq<Progress>, todo: seq<Service>, end: int) {
    && |before| == |after| == |inst.requests|
    && (forall k :: 0 <= k < |todo| ==>
          todo[k].index < |before|
          && after[todo[k].index] == Advanced(inst.requests[todo[k].index], before[todo[k].index], todo[k], end))
    && forall i :: 0 <= i < |before| && Unplanned(todo, i) ==> after[i] == before[i]
  }

  /** Serving the first leaves the rest due. */
  lemma ServeNext(inst: Instance, w: Work, todo: seq<Service>, end: int)
    requires Core(inst, w) && AllDue(inst, w, todo) && todo != []
    ensures CanServe(inst, w, todo[0])
    ensures var a := Serve(inst, w, todo[0], end);
            Core(inst, a) && AllDue(inst, a, todo[1..]) && a.running == w.running
  {
    hide Core, CanServe, Serve, Due, Advanced;
    CoreSizes(inst, w);
    ServeCore(inst, w, todo[0], end);
    ServeRecord(inst, w, todo[0], end);
    forall k | 0 <= k < |todo[1..]| ensures todo[1..][k] == todo[k + 1] && todo[k + 1].index != todo[0].index {}
  }

  lemma {:induction false} ServeAllKeeps(inst: Instance, w: Work, todo: seq<Service>, end: int)
    requires Core(inst, w) && AllDue(inst, w, todo)
    ensures var r := ServeAll(inst, w, todo, end);
            && Core(inst, r) && r.running == w.running && AllAdvanced(inst, w.progress, r.progress, todo, end)
    decreases |todo|
  {
    hide Core, CanServe, Serve, Due, Advanced;
    if todo != [] {
      var v := todo[0];
      ServeNext(inst, w, todo, end);
      var a := Serve(inst, w, v, end);
      ServeRecord(inst, w, v, end);
      ServeAllKeeps(inst, a, todo[1..], end);
      AdvanceChain(inst, w.progress, a.progress, ServeAll(inst, w, todo, end).progress, todo, end);
    }
  }

  lemma ServeRecord(inst: Instance, w: Work, v: Service, end: int)
    requires CanServe(inst, w, v)
    ensures Serve(inst, w, v, end).progress == w.progress[v.index := Advanced(inst.requests[v.index], w.progress[v.index], v, end)]
    ensures Serve(inst, w, v, end).running == w.running
  {}

  lemma AdvanceChain(inst: Instance, p: seq<Progress>, q: seq<Progress>, r: seq<Progress>, todo: seq<Service>, end: int)
    requires todo != [] && todo[0].index < |p| == |inst.requests|
    requires forall k :: 0 < k < |todo| ==> todo[k].index != todo[0].index
    requires q == p[todo[0].index := Advanced(inst.requests[todo[0].index], p[todo[0].index], todo[0], end)]
    requires AllAdvanced(inst, q, r, todo[1..], end)
    ensures AllAdvanced(inst, p, r, todo, end)
  {
    hide Advanced;
    assert Unplanned(todo[1..], todo[0].index);
    forall k | 0 <= k < |todo|
      ensures todo[k].index < |p|
      ensures r[todo[k].index] == Advanced(inst.requests[todo[k].index], p[todo[k].index], todo[k], end)
    {
      if k > 0 { assert todo[1..][k - 1] == todo[k]; }
    }
    forall i | 0 <= i < |p| && Unplanned(todo, i) ensures r[i] == p[i] {
      assert Unplanned(todo[1..], i);
    }
  }

  // ---------------------------------------------------------------------------------------
  // The release loop

  lemma {:induction false} ReleaseAllKeeps(inst: Instance, w: Work, todo: seq<nat>)
    requires inst.Valid() && Core(inst, w)
    requires forall k :: 0 <= k < |w.running| ==> w.progress[w.running[k]].completedAt.None? || w.running[k] in todo
    ensures var r := ReleaseAll(w, todo);
            Core(inst, r) && r.progress == w.progress && NoneComplete(r.progress, r.running)
    decreases |todo|
  {
    hide Holds, Scripted, Owned, Single, IdsBelow;
    if todo != [] {
      var i := todo[0];
      if i < |w.progress| && w.progress[i].completedAt.Some? && i in w.running {
        ReleaseCore(inst, w, i);
        RemoveAtDistinct(w.running, IndexOf(w.running, i));
        var a := Release(w, i);
        forall k | 0 <= k < |a.running|
          ensures a.progress[a.running[k]].completedAt.None? || a.running[k] in todo[1..]
        {
          assert a.running[k] in a.running && a.running[k] in w.running;
        }
        ReleaseAllKeeps(inst, a, todo[1..]);
      } else {
        ReleaseAllKeeps(inst, w, todo[1..]);
      }
    }
  }

  // ---------------------------------------------------------------------------------------
  // From state to state

  /** How one step moves one record: nothing, admission, prompt tokens, or one output at the step's end. */
  ghost predicate Moved(p: Progress, q: Progress, time: int, end: int) {
    && (p.completedAt.Some? ==> q == p)
    && (q.outputTimes == p.outputTimes || q.outputTimes == p.outputTimes + [end])
    && (p.completedAt.None? && q.completedAt.Some? ==> q.completedAt.value == end && q.outputTimes == p.outputTimes + [end])
    && (p.admittedAt.Some? ==> q.admittedAt == p.admittedAt)
    && (p.admittedAt.None? ==> p == NotAdmitted && (q.admittedAt.None? || q.admittedAt == Some(time)))
    && q.prefillDone >= p.prefillDone
  }

  ghost predicate AllMoved(before: seq<Progress>, after: seq<Progress>, time: int, end: int) {
    |before| == |after| && forall i :: 0 <= i < |before| ==> Moved(before[i], after[i], time, end)
  }

  /** When the step ends. */
  ghost function End(inst: Instance, s: State, order: seq<nat>): int
    requires inst.Valid() && |s.progress| == |inst.requests|
    requires Below(s.running, |inst.requests|) && Below(order, |inst.requests|)
  {
    var w := Batch(inst, s, order);
    if w.services == [] then s.time else s.time + inst.overhead + MaxCost(inst, w.services)
  }

  lemma {:induction false} CostPositive(inst: Instance, services: seq<Service>)
    requires inst.Valid() && services != [] && forall k :: 0 <= k < |services| ==> services[k].count >= 1
    ensures MaxCost(inst, services) >= 1
  {
    var v := services[0];
    assert v.count * inst.prefillTicks >= 1;
    assert Cost(inst, v) <= MaxCost(inst, services);
  }

  lemma MovedOne(r: Request, p: Progress, a: Progress, q: Progress, v: Service, time: int, end: int)
    requires Scripted(r, p) && Scripted(r, a) && Entered(p, a, time) && Due(r, a, v) && r.output != []
    requires q == Advanced(r, a, v, end)
    requires v.prefill || a.completedAt.None?
    ensures Moved(p, q, time, end)
  {}

  /** A step with services: what it does to the records, and the invariant after it. */
  lemma ServedStep(inst: Instance, s: State, order: seq<nat>)
    requires StateInv(inst, s) && Legal(inst, s, order)
    ensures Below(s.running, |inst.requests|) && Below(order, |inst.requests|)
    ensures var w := Batch(inst, s, order);
            w.services != [] ==>
              var t := Next(inst, s, order);
              && t.time == End(inst, s, order) > s.time && Core(inst, Opened(inst, t)) && NoneComplete(t.progress, t.running)
              && AllEntered(s.progress, w.progress, order, s.time)
              && AllAdvanced(inst, w.progress, t.progress, w.services, t.time)
              && Planned(inst, w) && Core(inst, w)
  {
    hide Core, Batch, MaxCost, ServeAll, ReleaseAll, AllAdvanced, AllEntered, Due;
    StateScripts(inst, s);
    BatchServes(inst, s, order);
    var w := Batch(inst, s, order);
    if w.services != [] {
      DueCounts(inst, w);
      CostPositive(inst, w.services);
      var end := End(inst, s, order);
      ServeAllKeeps(inst, w, w.services, end);
      var served := ServeAll(inst, w, w.services, end);
      CoreSizes(inst, served);
      ReleaseAllKeeps(inst, served, served.running);
      var freed := ReleaseAll(served, served.running);
      OpenedCore(inst, freed, Next(inst, s, order));
    }
  }

  lemma DueCounts(inst: Instance, w: Work)
    requires Planned(inst, w)
    ensures AllDue(inst, w, w.services)
    ensures forall k :: 0 <= k < |w.services| ==> w.services[k].count >= 1
  {}

  lemma OpenedCore(inst: Instance, w: Work, s: State)
    requires inst.Valid() && Core(inst, w)
    requires s.progress == w.progress && s.running == w.running && s.blocks == w.blocks && s.nextId == w.nextId
    ensures Core(inst, Opened(inst, s))
  {}

  lemma StepMoves(inst: Instance, s: State, order: seq<nat>)
    requires StateInv(inst, s) && Legal(inst, s, order)
    ensures Below(s.running, |inst.requests|) && Below(order, |inst.requests|)
    ensures AllMoved(s.progress, Next(inst, s, order).progress, s.time, Next(inst, s, order).time)
  {
    hide Core, Batch, MaxCost, ServeAll, ReleaseAll, Moved, Advanced, Entered;
    StateScripts(inst, s);
    ServedStep(inst, s, order);
    var w := Batch(inst, s, order);
    var t := Next(inst, s, order);
    if w.services == [] {
      forall i | 0 <= i < |s.progress| ensures Moved(s.progress[i], t.progress[i], s.time, t.time) {
        Unmoved(inst.requests[i], s.progress[i], s.progress[i], s.time, t.time);
      }
    } else {
      WorkScripts(inst, w);
      forall i | 0 <= i < |s.progress| ensures Moved(s.progress[i], t.progress[i], s.time, t.time) {
        if k :| 0 <= k < |w.services| && w.services[k].index == i {
          PlannedIncomplete(inst, w, k);
          MovedOne(inst.requests[i], s.progress[i], w.progress[i], t.progress[i], w.services[k], s.time, t.time);
        } else {
          assert Unplanned(w.services, i);
          Unmoved(inst.requests[i], s.progress[i], t.progress[i], s.time, t.time);
        }
      }
    }
  }

  lemma StateScripts(inst: Instance, s: State)
    requires StateInv(inst, s)
    ensures inst.Valid() && |s.progress| == |inst.requests|
    ensures forall i :: 0 <= i < |s.progress| ==> Scripted(inst.requests[i], s.progress[i])
    ensures forall i :: 0 <= i < |s.progress| ==> inst.requests[i].output != []
  {}

  lemma WorkScripts(inst: Instance, w: Work)
    requires Core(inst, w)
    ensures |w.progress| == |inst.requests|
    ensures forall i :: 0 <= i < |w.progress| ==> Scripted(inst.requests[i], w.progress[i])
  {}

  lemma PlannedIncomplete(inst: Instance, w: Work, k: nat)
    requires Core(inst, w) && Planned(inst, w) && k < |w.services|
    ensures w.services[k].index < |w.progress|
    ensures w.services[k].prefill || w.progress[w.services[k].index].completedAt.None?
  {
    assert Scripted(inst.requests[w.services[k].index], w.progress[w.services[k].index]);
  }

  lemma Unmoved(r: Request, p: Progress, q: Progress, time: int, end: int)
    requires Scripted(r, p) && Entered(p, q, time) && r.output != []
    ensures Moved(p, q, time, end)
  {}
}
