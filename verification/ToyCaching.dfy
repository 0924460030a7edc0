/** What the blocks of the toy model remember: computed prefixes stay until they are evicted, and are found again. */
module ToyCaching {
  import opened Common
  import opened ToyModel
  import opened ToyInvariant
  import opened ToyService
  import opened ToyTransition
  import opened ToyStep

  // ---------------------------------------------------------------------------------------
  // Computed blocks stay

  /** No id below `nextId` comes back, and a computed block that is still there holds what it held. */
  ghost predicate Kept(before: map<nat, Block>, after: map<nat, Block>, nextId: nat) {
    forall b :: b in after && b < nextId ==>
      && b in before
      && (before[b].computed ==> after[b].computed && after[b].identity == before[b].identity)
  }

  lemma KeptChain(a: map<nat, Block>, b: map<nat, Block>, c: map<nat, Block>, m: nat, n: nat)
    requires Kept(a, b, m) && Kept(b, c, n) && m <= n
    ensures Kept(a, c, m)
  {
  }

  lemma KeptSame(blocks: map<nat, Block>, nextId: nat)
    ensures Kept(blocks, blocks, nextId)
  {
  }

  lemma AdmitKept(inst: Instance, time: int, w: Work, i: nat)
    requires inst.Valid() && i < |inst.requests| == |w.progress| && IdsBelow(w.blocks, w.nextId) && Fits(inst, i, w.blocks)
    ensures var a := Plan(inst, Admit(inst, time, w, i), i); Kept(w.blocks, a.blocks, w.nextId) && w.nextId <= a.nextId
  {
    hide Fits, IdsBelow, Hits;
    AdmitBlocks(inst, time, w, i);
  }

  lemma {:induction false} AdmitAllKept(inst: Instance, time: int, w: Work, order: seq<nat>)
    requires inst.Valid() && Core(inst, w) && Planned(inst, w) && NoneComplete(w.progress, w.running)
    requires Distinct(order) && Below(order, |w.progress|)
    requires forall k :: 0 <= k < |order| ==> w.progress[order[k]].admittedAt.None?
    ensures Kept(w.blocks, AdmitAll(inst, time, w, order).blocks, w.nextId)
    decreases |order|
  {
    CoreSizes(inst, w);
    assert IdsBelow(w.blocks, w.nextId);
    hide Core, Planned, NoneComplete, Fits, Admit, Plan, Kept, IdsBelow, Entered;
    if order != [] && |w.running| != inst.maxSequences && w.budget > 0 && Fits(inst, order[0], w.blocks) {
      var a := Plan(inst, Admit(inst, time, w, order[0]), order[0]);
      AdmitOne(inst, time, w, order[0]);
      AdmitKept(inst, time, w, order[0]);
      StillNew(w.progress, a.progress, order, time);
      AdmitAllKept(inst, time, a, order[1..]);
      KeptChain(w.blocks, a.blocks, AdmitAll(inst, time, w, order).blocks, w.nextId, a.nextId);
    } else {
      KeptSame(w.blocks, w.nextId);
    }
  }

  lemma StillNew(before: seq<Progress>, after: seq<Progress>, order: seq<nat>, time: int)
    requires order != [] && Distinct(order) && Below(order, |before|) && AllEntered(before, after, [order[0]], time)
    requires forall k :: 0 <= k < |order| ==> before[order[k]].admittedAt.None?
    ensures Distinct(order[1..]) && Below(order[1..], |after|)
    ensures forall k :: 0 <= k < |order[1..]| ==> after[order[1..][k]].admittedAt.None?
  {
    forall k | 0 <= k < |order[1..]| ensures order[1..][k] == order[k + 1] && order[k + 1] !in [order[0]] {}
  }

  lemma {:induction false} ServeAllKept(inst: Instance, w: Work, todo: seq<Service>, end: int, nextId: nat)
    requires Core(inst, w) && AllDue(inst, w, todo)
    ensures Kept(w.blocks, ServeAll(inst, w, todo, end).blocks, nextId)
    decreases |todo|
  {
    hide Core, CanServe, Serve, Due, Kept;
    if todo != [] {
      ServeNext(inst, w, todo, end);
      var a := Serve(inst, w, todo[0], end);
      ServeKept(inst, w, todo, end, nextId);
      ServeAllKept(inst, a, todo[1..], end, nextId);
      KeptChain(w.blocks, a.blocks, ServeAll(inst, w, todo, end).blocks, nextId, nextId);
    } else {
      KeptSame(w.blocks, nextId);
    }
  }

  lemma ServeKept(inst: Instance, w: Work, todo: seq<Service>, end: int, nextId: nat)
    requires Core(inst, w) && AllDue(inst, w, todo) && todo != [] && CanServe(inst, w, todo[0])
    ensures Kept(w.blocks, Serve(inst, w, todo[0], end).blocks, nextId)
  {
    var v := todo[0];
    var at := IndexOf(w.running, v.index);
    assert Holds(inst.requests[w.running[at]], w.running[at], w.progress[w.running[at]], w.blocks);
    assert Scripted(inst.requests[v.index], w.progress[v.index]);
    hide Holds, Scripted, Serve, CanServe, Due, Core;
    ServeFills(inst, w, v, end);
  }

  /** Release gives back references and nothing else. */
  lemma {:induction false} ReleaseAllSame(w: Work, todo: seq<nat>)
    ensures var r := ReleaseAll(w, todo);
            && r.progress == w.progress && r.blocks.Keys == w.blocks.Keys
            && forall b :: b in w.blocks ==>
                 r.blocks[b].computed == w.blocks[b].computed && r.blocks[b].identity == w.blocks[b].identity
    decreases |todo|
  {
    if todo != [] {
      if todo[0] < |w.progress| && w.progress[todo[0]].completedAt.Some? && todo[0] in w.running {
        ReleaseBlocks(w, todo[0]);
        ReleaseAllSame(Release(w, todo[0]), todo[1..]);
      } else {
        ReleaseAllSame(w, todo[1..]);
      }
    }
  }

  lemma BatchKept(inst: Instance, s: State, order: seq<nat>)
    requires StateInv(inst, s) && Legal(inst, s, order)
    ensures Below(s.running, |inst.requests|) && Below(order, |inst.requests|) && |s.progress| == |inst.requests|
    ensures Kept(s.blocks, Batch(inst, s, order).blocks, s.nextId)
  {
    var w0 := Opened(inst, s);
    OpenedReady(inst, s);
    hide Core, Planned, NoneComplete, Kept;
    var w1 := PlanAll(inst, w0, s.running);
    PlanAllCore(inst, w0, w1);
    PlanAllPlanned(inst, w0, s.running);
    AdmitAllKept(inst, s.time, w1, order);
  }

  /**
   The cache between two states: no block comes back, and every computed block that is still there, referenced or
   not, holds what it held.
   */
  lemma StepKeepsCache(inst: Instance, s: State, order: seq<nat>)
    requires StateInv(inst, s) && Legal(inst, s, order)
    ensures Below(s.running, |inst.requests|) && Below(order, |inst.requests|) && |s.progress| == |inst.requests|
    ensures Kept(s.blocks, Next(inst, s, order).blocks, s.nextId)
  {
    BatchKept(inst, s, order);
    BatchServes(inst, s, order);
    var w := Batch(inst, s, order);
    hide Core, Batch, MaxCost, ServeAll, ReleaseAll, StateInv, Planned, NoneComplete, AllEntered;
    if w.services != [] {
      DueCounts(inst, w);
      var end := End(inst, s, order);
      ServeAllKept(inst, w, w.services, end, s.nextId);
      var served := ServeAll(inst, w, w.services, end);
      ReleaseAllSame(served, served.running);
      KeptChain(s.blocks, w.blocks, served.blocks, s.nextId, s.nextId);
    } else {
      assert Kept(s.blocks, s.blocks, s.nextId);
    }
  }

  // ---------------------------------------------------------------------------------------
  // What has been computed is found

  /** Every token the record counts as computed is in the request's table, called after its whole prefix. */
  ghost predicate Written(r: Request, p: Progress, blocks: map<nat, Block>) {
    && p.prefillDone + |p.outputTimes| <= |p.blockIds| == |r.prompt| + |r.output|
    && forall pos :: 0 <= pos < p.prefillDone + |p.outputTimes| ==> IsHit(blocks, (r.prompt + r.output)[..pos + 1], p.blockIds[pos])
  }

  lemma HoldsWritten(r: Request, i: nat, p: Progress, blocks: map<nat, Block>)
    requires Scripted(r, p) && Holds(r, i, p, blocks)
    ensures Written(r, p, blocks)
  {
    forall pos | 0 <= pos < p.prefillDone + |p.outputTimes|
      ensures IsHit(blocks, (r.prompt + r.output)[..pos + 1], p.blockIds[pos])
    {
      assert SlotOK(r, p, pos, blocks[p.blockIds[pos]]);
      if pos < |r.prompt| {
        assert (r.prompt + r.output)[..pos + 1] == r.prompt[..pos + 1];
      } else {
        assert (r.prompt + r.output)[..pos + 1] == r.prompt + r.output[..pos - |r.prompt| + 1];
      }
    }
  }

  /** After a batch everything its requests have computed is in their blocks, also for those that complete and leave. */
  lemma BatchWrites(inst: Instance, s: State, order: seq<nat>, i: nat)
    requires StateInv(inst, s) && Legal(inst, s, order)
    ensures Below(s.running, |inst.requests|) && Below(order, |inst.requests|) && |s.progress| == |inst.requests|
    ensures var w, t := Batch(inst, s, order), Next(inst, s, order);
            w.services != [] && i in w.running ==>
              i < |t.progress| == |inst.requests| && Written(inst.requests[i], t.progress[i], t.blocks)
  {
    StateScripts(inst, s);
    BatchServes(inst, s, order);
    var w := Batch(inst, s, order);
    hide Core, Batch, MaxCost, ServeAll, ReleaseAll, StateInv, Planned, NoneComplete, AllEntered, AllAdvanced, Due,
         Written;
    if w.services != [] && i in w.running {
      DueCounts(inst, w);
      var end := End(inst, s, order);
      ServeAllKeeps(inst, w, w.services, end);
      var served := ServeAll(inst, w, w.services, end);
      RunningWritten(inst, served, i);
      ReleaseAllSame(served, served.running);
      WrittenFrame(inst.requests[i], served.progress[i], served.blocks, ReleaseAll(served, served.running).blocks);
    }
  }

  lemma RunningWritten(inst: Instance, w: Work, i: nat)
    requires Core(inst, w) && i in w.running
    ensures i < |w.progress| == |inst.requests| && Written(inst.requests[i], w.progress[i], w.blocks)
  {
    var at := IndexOf(w.running, i);
    assert Holds(inst.requests[w.running[at]], w.running[at], w.progress[w.running[at]], w.blocks);
    hide Holds, Scripted, Written, Owned, Single, IdsBelow;
    HoldsWritten(inst.requests[i], i, w.progress[i], w.blocks);
  }

  lemma WrittenFrame(r: Request, p: Progress, before: map<nat, Block>, after: map<nat, Block>)
    requires Written(r, p, before) && after.Keys == before.Keys
    requires forall b :: b in before ==> after[b].computed == before[b].computed && after[b].identity == before[b].identity
    ensures Written(r, p, after)
  {
    forall pos | 0 <= pos < p.prefillDone + |p.outputTimes|
      ensures IsHit(after, (r.prompt + r.output)[..pos + 1], p.blockIds[pos])
    {
      assert IsHit(before, (r.prompt + r.output)[..pos + 1], p.blockIds[pos]);
    }
  }

  lemma FoundAt(r: Request, p: Progress, blocks: map<nat, Block>, prompt: seq<int>, m: nat, n: nat)
    requires Written(r, p, blocks) && n < m <= p.prefillDone + |p.outputTimes| && m <= |prompt|
    requires prompt[..m] == (r.prompt + r.output)[..m]
    ensures !Missing(blocks, prompt[..n + 1])
  {
    assert prompt[..n + 1] == prompt[..m][..n + 1] == (r.prompt + r.output)[..m][..n + 1] == (r.prompt + r.output)[..n + 1];
    assert IsHit(blocks, prompt[..n + 1], p.blockIds[n]);
  }

  /** A prompt that begins with what a request has computed, prompt and output, finds all of it. */
  lemma SharedPrefixHits(r: Request, p: Progress, blocks: map<nat, Block>, prompt: seq<int>, m: nat)
    requires Written(r, p, blocks) && m <= p.prefillDone + |p.outputTimes| && m <= |prompt|
    requires prompt[..m] == (r.prompt + r.output)[..m]
    ensures |Hits(prompt, blocks, 0)| >= m
  {
    hide Written, Missing, IsHit;
    var n := |Hits(prompt, blocks, 0)|;
    if n < m { FoundAt(r, p, blocks, prompt, m, n); }
  }
}
