/** Serving a batch and releasing completed requests keep the invariant of the toy model. */
module ToyService {
  import opened Common
  import opened ToyModel
  import opened ToyInvariant

  // ---------------------------------------------------------------------------------------
  // One service

  /** The service fits the record: tokens of the prompt not yet computed, or the next output. */
  predicate Due(r: Request, p: Progress, v: Service) {
    && p.admittedAt.Some? && v.count >= 1
    && if v.prefill then p.prefillDone + v.count <= |r.prompt| else p.prefillDone == |r.prompt| && |p.outputTimes| < |r.output|
  }

  /** The record after the service. */
  function Advanced(r: Request, p: Progress, v: Service, end: int): Progress {
    if v.prefill then p.(prefillDone := p.prefillDone + v.count)
    else p.(outputTimes := p.outputTimes + [end], completedAt := if |p.outputTimes| + 1 == |r.output| then Some(end) else None)
  }

  /** Service of `i` computes only blocks that were being filled for `i`. */
  ghost predicate Filled(before: map<nat, Block>, after: map<nat, Block>, i: nat) {
    && after.Keys == before.Keys
    && forall b :: b in before ==>
         && after[b].refs == before[b].refs
         && (after[b] == before[b] || (!before[b].computed && i in before[b].refs && after[b].computed))
  }

  lemma FilledHolds(before: map<nat, Block>, after: map<nat, Block>, i: nat, r: Request, j: nat, p: Progress)
    requires Filled(before, after, i) && Single(before) && Holds(r, j, p, before) && i != j
    ensures Holds(r, j, p, after)
  {
    forall pos | 0 <= pos < |p.blockIds| ensures after[p.blockIds[pos]] == before[p.blockIds[pos]] {
      var b := p.blockIds[pos];
      assert b in before && j in before[b].refs;
    }
  }

  lemma FilledKeeps(before: map<nat, Block>, after: map<nat, Block>, i: nat, progress: seq<Progress>, running: seq<nat>,
                    nextId: nat, p: Progress)
    requires Filled(before, after, i) && Single(before) && Owned(progress, running, before) && IdsBelow(before, nextId)
    requires i < |progress| && p.blockIds == progress[i].blockIds
    ensures Single(after) && Owned(progress[i := p], running, after) && IdsBelow(after, nextId) && |after| == |before|
  {
    forall b, j | b in after && j in after[b].refs ensures Refers(progress[i := p], running, b, j) {
      assert Refers(progress, running, b, j);
    }
    assert |after.Keys| == |after| && |before.Keys| == |before|;
  }

  lemma ServeFills(inst: Instance, w: Work, v: Service, end: int)
    requires v.index < |inst.requests| == |w.progress| && Due(inst.requests[v.index], w.progress[v.index], v)
    requires Scripted(inst.requests[v.index], w.progress[v.index])
    requires Holds(inst.requests[v.index], v.index, w.progress[v.index], w.blocks)
    ensures CanServe(inst, w, v)
    ensures var a := Serve(inst, w, v, end);
            && a == w.(blocks := a.blocks, progress := a.progress)
            && a.progress == w.progress[v.index := Advanced(inst.requests[v.index], w.progress[v.index], v, end)]
            && Filled(w.blocks, a.blocks, v.index)
  {
    var r, p := inst.requests[v.index], w.progress[v.index];
    var a := Serve(inst, w, v, end);
    if v.prefill {
      var done := p.blockIds[p.prefillDone..p.prefillDone + v.count];
      forall b | b in done ensures b in w.blocks && !w.blocks[b].computed && v.index in w.blocks[b].refs {
        var k :| 0 <= k < |done| && done[k] == b;
        assert p.blockIds[p.prefillDone + k] == b;
      }
    } else {
      assert SlotOK(r, p, |r.prompt| + |p.outputTimes|, w.blocks[p.blockIds[|r.prompt| + |p.outputTimes|]]);
    }
  }

  /** The served request's table holds what its new record says. */
  lemma ServeTable(inst: Instance, w: Work, v: Service, end: int)
    requires v.index < |inst.requests| == |w.progress| && Due(inst.requests[v.index], w.progress[v.index], v)
    requires Scripted(inst.requests[v.index], w.progress[v.index])
    requires Holds(inst.requests[v.index], v.index, w.progress[v.index], w.blocks)
    ensures CanServe(inst, w, v)
    ensures var a := Serve(inst, w, v, end);
            Holds(inst.requests[v.index], v.index, a.progress[v.index], a.blocks)
  {
    var r, p := inst.requests[v.index], w.progress[v.index];
    var a := Serve(inst, w, v, end);
    var q := a.progress[v.index];
    forall pos | 0 <= pos < |p.blockIds|
      ensures p.blockIds[pos] in a.blocks && v.index in a.blocks[p.blockIds[pos]].refs
      ensures SlotOK(r, q, pos, a.blocks[p.blockIds[pos]])
    {
      var b := p.blockIds[pos];
      assert SlotOK(r, p, pos, w.blocks[b]);
      if v.prefill {
        var done := p.blockIds[p.prefillDone..p.prefillDone + v.count];
        if p.prefillDone <= pos < p.prefillDone + v.count {
          assert done[pos - p.prefillDone] == b;
        } else {
          assert forall k :: 0 <= k < |done| ==> done[k] == p.blockIds[p.prefillDone + k] != p.blockIds[pos];
        }
      }
    }
  }

  lemma AdvancedScripted(r: Request, p: Progress, v: Service, end: int)
    requires Scripted(r, p) && Due(r, p, v)
    ensures Scripted(r, Advanced(r, p, v, end))
  {}

  /** Any service that is due keeps the invariant. */
  lemma ServeCore(inst: Instance, w: Work, v: Service, end: int)
    requires Core(inst, w) && v.index < |inst.requests| == |w.progress| && v.index in w.running
    requires Due(inst.requests[v.index], w.progress[v.index], v)
    ensures CanServe(inst, w, v) && Core(inst, Serve(inst, w, v, end))
  {
    hide Holds, Serve, Filled, Scripted, Advanced, Owned, Single, IdsBelow, Due, CanServe;
    var i := v.index;
    var k := IndexOf(w.running, i);
    assert Holds(inst.requests[w.running[k]], w.running[k], w.progress[w.running[k]], w.blocks);
    ServeFills(inst, w, v, end);
    ServeTable(inst, w, v, end);
    var a := Serve(inst, w, v, end);
    AdvancedScripted(inst.requests[i], w.progress[i], v, end);
    AdvancedListed(inst, w.progress, w.running, v, end);
    FilledKeeps(w.blocks, a.blocks, i, w.progress, w.running, w.nextId, a.progress[i]);
    forall k | 0 <= k < |a.running| ensures Holds(inst.requests[a.running[k]], a.running[k], a.progress[a.running[k]], a.blocks) {
      if a.running[k] != i {
        FilledHolds(w.blocks, a.blocks, i, inst.requests[a.running[k]], a.running[k], w.progress[a.running[k]]);
      }
    }
  }

  lemma AdvancedListed(inst: Instance, progress: seq<Progress>, running: seq<nat>, v: Service, end: int)
    requires |progress| == |inst.requests| && Listed(progress, running) && v.index < |progress| && v.index in running
    requires Due(inst.requests[v.index], progress[v.index], v)
    ensures var p := Advanced(inst.requests[v.index], progress[v.index], v, end);
            && p.blockIds == progress[v.index].blockIds
            && Listed(progress[v.index := p], running)
  {}

  // ---------------------------------------------------------------------------------------
  // Release

  lemma CompletedComputed(r: Request, i: nat, p: Progress, blocks: map<nat, Block>, b: nat)
    requires Scripted(r, p) && Holds(r, i, p, blocks) && p.completedAt.Some? && r.output != [] && b in p.blockIds
    ensures b in blocks && blocks[b].computed
  {
    var pos :| 0 <= pos < |p.blockIds| && p.blockIds[pos] == b;
    assert SlotOK(r, p, pos, blocks[b]);
  }

  /** Release of `i` takes its references away from its blocks and changes nothing else but touch times. */
  ghost predicate Released(before: map<nat, Block>, after: map<nat, Block>, i: nat, ids: seq<nat>) {
    && after.Keys == before.Keys
    && forall b :: b in before ==>
         && after[b].computed == before[b].computed && after[b].identity == before[b].identity
         && after[b].refs == before[b].refs - (if b in ids then {i} else {})
  }

  lemma ReleasedHolds(before: map<nat, Block>, after: map<nat, Block>, i: nat, ids: seq<nat>, r: Request, j: nat, p: Progress)
    requires Released(before, after, i, ids) && Holds(r, j, p, before) && i != j
    ensures Holds(r, j, p, after)
  {
    forall pos | 0 <= pos < |p.blockIds|
      ensures p.blockIds[pos] in after && j in after[p.blockIds[pos]].refs && SlotOK(r, p, pos, after[p.blockIds[pos]])
    {
      assert SlotOK(r, p, pos, before[p.blockIds[pos]]);
    }
  }

  lemma ReleaseOwned(before: map<nat, Block>, after: map<nat, Block>, i: nat, progress: seq<Progress>, running: seq<nat>, at: nat)
    requires i < |progress| && at < |running| && running[at] == i && Distinct(running)
    requires Released(before, after, i, progress[i].blockIds) && Owned(progress, running, before)
    ensures Owned(progress, RemoveAt(running, at), after)
  {
    RemoveAtDistinct(running, at);
    forall b, j | b in after && j in after[b].refs ensures Refers(progress, RemoveAt(running, at), b, j) {
      assert Refers(progress, running, b, j);
    }
  }

  lemma ReleaseSingle(before: map<nat, Block>, after: map<nat, Block>, i: nat, ids: seq<nat>)
    requires Released(before, after, i, ids) && Single(before)
    requires forall b :: b in ids ==> b in before && before[b].computed
    ensures Single(after) && |after| == |before|
  {
    assert |after.Keys| == |after| && |before.Keys| == |before|;
  }

  lemma ReleaseListed(progress: seq<Progress>, running: seq<nat>, i: nat, at: nat)
    requires Listed(progress, running) && at < |running| && running[at] == i && progress[i].completedAt.Some?
    ensures Listed(progress, RemoveAt(running, at))
  {
    RemoveAtDistinct(running, at);
  }

  /** Releasing a completed request keeps the invariant. */
  lemma ReleaseCore(inst: Instance, w: Work, i: nat)
    requires inst.Valid() && Core(inst, w) && i < |w.progress| && i in w.running && w.progress[i].completedAt.Some?
    ensures Core(inst, Release(w, i))
  {
    hide Holds, Scripted, Listed, Owned, Single, Released;
    var a := Release(w, i);
    var at := IndexOf(w.running, i);
    var ids := w.progress[i].blockIds;
    ReleaseBlocks(w, i);
    assert Holds(inst.requests[w.running[at]], w.running[at], w.progress[w.running[at]], w.blocks);
    forall b | b in ids ensures b in w.blocks && w.blocks[b].computed {
      CompletedComputed(inst.requests[i], i, w.progress[i], w.blocks, b);
    }
    ReleaseListed(w.progress, w.running, i, at);
    ReleaseOwnedSingle(w.blocks, a.blocks, i, w.progress, w.running, at);
    ReleaseTables(inst, w.progress, w.running, w.blocks, a.blocks, i, at);
  }

  lemma ReleaseBlocks(w: Work, i: nat)
    requires i < |w.progress| && i in w.running
    ensures Released(w.blocks, Release(w, i).blocks, i, w.progress[i].blockIds)
    ensures Release(w, i).blocks.Keys == w.blocks.Keys
  {}

  lemma ReleaseOwnedSingle(before: map<nat, Block>, after: map<nat, Block>, i: nat, progress: seq<Progress>,
                           running: seq<nat>, at: nat)
    requires at < |running| && running[at] == i && Listed(progress, running)
    requires i < |progress| && Released(before, after, i, progress[i].blockIds) && Owned(progress, running, before) && Single(before)
    requires forall b :: b in progress[i].blockIds ==> b in before && before[b].computed
    ensures Owned(progress, RemoveAt(running, at), after) && Single(after) && |after| == |before|
  {
    hide Owned, Single, Released;
    ReleaseOwned(before, after, i, progress, running, at);
    ReleaseSingle(before, after, i, progress[i].blockIds);
  }

  lemma ReleaseTables(inst: Instance, progress: seq<Progress>, running: seq<nat>, before: map<nat, Block>, after: map<nat, Block>,
                      i: nat, at: nat)
    requires Tables(inst, progress, running, before) && Listed(progress, running) && at < |running| && running[at] == i
    requires i < |progress| && Released(before, after, i, progress[i].blockIds)
    ensures Tables(inst, progress, RemoveAt(running, at), after)
  {
    hide Holds, Released;
    RemoveAtDistinct(running, at);
    var rest := RemoveAt(running, at);
    forall k | 0 <= k < |rest| ensures rest[k] < |progress| && Holds(inst.requests[rest[k]], rest[k], progress[rest[k]], after) {
      var m := if k < at then k else k + 1;
      assert rest[k] == running[m] != i;
      ReleasedHolds(before, after, i, progress[i].blockIds, inst.requests[running[m]], running[m], progress[running[m]]);
    }
  }
}
