/**
 What check_state asserts at run time, strengthened to an inductive invariant, and the three moves that change
 blocks: admission, service and release.
 */
module ToyInvariant {
  import opened Common
  import opened ToyModel

  // ---------------------------------------------------------------------------------------
  // The invariant

  /** What a running request's block at position `pos` of its table holds. */
  predicate SlotOK(r: Request, p: Progress, pos: nat, k: Block) {
    if pos < p.prefillDone && pos < |r.prompt| then k.computed && k.identity == Some(r.prompt[..pos + 1])
    else if pos < |r.prompt| then !k.computed && k.identity == Some(r.prompt[..pos + 1])
    else if |r.prompt| <= pos < |r.prompt| + |p.outputTimes| && pos < |r.prompt| + |r.output| then
      k.computed && k.identity == Some(r.prompt + r.output[..pos - |r.prompt| + 1])
    else !k.computed && k.identity == None
  }

  /** A running request refers to every block of its table, and each block holds what its position says. */
  ghost predicate Holds(r: Request, i: nat, p: Progress, blocks: map<nat, Block>) {
    && |p.blockIds| == |r.prompt| + |r.output|
    && forall pos :: 0 <= pos < |p.blockIds| ==>
         p.blockIds[pos] in blocks && i in blocks[p.blockIds[pos]].refs && SlotOK(r, p, pos, blocks[p.blockIds[pos]])
  }

  /** Progress follows the script: the prompt first, then the outputs, each in full. */
  ghost predicate Scripted(r: Request, p: Progress) {
    && p.prefillDone <= |r.prompt| && |p.outputTimes| <= |r.output|
    && (p.outputTimes != [] ==> p.prefillDone == |r.prompt|)
    && (p.completedAt.Some? <==> |p.outputTimes| == |r.output|)
    && (p.admittedAt.None? ==> p == NotAdmitted)
    && (p.admittedAt.Some? ==> |p.blockIds| == |r.prompt| + |r.output| && Distinct(p.blockIds))
  }

  ghost predicate Scripts(inst: Instance, progress: seq<Progress>) {
    && |progress| == |inst.requests|
    && forall i :: 0 <= i < |progress| ==> Scripted(inst.requests[i], progress[i])
  }

  /** Exactly the admitted requests that are not complete run; completed ones run only until they are released. */
  ghost predicate Listed(progress: seq<Progress>, running: seq<nat>) {
    && Distinct(running) && Below(running, |progress|)
    && (forall k :: 0 <= k < |running| ==> progress[running[k]].admittedAt.Some?)
    && forall i :: 0 <= i < |progress| && progress[i].admittedAt.Some? && i !in running ==> progress[i].completedAt.Some?
  }

  ghost predicate Tables(inst: Instance, progress: seq<Progress>, running: seq<nat>, blocks: map<nat, Block>) {
    && |progress| == |inst.requests| && Below(running, |progress|)
    && forall k :: 0 <= k < |running| ==> Holds(inst.requests[running[k]], running[k], progress[running[k]], blocks)
  }

  ghost predicate Refers(progress: seq<Progress>, running: seq<nat>, b: nat, j: nat) {
    j in running && j < |progress| && b in progress[j].blockIds
  }

  /** Every reference comes from a running request whose table has the block. */
  ghost predicate Owned(progress: seq<Progress>, running: seq<nat>, blocks: map<nat, Block>) {
    forall b, j :: b in blocks && j in blocks[b].refs ==> Refers(progress, running, b, j)
  }

  /** A block being filled belongs to one request alone; an unreferenced block is computed. */
  ghost predicate Single(blocks: map<nat, Block>) {
    forall b :: b in blocks && !blocks[b].computed ==>
      blocks[b].refs != {} && forall j, k :: j in blocks[b].refs && k in blocks[b].refs ==> j == k
  }

  ghost predicate IdsBelow(blocks: map<nat, Block>, nextId: nat) {
    forall b :: b in blocks ==> b < nextId
  }

  ghost predicate Core(inst: Instance, w: Work) {
    && Scripts(inst, w.progress) && Listed(w.progress, w.running) && Tables(inst, w.progress, w.running, w.blocks)
    && Owned(w.progress, w.running, w.blocks) && Single(w.blocks) && IdsBelow(w.blocks, w.nextId)
    && |w.blocks| <= inst.kvBlocks && |w.running| <= inst.maxSequences
  }

  // ---------------------------------------------------------------------------------------
  // Admission

  lemma HitsDistinct(prompt: seq<int>, blocks: map<nat, Block>)
    ensures Distinct(Hits(prompt, blocks, 0))
  {
    var hits := Hits(prompt, blocks, 0);
    forall i, j | 0 <= i < j < |hits| ensures hits[i] != hits[j] {
      assert IsLeastHit(blocks, prompt[..0 + i + 1], hits[i]) && IsLeastHit(blocks, prompt[..0 + j + 1], hits[j]);
      assert |prompt[..0 + i + 1]| != |prompt[..0 + j + 1]|;
    }
  }

  /** `r` is `blocks` without some unreferenced blocks. */
  ghost predicate KeepsReferenced(blocks: map<nat, Block>, r: map<nat, Block>) {
    && (forall b :: b in r ==> b in blocks && r[b] == blocks[b])
    && forall b :: b in blocks && blocks[b].refs != {} ==> b in r
  }

  /** Eviction takes only unreferenced blocks. */
  lemma {:induction false} EvictKeeps(kv: int, blocks: map<nat, Block>, needed: int)
    ensures KeepsReferenced(blocks, Evict(kv, blocks, needed))
    decreases |blocks|
  {
    hide HasVictim;
    if kv - |blocks| < needed && HasVictim(blocks) {
      var b := Victim(blocks);
      SmallerMap(blocks, b);
      EvictKeeps(kv, blocks - {b}, needed);
    }
  }

  /** The minimum over victims is never over an empty set, and eviction makes the room it was asked for. */
  lemma {:induction false} EvictMakesRoom(kv: int, blocks: map<nat, Block>, needed: int)
    requires needed <= kv - |Active(blocks)|
    ensures kv - |Evict(kv, blocks, needed)| >= needed
    decreases |blocks|
  {
    hide HasVictim, IsVictim;
    if kv - |blocks| < needed {
      VictimExists(blocks);
      var b := Victim(blocks);
      VictimIdle(blocks, b);
      SmallerMap(blocks, b);
      EvictMakesRoom(kv, blocks - {b}, needed);
    }
  }

  lemma VictimIdle(blocks: map<nat, Block>, b: nat)
    requires IsVictim(blocks, b)
    ensures b in blocks && Active(blocks - {b}) == Active(blocks)
  {}

  lemma AllActive(blocks: map<nat, Block>)
    requires forall b :: b in blocks ==> blocks[b].refs != {}
    ensures |Active(blocks)| == |blocks|
  {
    assert Active(blocks) == blocks.Keys;
    assert |blocks.Keys| == |blocks|;
  }

  lemma VictimExists(blocks: map<nat, Block>)
    requires |Active(blocks)| < |blocks|
    ensures HasVictim(blocks)
  {
    if forall b :: b in blocks ==> blocks[b].refs != {} {
      AllActive(blocks);
      assert false;
    }
    var b :| b in blocks && blocks[b].refs == {};
    LeastTouched(blocks, b, (set c | c in blocks && blocks[c].refs == {}));
  }

  predicate Older(blocks: map<nat, Block>, b: nat, c: nat)
    requires b in blocks && c in blocks
  {
    blocks[b].touched < blocks[c].touched || (blocks[b].touched == blocks[c].touched && b <= c)
  }

  lemma {:induction false} LeastTouched(blocks: map<nat, Block>, b: nat, idle: set<nat>)
    requires b in idle && forall c :: c in idle ==> c in blocks && blocks[c].refs == {}
    requires forall c :: c in blocks && blocks[c].refs == {} && c !in idle ==> Older(blocks, b, c)
    ensures HasVictim(blocks)
    decreases |idle|
  {
    if c :| c in idle && !Older(blocks, b, c) {
      assert c in idle - {b};
      LeastTouched(blocks, c, idle - {b});
    } else {
      assert IsVictim(blocks, b);
    }
  }

  lemma TouchActive(blocks: map<nat, Block>, hits: seq<nat>, i: nat, clock: int)
    requires forall k :: 0 <= k < |hits| ==> hits[k] in blocks
    ensures |Active(Touch(blocks, hits, i, clock))| == |Active(blocks)| + |Elements(hits) - Active(blocks)|
  {
    var t := Touch(blocks, hits, i, clock);
    forall b | b in Elements(hits) ensures b in blocks && b in Active(t) {
      assert i in t[b].refs;
    }
    assert Active(t) == Active(blocks) + (Elements(hits) - Active(blocks));
  }

  /** What admission leaves of the blocks: room was made, hits are referenced, fresh blocks are the request's own. */
  ghost predicate Admitted(before: map<nat, Block>, after: map<nat, Block>, r: Request, i: nat, hits: seq<nat>, nextId: nat)
    requires |hits| <= |r.prompt|
  {
    && (forall b :: b in before && (b in hits || before[b].refs != {}) ==> b in after)
    && (forall b :: b in after && b < nextId ==>
          && b in before && after[b].computed == before[b].computed && after[b].identity == before[b].identity
          && after[b].refs == before[b].refs + (if b in hits then {i} else {}))
    && (forall b :: b >= nextId ==> (b in after <==> b < nextId + |r.prompt| - |hits| + |r.output|))
    && forall b :: b in after && b >= nextId ==>
         && !after[b].computed && after[b].refs == {i}
         && after[b].identity == NewIdentity(r.prompt, |hits| + b - nextId)
  }

  lemma AdmitBlocks(inst: Instance, time: int, w: Work, i: nat)
    requires inst.Valid() && i < |inst.requests| == |w.progress|
    requires IdsBelow(w.blocks, w.nextId) && Fits(inst, i, w.blocks)
    ensures var after := Admit(inst, time, w, i).blocks;
            && Admitted(w.blocks, after, inst.requests[i], i, Hits(inst.requests[i].prompt, w.blocks, 0), w.nextId)
            && |after| <= inst.kvBlocks
  {
    hide Evict, Hits, Active, Elements, Reserve, Touch, Admitted, Fits;
    var r := inst.requests[i];
    var hits := Hits(r.prompt, w.blocks, 0);
    RoomFor(inst, w.blocks, i, w.clock);
    RoomMade(inst.kvBlocks, w.blocks, r, i, hits, w.nextId, w.clock);
  }

  /** The fit check promises room for the new blocks beside everything referenced once the hits are taken. */
  lemma RoomFor(inst: Instance, blocks: map<nat, Block>, i: nat, clock: int)
    requires i < |inst.requests| && Fits(inst, i, blocks)
    ensures var hits := Hits(inst.requests[i].prompt, blocks, 0);
            && Needed(inst.requests[i], hits) <= inst.kvBlocks - |Active(Touch(blocks, hits, i, clock))|
            && forall k :: 0 <= k < |hits| ==> hits[k] in blocks
  {
    hide Touch, Active, Elements;
    var hits := Hits(inst.requests[i].prompt, blocks, 0);
    forall k | 0 <= k < |hits| ensures hits[k] in blocks {
      assert IsLeastHit(blocks, inst.requests[i].prompt[..0 + k + 1], hits[k]);
    }
    TouchActive(blocks, hits, i, clock);
  }

  lemma RoomMade(kv: int, before: map<nat, Block>, r: Request, i: nat, hits: seq<nat>, nextId: nat, clock: int)
    requires IdsBelow(before, nextId) && |hits| <= |r.prompt|
    requires Needed(r, hits) <= kv - |Active(Touch(before, hits, i, clock))|
    ensures var kept := Evict(kv, Touch(before, hits, i, clock), Needed(r, hits));
            var after := Reserve(kept, r, i, |hits|, Needed(r, hits), nextId, clock + |hits|);
            Admitted(before, after, r, i, hits, nextId) && |after| <= kv
  {
    hide Evict, Active, Reserve, Touch, Admitted, Reserved;
    var needed := Needed(r, hits);
    var kept := Evict(kv, Touch(before, hits, i, clock), needed);
    EvictMakesRoom(kv, Touch(before, hits, i, clock), needed);
    RoomKept(kv, before, hits, i, nextId, clock, needed);
    ReserveSize(kept, r, i, |hits|, needed, nextId, clock + |hits|);
    ReserveBlocks(kept, r, i, |hits|, needed, nextId, clock + |hits|);
    AdmittedFrom(before, kept, Reserve(kept, r, i, |hits|, needed, nextId, clock + |hits|), r, i, hits, nextId, clock);
  }

  /** Evicting for room takes no referenced block and adds none. */
  lemma RoomKept(kv: int, before: map<nat, Block>, hits: seq<nat>, i: nat, nextId: nat, clock: int, needed: int)
    requires IdsBelow(before, nextId)
    ensures var kept := Evict(kv, Touch(before, hits, i, clock), needed);
            KeepsReferenced(Touch(before, hits, i, clock), kept) && IdsBelow(kept, nextId)
  {
    hide Evict, Touch;
    EvictKeeps(kv, Touch(before, hits, i, clock), needed);
    TouchedIds(before, hits, i, clock);
  }

  lemma TouchedIds(blocks: map<nat, Block>, hits: seq<nat>, i: nat, clock: int)
    ensures Touch(blocks, hits, i, clock).Keys == blocks.Keys
  {}

  lemma AdmittedFrom(before: map<nat, Block>, kept: map<nat, Block>, after: map<nat, Block>, r: Request, i: nat,
                     hits: seq<nat>, nextId: nat, clock: int)
    requires |hits| <= |r.prompt| && IdsBelow(before, nextId)
    requires KeepsReferenced(Touch(before, hits, i, clock), kept)
    requires forall b :: b in after <==> b in kept || nextId <= b < nextId + Needed(r, hits)
    requires forall b :: b in kept ==> after[b] == kept[b]
    requires forall b :: nextId <= b < nextId + Needed(r, hits) ==>
               after[b] == Reserved(r, i, |hits|, b - nextId, clock + |hits|)
    ensures Admitted(before, after, r, i, hits, nextId)
  {
    var touched := Touch(before, hits, i, clock);
    assert touched.Keys == before.Keys;
    forall b | b in before && (b in hits || before[b].refs != {}) ensures b in after {
      assert b in touched;
      if b in hits { assert i in touched[b].refs; }
      assert touched[b].refs != {};
    }
  }

  lemma FreshElements(nextId: nat, needed: nat, b: nat)
    ensures b in Elements(FreshIds(nextId, needed)) <==> nextId <= b < nextId + needed
  {
    var ids := FreshIds(nextId, needed);
    if nextId <= b < nextId + needed { assert ids[b - nextId] == b; }
  }

  lemma ReserveBlocks(blocks: map<nat, Block>, r: Request, i: nat, have: nat, needed: nat, nextId: nat, clock: int)
    requires IdsBelow(blocks, nextId)
    ensures var after := Reserve(blocks, r, i, have, needed, nextId, clock);
            && (forall b :: b in after <==> b in blocks || nextId <= b < nextId + needed)
            && (forall b :: b in blocks ==> after[b] == blocks[b])
            && forall b :: nextId <= b < nextId + needed ==> after[b] == Reserved(r, i, have, b - nextId, clock)
  {
    hide Elements, Reserved;
    forall b: nat ensures b in Elements(FreshIds(nextId, needed)) <==> nextId <= b < nextId + needed {
      FreshElements(nextId, needed, b);
    }
  }

  lemma ReserveSize(blocks: map<nat, Block>, r: Request, i: nat, have: nat, needed: nat, nextId: nat, clock: int)
    requires IdsBelow(blocks, nextId)
    ensures |Reserve(blocks, r, i, have, needed, nextId, clock)| == |blocks| + needed
  {
    hide Elements, Reserved;
    var ids := Elements(FreshIds(nextId, needed));
    forall b | b in ids ensures b !in blocks { FreshElements(nextId, needed, b); }
    ElementsLength(FreshIds(nextId, needed));
    KeysSize(Reserve(blocks, r, i, have, needed, nextId, clock), blocks, ids);
  }

  lemma KeysSize<V>(after: map<nat, V>, before: map<nat, V>, more: set<nat>)
    requires after.Keys == before.Keys + more && before.Keys !! more
    ensures |after| == |before| + |more|
  {
    DisjointSize(before.Keys, more);
    assert |after.Keys| == |after| && |before.Keys| == |before|;
  }

  lemma DisjointSize(a: set<nat>, b: set<nat>)
    requires a !! b
    ensures |a + b| == |a| + |b|
  {}

  /** Another running request keeps what it holds. */
  lemma AdmitHolds(before: map<nat, Block>, after: map<nat, Block>, r: Request, i: nat, hits: seq<nat>, nextId: nat,
                   other: Request, j: nat, p: Progress)
    requires |hits| <= |r.prompt| && Admitted(before, after, r, i, hits, nextId) && IdsBelow(before, nextId)
    requires Holds(other, j, p, before)
    ensures Holds(other, j, p, after)
  {
    forall pos | 0 <= pos < |p.blockIds|
      ensures p.blockIds[pos] in after && j in after[p.blockIds[pos]].refs && SlotOK(other, p, pos, after[p.blockIds[pos]])
    {
      var b := p.blockIds[pos];
      assert b in before && j in before[b].refs;
    }
  }

  /** The record an admitted request starts with. */
  ghost function Admission(r: Request, time: int, before: map<nat, Block>, nextId: nat): Progress {
    var hits := Hits(r.prompt, before, 0);
    Progress(Some(time), |hits|, hits + FreshIds(nextId, Needed(r, hits)), [], None, |hits|)
  }

  /** One block of the admitted request's table: a computed hit, or reserved. */
  /** A reserved block at a position past the cached prefix. */
  lemma FreshSlot(before: map<nat, Block>, after: map<nat, Block>, r: Request, i: nat, p: Progress, nextId: nat, pos: nat)
    requires Admitted(before, after, r, i, Hits(r.prompt, before, 0), nextId)
    requires var n := |Hits(r.prompt, before, 0)|;
             && n <= pos < |r.prompt| + |r.output| && pos < |p.blockIds| && p.blockIds[pos] == nextId + (pos - n)
             && p.outputTimes == [] && p.prefillDone == n
    ensures p.blockIds[pos] in after && i in after[p.blockIds[pos]].refs && SlotOK(r, p, pos, after[p.blockIds[pos]])
  {
    hide Hits;
    assert p.blockIds[pos] in after;
  }

  lemma AdmitSlot(before: map<nat, Block>, after: map<nat, Block>, r: Request, i: nat, p: Progress, nextId: nat, pos: nat)
    requires IdsBelow(before, nextId) && Admitted(before, after, r, i, Hits(r.prompt, before, 0), nextId)
    requires pos < |p.blockIds| && p.outputTimes == [] && p.prefillDone == |Hits(r.prompt, before, 0)|
    requires p.blockIds == Hits(r.prompt, before, 0) + FreshIds(nextId, Needed(r, Hits(r.prompt, before, 0)))
    ensures p.blockIds[pos] in after && i in after[p.blockIds[pos]].refs && SlotOK(r, p, pos, after[p.blockIds[pos]])
  {
    var hits := Hits(r.prompt, before, 0);
    var n := |hits|;
    if pos < n {
      assert p.blockIds[pos] == hits[pos];
      assert IsLeastHit(before, r.prompt[..0 + pos + 1], hits[pos]);
    } else {
      assert p.blockIds[pos] == FreshIds(nextId, Needed(r, hits))[pos - n] == nextId + (pos - n);
      hide Hits, Admitted, SlotOK;
      FreshSlot(before, after, r, i, p, nextId, pos);
    }
  }

  /** The admitted request holds its table: hits computed, the rest reserved. */
  lemma AdmitTable(before: map<nat, Block>, after: map<nat, Block>, r: Request, i: nat, time: int, nextId: nat)
    requires IdsBelow(before, nextId)
    requires Admitted(before, after, r, i, Hits(r.prompt, before, 0), nextId)
    ensures var p := Admission(r, time, before, nextId);
            Holds(r, i, p, after) && Distinct(p.blockIds)
  {
    hide Hits, Admitted, SlotOK;
    var hits := Hits(r.prompt, before, 0);
    var p := Admission(r, time, before, nextId);
    HitsDistinct(r.prompt, before);
    HitsOld(r.prompt, before, nextId);
    DistinctConcat(hits, FreshIds(nextId, Needed(r, hits)));
    forall pos | 0 <= pos < |p.blockIds|
      ensures p.blockIds[pos] in after && i in after[p.blockIds[pos]].refs && SlotOK(r, p, pos, after[p.blockIds[pos]])
    {
      AdmitSlot(before, after, r, i, p, nextId, pos);
    }
  }

  lemma HitsOld(prompt: seq<int>, blocks: map<nat, Block>, nextId: nat)
    requires IdsBelow(blocks, nextId)
    ensures forall b :: b in Hits(prompt, blocks, 0) ==> b < nextId
  {
    var hits := Hits(prompt, blocks, 0);
    forall b | b in hits ensures b < nextId {
      var k := IndexOf(hits, b);
      assert IsLeastHit(blocks, prompt[..0 + k + 1], hits[k]);
    }
  }

  lemma AdmitLists(inst: Instance, progress: seq<Progress>, running: seq<nat>, i: nat, p: Progress)
    requires Scripts(inst, progress) && Listed(progress, running)
    requires i < |progress| && progress[i].admittedAt.None?
    requires Scripted(inst.requests[i], p) && p.admittedAt.Some?
    ensures i !in running
    ensures Scripts(inst, progress[i := p]) && Listed(progress[i := p], running + [i])
  {
    hide Scripted;
    if k :| 0 <= k < |running| && running[k] == i { assert false; }
    forall j | 0 <= j < |progress| && progress[i := p][j].admittedAt.Some? && j !in running + [i]
      ensures progress[i := p][j].completedAt.Some?
    {
      assert i in running + [i];
    }
  }

  lemma AdmitTables(inst: Instance, progress: seq<Progress>, running: seq<nat>, before: map<nat, Block>,
                    after: map<nat, Block>, i: nat, p: Progress, nextId: nat)
    requires Tables(inst, progress, running, before) && IdsBelow(before, nextId)
    requires i < |progress| && i !in running
    requires var r := inst.requests[i];
             Admitted(before, after, r, i, Hits(r.prompt, before, 0), nextId) && Holds(r, i, p, after)
    ensures Tables(inst, progress[i := p], running + [i], after)
  {
    hide Holds, Hits, Admitted;
    var all := running + [i];
    forall k | 0 <= k < |all| ensures Holds(inst.requests[all[k]], all[k], progress[i := p][all[k]], after) {
      if k < |running| {
        assert all[k] == running[k];
        AdmitHolds(before, after, inst.requests[i], i, Hits(inst.requests[i].prompt, before, 0), nextId,
                   inst.requests[running[k]], running[k], progress[running[k]]);
      }
    }
  }

  lemma AdmitCore(inst: Instance, time: int, w: Work, i: nat)
    requires inst.Valid() && Core(inst, w) && i < |inst.requests| == |w.progress|
    requires w.progress[i].admittedAt.None? && |w.running| < inst.maxSequences && Fits(inst, i, w.blocks)
    ensures Core(inst, Admit(inst, time, w, i))
  {
    hide Hits, Holds, Evict, Fits, Touch, Reserve, Scripts, Listed, Tables, Owned, Single, Admitted;
    var r := inst.requests[i];
    var a := Admit(inst, time, w, i);
    var p := Admission(r, time, w.blocks, w.nextId);
    AdmitBlocks(inst, time, w, i);
    AdmitTable(w.blocks, a.blocks, r, i, time, w.nextId);
    AdmitLists(inst, w.progress, w.running, i, p);
    AdmitTables(inst, w.progress, w.running, w.blocks, a.blocks, i, p, w.nextId);
    AdmitOwned(w.progress, w.running, w.blocks, a.blocks, r, i, p, Hits(r.prompt, w.blocks, 0), w.nextId);
    AdmitSingle(w.blocks, a.blocks, r, i, Hits(r.prompt, w.blocks, 0), w.nextId);
    AdmitIds(w.blocks, a.blocks, r, i, w.nextId);
  }

  lemma AdmitIds(before: map<nat, Block>, after: map<nat, Block>, r: Request, i: nat, nextId: nat)
    requires Admitted(before, after, r, i, Hits(r.prompt, before, 0), nextId)
    ensures IdsBelow(after, nextId + Needed(r, Hits(r.prompt, before, 0)))
  {}

  lemma AdmitSingle(before: map<nat, Block>, after: map<nat, Block>, r: Request, i: nat, hits: seq<nat>, nextId: nat)
    requires |hits| <= |r.prompt| && Admitted(before, after, r, i, hits, nextId) && Single(before)
    requires hits == Hits(r.prompt, before, 0)
    ensures Single(after)
  {
    hide Hits;
    forall b | b in after && !after[b].computed
      ensures after[b].refs != {} && forall j, k :: j in after[b].refs && k in after[b].refs ==> j == k
    {
      if b < nextId {
        assert after[b].refs == before[b].refs;
      }
    }
  }

  lemma AdmitOwned(progress: seq<Progress>, running: seq<nat>, before: map<nat, Block>, after: map<nat, Block>, r: Request,
                   i: nat, p: Progress, hits: seq<nat>, nextId: nat)
    requires i < |progress| && i !in running && |hits| <= |r.prompt|
    requires Owned(progress, running, before) && Admitted(before, after, r, i, hits, nextId)
    requires p.blockIds == hits + FreshIds(nextId, Needed(r, hits))
    ensures Owned(progress[i := p], running + [i], after)
  {
    var ids := FreshIds(nextId, Needed(r, hits));
    forall b, j | b in after && j in after[b].refs
      ensures Refers(progress[i := p], running + [i], b, j)
    {
      if b < nextId {
        if j in before[b].refs { assert Refers(progress, running, b, j); }
        else { assert b in hits; }
      } else {
        assert ids[b - nextId] == b && b in ids;
      }
    }
  }
}
