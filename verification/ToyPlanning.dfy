/**
 What one toy step does, said without its loops: who is served with how much, who is admitted, which blocks are
 evicted and touched, and when the step ends.
 */
module ToyPlanning {
  import opened Common
  import opened ToyModel
  import opened ToyInvariant
  import opened ToyService
  import opened ToyTransition
  import opened ToyStep

  // ---------------------------------------------------------------------------------------
  // The batch

  /** Tokens of the first `k` services. */
  function Spent(services: seq<Service>, k: nat): nat
    requires k <= |services|
  {
    if k == 0 then 0 else Spent(services, k - 1) + services[k - 1].count
  }

  lemma {:induction false} SpentPrefix(a: seq<Service>, b: seq<Service>, k: nat)
    requires k <= |a| && a <= b
    ensures Spent(a, k) == Spent(b, k)
  {
    if k > 0 { SpentPrefix(a, b, k - 1); }
  }

  /**
   Service `k`: prompt tokens as long as any are left, as many as the chunk size, the rest of the budget and the
   prompt allow; after that one output token.
   */
  ghost predicate Greedy(inst: Instance, w: Work, k: nat)
    requires k < |w.services| && |w.progress| == |inst.requests|
  {
    var v := w.services[k];
    && v.index < |inst.requests|
    && var left := |inst.requests[v.index].prompt| - w.progress[v.index].prefillDone;
       if left > 0 then
         v.prefill && v.count == Min(Min(inst.prefillChunk, left), inst.tokenBudget - Spent(w.services, k))
       else !v.prefill && v.count == 1
  }

  /** The requests are served in the order of the running list, each greedily, and the budget is accounted for. */
  ghost predicate Fills(inst: Instance, w: Work) {
    && |w.progress| == |inst.requests| && |w.services| <= |w.running|
    && w.budget == inst.tokenBudget - Spent(w.services, |w.services|)
    && forall k :: 0 <= k < |w.services| ==> w.services[k].index == w.running[k] && Greedy(inst, w, k)
  }

  lemma PlanFills(inst: Instance, w: Work, i: nat)
    requires inst.Valid() && Fills(inst, w) && i < |inst.requests|
    requires w.budget > 0 ==> |w.services| < |w.running| && w.running[|w.services|] == i
    ensures var r := Plan(inst, w, i);
            && Fills(inst, r) && r.running == w.running && r.progress == w.progress
            && (w.budget > 0 ==> |r.services| == |w.services| + 1) && (w.budget == 0 ==> r == w)
  {
    var r := Plan(inst, w, i);
    if w.budget > 0 {
      var n := |w.services|;
      assert w.services <= r.services;
      SpentPrefix(w.services, r.services, n);
      assert r.budget == inst.tokenBudget - Spent(r.services, n + 1);
      hide Spent;
      assert Greedy(inst, r, n);
      hide Plan;
      forall k | 0 <= k < n ensures Greedy(inst, r, k) {
        assert Greedy(inst, w, k);
        SpentPrefix(w.services, r.services, k);
      }
    }
  }

  lemma {:induction false} PlanAllFills(inst: Instance, w: Work, todo: seq<nat>)
    requires inst.Valid() && Fills(inst, w) && Below(todo, |inst.requests|)
    requires w.budget > 0 ==> todo == w.running[|w.services|..]
    ensures var r := PlanAll(inst, w, todo);
            && Fills(inst, r) && r.running == w.running && (r.budget > 0 ==> |r.services| == |r.running|)
    decreases |todo|
  {
    hide Greedy;
    if todo != [] {
      PlanFills(inst, w, todo[0]);
      hide Fills;
      PlanAllFills(inst, Plan(inst, w, todo[0]), todo[1..]);
    }
  }

  lemma AdmitFills(inst: Instance, time: int, w: Work, i: nat)
    requires inst.Valid() && Fills(inst, w) && i < |inst.requests| && i !in w.running
    ensures var a := Admit(inst, time, w, i);
            Fills(inst, a) && a.running == w.running + [i] && a.services == w.services && a.budget == w.budget
  {
    hide Hits, Evict, Reserve, Touch;
    var a := Admit(inst, time, w, i);
    forall k | 0 <= k < |a.services| ensures a.services[k].index == a.running[k] && Greedy(inst, a, k) {
      assert Greedy(inst, w, k);
      assert a.services[k].index == w.running[k] && w.running[k] in w.running;
    }
  }

  /** Why admission ended: nobody left to ask, no slot, no tokens, or the next request does not fit. */
  ghost predicate Ended(inst: Instance, w: Work, rest: seq<nat>)
    requires Below(rest, |inst.requests|)
  {
    || rest == []
    || |w.running| == inst.maxSequences
    || Spent(w.services, |w.services|) == inst.tokenBudget
    || !Fits(inst, rest[0], w.blocks)
  }

  /** From `w` to `r` the first `m` of `order` were admitted, every one of them with a service. */
  ghost predicate Admits(inst: Instance, w: Work, r: Work, order: seq<nat>, m: nat)
    requires Below(order, |inst.requests|) && m <= |order|
  {
    && Fills(inst, r) && r.running == w.running + order[..m]
    && (m > 0 ==> |r.services| == |r.running|) && (m == 0 ==> r == w)
    && Ended(inst, r, order[m..])
  }

  lemma AdmitsNone(inst: Instance, time: int, w: Work, order: seq<nat>)
    requires inst.Valid() && Fills(inst, w) && Below(order, |inst.requests|)
    requires order == [] || |w.running| == inst.maxSequences || w.budget == 0 || !Fits(inst, order[0], w.blocks)
    ensures AdmitAll(inst, time, w, order) == w && Admits(inst, w, w, order, 0)
  {
    hide Fits, Greedy;
    assert w.running + order[..0] == w.running && order[0..] == order;
  }

  lemma AdmitsMore(inst: Instance, w: Work, b: Work, r: Work, order: seq<nat>, n: nat)
    requires order != [] && Below(order, |inst.requests|) && n < |order|
    requires b.running == w.running + [order[0]] && |b.services| == |b.running|
    requires Admits(inst, b, r, order[1..], n)
    ensures Admits(inst, w, r, order, n + 1)
  {
    hide Fills, Fits;
    assert w.running + [order[0]] + order[1..][..n] == w.running + order[..n + 1];
    assert order[1..][n..] == order[n + 1..];
  }

  lemma AdmitServes(inst: Instance, time: int, w: Work, order: seq<nat>) returns (b: Work)
    requires inst.Valid() && Fills(inst, w) && Below(order, |inst.requests|) && Distinct(order) && order != []
    requires forall k :: 0 <= k < |order| ==> order[k] !in w.running
    requires w.budget > 0 && |w.services| == |w.running| < inst.maxSequences && Fits(inst, order[0], w.blocks)
    ensures && Fills(inst, b) && b.running == w.running + [order[0]] && |b.services| == |b.running|
            && (forall k :: 0 <= k < |order[1..]| ==> order[1..][k] !in b.running)
            && Below(order[1..], |inst.requests|) && Distinct(order[1..]) && |b.progress| == |inst.requests|
            && |b.running| <= inst.maxSequences
    ensures AdmitAll(inst, time, w, order) == AdmitAll(inst, time, b, order[1..])
  {
    hide Fits, Greedy, Hits, Evict, Reserve, Touch;
    var a := Admit(inst, time, w, order[0]);
    b := Plan(inst, a, order[0]);
    AdmitFills(inst, time, w, order[0]);
    PlanFills(inst, a, order[0]);
    AdmitAllFirst(inst, time, w, order);
    hide Fills, Admit, Plan, AdmitAll;
    forall k | 0 <= k < |order[1..]| ensures order[1..][k] !in w.running + [order[0]] {
      assert order[1..][k] == order[k + 1];
    }
    assert forall k :: 0 <= k < |order[1..]| ==> order[1..][k] == order[k + 1];
  }

  lemma FillsSizes(inst: Instance, w: Work, order: seq<nat>)
    requires Fills(inst, w) && Below(order, |inst.requests|)
    ensures |w.progress| == |inst.requests| && (order != [] ==> order[0] < |inst.requests|)
  {
  }

  /** The admission loop admits the first `m` of `order` and serves every one of them. */
  lemma {:induction false} AdmitAllFills(inst: Instance, time: int, w: Work, order: seq<nat>) returns (m: nat)
    requires inst.Valid() && Fills(inst, w) && Below(order, |inst.requests|) && Distinct(order)
    requires forall k :: 0 <= k < |order| ==> order[k] !in w.running
    requires w.budget > 0 ==> |w.services| == |w.running|
    requires |w.running| <= inst.maxSequences
    ensures m <= |order| && Admits(inst, w, AdmitAll(inst, time, w, order), order, m)
    decreases |order|
  {
    hide *;
    FillsSizes(inst, w, order);
    if order == [] || |w.running| == inst.maxSequences || w.budget == 0 || !Fits(inst, order[0], w.blocks) {
      m := 0;
      AdmitsNone(inst, time, w, order);
    } else {
      var b := AdmitServes(inst, time, w, order);
      var n := AdmitAllFills(inst, time, b, order[1..]);
      AdmitsMore(inst, w, b, AdmitAll(inst, time, b, order[1..]), order, n);
      m := n + 1;
    }
  }

  /**
   The batch. Requests are served in the order of the running list, which is extended by the first `m` of the
   waiting order; each gets prompt tokens while any are left, as many as the chunk, the remaining budget and the
   prompt allow, and otherwise one output token. Nobody running is left out unless the budget is used up, nobody
   is admitted without being served, and admission ends only for want of a request, a slot, tokens or blocks.
   */
  lemma BatchServices(inst: Instance, s: State, order: seq<nat>) returns (m: nat)
    requires StateInv(inst, s) && Legal(inst, s, order)
    ensures Below(s.running, |inst.requests|) && Below(order, |inst.requests|) && m <= |order|
    ensures var w := Batch(inst, s, order);
            && |w.progress| == |inst.requests| && |w.services| <= |w.running|
            && w.running == s.running + order[..m]
            && (forall k :: 0 <= k < |w.services| ==> w.services[k].index == w.running[k] && Greedy(inst, w, k))
            && Spent(w.services, |w.services|) <= inst.tokenBudget
            && (|w.services| == |w.running| || (m == 0 && Spent(w.services, |w.services|) == inst.tokenBudget))
            && Ended(inst, w, order[m..])
  {
    hide Core, AdmitAll, Scripted, Holds, Fits, Hits, Evict, Reserve, Touch, Greedy;
    OpenedReady(inst, s);
    var w0 := Opened(inst, s);
    CoreSizes(inst, w0);
    var w1 := PlanAll(inst, w0, s.running);
    assert Fills(inst, w0);
    assert s.running == w0.running[|w0.services|..];
    PlanAllFills(inst, w0, s.running);
    NotRunning(inst, s, order);
    m := AdmitAllFills(inst, s.time, w1, order);
    BatchServes(inst, s, order);
  }

  lemma NotRunning(inst: Instance, s: State, order: seq<nat>)
    requires StateInv(inst, s) && Legal(inst, s, order)
    ensures forall k :: 0 <= k < |order| ==> order[k] !in s.running
    ensures Distinct(order)
  {
    assert |s.progress| == |inst.requests| && Core(inst, Opened(inst, s));
    hide Core;
    forall k | 0 <= k < |order| ensures order[k] !in s.running {
      FreshNotRunning(inst, Opened(inst, s), order[k]);
    }
  }

  // ---------------------------------------------------------------------------------------
  // Room, eviction and touch times

  /**
   A request fits exactly if its missing prompt and its whole output find room beside the blocks that are
   referenced once it has taken its hits.
   */
  lemma FitsIffRoom(inst: Instance, i: nat, blocks: map<nat, Block>, clock: int)
    requires i < |inst.requests|
    ensures var r, hits := inst.requests[i], Hits(inst.requests[i].prompt, blocks, 0);
            Fits(inst, i, blocks) <==>
              |r.prompt| + |r.output| - |hits| + |Active(Touch(blocks, hits, i, clock))| <= inst.kvBlocks
  {
    hide Touch, Active, Elements;
    var hits := Hits(inst.requests[i].prompt, blocks, 0);
    forall k | 0 <= k < |hits| ensures hits[k] in blocks {
      assert IsLeastHit(blocks, inst.requests[i].prompt[..0 + k + 1], hits[k]);
    }
    TouchActive(blocks, hits, i, clock);
  }

  /** `r` is `blocks` without some unreferenced blocks, each touched before every unreferenced one that is left. */
  ghost predicate OldestGone(blocks: map<nat, Block>, r: map<nat, Block>) {
    && KeepsReferenced(blocks, r)
    && forall b, c :: b in blocks && b !in r && c in r && blocks[c].refs == {} ==> Older(blocks, b, c) && b != c
  }

  /** Eviction takes as few blocks as make the room asked for, the least recently touched ones. */
  lemma {:induction false} EvictOldest(kv: int, blocks: map<nat, Block>, needed: int)
    requires needed <= kv - |Active(blocks)|
    ensures var r := Evict(kv, blocks, needed);
            OldestGone(blocks, r) && |r| == Min(|blocks|, kv - needed)
    decreases |blocks|
  {
    hide HasVictim, IsVictim;
    if kv - |blocks| < needed {
      VictimExists(blocks);
      var b := Victim(blocks);
      VictimIdle(blocks, b);
      SmallerMap(blocks, b);
      EvictOldest(kv, blocks - {b}, needed);
      hide Evict, OldestGone;
      OldestFirst(blocks, b, Evict(kv, blocks - {b}, needed));
    } else {
      assert Evict(kv, blocks, needed) == blocks;
    }
  }

  lemma OldestFirst(blocks: map<nat, Block>, v: nat, r: map<nat, Block>)
    requires IsVictim(blocks, v) && OldestGone(blocks - {v}, r)
    ensures OldestGone(blocks, r)
  {
    forall b, c | b in blocks && b !in r && c in r && blocks[c].refs == {} ensures Older(blocks, b, c) && b != c {
      if b != v { assert b in blocks - {v} && Older(blocks - {v}, b, c); }
    }
  }

  /** The table `ids`, touched in order from `clock` on. */
  ghost predicate TouchedInOrder(blocks: map<nat, Block>, ids: seq<nat>, clock: int) {
    forall pos :: 0 <= pos < |ids| ==> ids[pos] in blocks && blocks[ids[pos]].touched == clock + 1 + pos
  }

  /** No block outside `ids` is touched. */
  ghost predicate OthersUntouched(before: map<nat, Block>, after: map<nat, Block>, ids: seq<nat>) {
    forall b :: b in before && b in after && b !in ids ==> after[b].touched == before[b].touched
  }

  lemma IndexAt(s: seq<nat>, k: nat)
    requires Distinct(s) && k < |s|
    ensures IndexOf(s, s[k]) == k && LastIndexOf(s, s[k]) == k
  {
  }

  /** Hits touched, some blocks evicted, then the rest reserved: the table is touched in order. */
  lemma TouchedTable(before: map<nat, Block>, kept: map<nat, Block>, after: map<nat, Block>, r: Request, i: nat,
                     hits: seq<nat>, needed: nat, nextId: nat, clock: int)
    requires Distinct(hits) && (forall b :: b in hits ==> b in before) && IdsBelow(before, nextId)
    requires KeepsReferenced(Touch(before, hits, i, clock), kept)
    requires forall b :: b in after <==> b in kept || nextId <= b < nextId + needed
    requires forall b :: b in kept ==> after[b] == kept[b]
    requires forall b :: nextId <= b < nextId + needed ==> after[b] == Reserved(r, i, |hits|, b - nextId, clock + |hits|)
    ensures TouchedInOrder(after, hits + FreshIds(nextId, needed), clock)
    ensures OthersUntouched(before, after, hits + FreshIds(nextId, needed))
  {
    var ids, touched := hits + FreshIds(nextId, needed), Touch(before, hits, i, clock);
    forall pos | 0 <= pos < |ids| ensures ids[pos] in after && after[ids[pos]].touched == clock + 1 + pos {
      if pos < |hits| {
        IndexAt(hits, pos);
        assert ids[pos] == hits[pos] && hits[pos] in before && i in touched[hits[pos]].refs;
        assert hits[pos] in kept;
      } else {
        assert ids[pos] == nextId + (pos - |hits|);
      }
    }
    forall b | b in before && b in after && b !in ids ensures after[b].touched == before[b].touched {
      assert b !in hits by { NotInPart(hits, FreshIds(nextId, needed), b); }
      assert b in kept;
    }
  }

  lemma NotInPart(a: seq<nat>, b: seq<nat>, x: nat)
    requires x !in a + b
    ensures x !in a
  {
    assert forall k :: 0 <= k < |a| ==> (a + b)[k] == a[k];
  }

  lemma HitsIn(prompt: seq<int>, blocks: map<nat, Block>)
    ensures |Hits(prompt, blocks, 0)| <= |prompt| && forall b :: b in Hits(prompt, blocks, 0) ==> b in blocks
  {
    var hits := Hits(prompt, blocks, 0);
    forall b | b in hits ensures b in blocks {
      var k := IndexOf(hits, b);
      assert IsLeastHit(blocks, prompt[..0 + k + 1], hits[k]);
    }
  }

  lemma AdmitParts(inst: Instance, time: int, w: Work, i: nat)
    requires i < |inst.requests| == |w.progress|
    ensures var a, r, hits := Admit(inst, time, w, i), inst.requests[i], Hits(inst.requests[i].prompt, w.blocks, 0);
            var ids := hits + FreshIds(w.nextId, Needed(r, hits));
            && |a.progress| == |w.progress| && a.progress[i] == Progress(Some(time), |hits|, ids, [], None, |hits|)
            && |ids| == |r.prompt| + |r.output| && a.clock == w.clock + |ids|
            && a.blocks == Reserve(Evict(inst.kvBlocks, Touch(w.blocks, hits, i, w.clock), Needed(r, hits)), r, i, |hits|,
                                   Needed(r, hits), w.nextId, w.clock + |hits|)
  {
    hide Hits, Reserve, Evict, Touch;
  }

  lemma IdsOf(inst: Instance, w: Work)
    requires Core(inst, w)
    ensures IdsBelow(w.blocks, w.nextId)
  {
  }

  lemma TouchedReserve(kv: int, w: Work, r: Request, i: nat, hits: seq<nat>, needed: nat)
    requires Distinct(hits) && (forall b :: b in hits ==> b in w.blocks) && IdsBelow(w.blocks, w.nextId)
    ensures var after := Reserve(Evict(kv, Touch(w.blocks, hits, i, w.clock), needed), r, i, |hits|, needed, w.nextId,
                                 w.clock + |hits|);
            && TouchedInOrder(after, hits + FreshIds(w.nextId, needed), w.clock)
            && OthersUntouched(w.blocks, after, hits + FreshIds(w.nextId, needed))
  {
    hide *;
    RoomKept(kv, w.blocks, hits, i, w.nextId, w.clock, needed);
    var kept := Evict(kv, Touch(w.blocks, hits, i, w.clock), needed);
    ReserveBlocks(kept, r, i, |hits|, needed, w.nextId, w.clock + |hits|);
    TouchedTable(w.blocks, kept, Reserve(kept, r, i, |hits|, needed, w.nextId, w.clock + |hits|), r, i, hits, needed,
                 w.nextId, w.clock);
  }

  /** The record of a request that starts with these hits, and its table touched block by block, hits first. */
  ghost predicate StartsWith(w: Work, a: Work, r: Request, i: nat, hits: seq<nat>, time: int) {
    && i < |a.progress|
    && var p := a.progress[i];
    && hits <= p.blockIds && |p.blockIds| == |r.prompt| + |r.output| && p.prefillDone == p.cachedTokens == |hits|
    && p.admittedAt == Some(time) && p.outputTimes == [] && p.completedAt.None?
    && TouchedInOrder(a.blocks, p.blockIds, w.clock) && OthersUntouched(w.blocks, a.blocks, p.blockIds)
    && a.clock == w.clock + |p.blockIds|
  }

  /**
   Admission: the request starts with its hits computed and cached, its table is touched block by block, hits
   first, and nothing else is touched; the clock moves on by one per block.
   */
  lemma AdmitStamps(inst: Instance, time: int, w: Work, i: nat)
    requires inst.Valid() && Core(inst, w) && i < |inst.requests| == |w.progress| && Fits(inst, i, w.blocks)
    ensures StartsWith(w, Admit(inst, time, w, i), inst.requests[i], i, Hits(inst.requests[i].prompt, w.blocks, 0), time)
  {
    hide *;
    IdsOf(inst, w);
    var r := inst.requests[i];
    var hits := Hits(r.prompt, w.blocks, 0);
    HitsIn(r.prompt, w.blocks);
    HitsDistinct(r.prompt, w.blocks);
    AdmitParts(inst, time, w, i);
    NeededIs(r, hits);
    TouchedReserve(inst.kvBlocks, w, r, i, hits, Needed(r, hits));
    StartsMade(w, Admit(inst, time, w, i), r, i, hits, time);
  }

  lemma StartsMade(w: Work, a: Work, r: Request, i: nat, hits: seq<nat>, time: int)
    requires i < |a.progress| && |hits| <= |r.prompt|
    requires var ids := hits + FreshIds(w.nextId, |r.prompt| + |r.output| - |hits|);
             && a.progress[i] == Progress(Some(time), |hits|, ids, [], None, |hits|) && a.clock == w.clock + |ids|
             && TouchedInOrder(a.blocks, ids, w.clock) && OthersUntouched(w.blocks, a.blocks, ids)
    ensures StartsWith(w, a, r, i, hits, time)
  {
    hide TouchedInOrder, OthersUntouched;
  }

  lemma NeededIs(r: Request, hits: seq<nat>)
    ensures Needed(r, hits) == |r.prompt| + |r.output| - |hits|
  {
  }

  /** Release: the blocks of the table are touched in table order, and nothing else is. */
  lemma ReleaseStamps(w: Work, i: nat)
    requires i < |w.progress| && i in w.running && Distinct(w.progress[i].blockIds)
    requires forall pos :: 0 <= pos < |w.progress[i].blockIds| ==> w.progress[i].blockIds[pos] in w.blocks
    ensures var a, ids := Release(w, i), w.progress[i].blockIds;
            TouchedInOrder(a.blocks, ids, w.clock) && OthersUntouched(w.blocks, a.blocks, ids) && a.clock == w.clock + |ids|
  {
    var a, ids := Release(w, i), w.progress[i].blockIds;
    forall pos | 0 <= pos < |ids| ensures ids[pos] in a.blocks && a.blocks[ids[pos]].touched == w.clock + 1 + pos {
      IndexAt(ids, pos);
    }
  }

  // ---------------------------------------------------------------------------------------
  // Time

  /** The step costs this much for one service of this kind and size. */
  ghost predicate Costs(inst: Instance, v: Service, c: int) {
    if v.prefill then c == v.count * inst.prefillTicks else c == inst.decodeTicks
  }

  /** `t` ends the longest service of the batch after the overhead, counted from `time`. */
  ghost predicate EndsWithLongest(inst: Instance, services: seq<Service>, time: int, t: int) {
    && (exists k :: 0 <= k < |services| && Costs(inst, services[k], t - time - inst.overhead))
    && forall k, c :: 0 <= k < |services| && Costs(inst, services[k], c) ==> c <= t - time - inst.overhead
  }

  /** The next arrival after `s.time` of a request not admitted. */
  ghost predicate IsNextArrival(inst: Instance, s: State, t: int)
    requires |s.progress| == |inst.requests|
  {
    && (exists i :: 0 <= i < |inst.requests| && s.progress[i].admittedAt.None? && inst.requests[i].arrival == t > s.time)
    && forall i :: 0 <= i < |inst.requests| && s.progress[i].admittedAt.None? && inst.requests[i].arrival > s.time ==>
         t <= inst.requests[i].arrival
  }

  /**
   A step that serves somebody ends with its longest service, after the overhead; every record is the planned
   one, advanced by its own service at that time. A step that serves nobody moves to the next arrival, if there
   is one, and changes nothing else.
   */
  lemma StepTime(inst: Instance, s: State, order: seq<nat>)
    requires StateInv(inst, s) && Legal(inst, s, order)
    ensures Below(s.running, |inst.requests|) && Below(order, |inst.requests|) && |s.progress| == |inst.requests|
    ensures var w, t := Batch(inst, s, order), Next(inst, s, order);
            if w.services != [] then
              && EndsWithLongest(inst, w.services, s.time, t.time)
              && AllEntered(s.progress, w.progress, order, s.time)
              && AllAdvanced(inst, w.progress, t.progress, w.services, t.time)
            else t == s.(time := t.time) && (t.time == s.time || IsNextArrival(inst, s, t.time))
                 && (forall u :: IsNextArrival(inst, s, u) ==> t.time == u)
  {
    StateScripts(inst, s);
    ServedStep(inst, s, order);
    hide *;
    if Batch(inst, s, order).services != [] { BusyTime(inst, s, order); } else { IdleTime(inst, s, order); }
  }

  lemma BusyTime(inst: Instance, s: State, order: seq<nat>)
    requires inst.Valid() && |s.progress| == |inst.requests|
    requires Below(s.running, |inst.requests|) && Below(order, |inst.requests|)
    requires Batch(inst, s, order).services != []
    ensures EndsWithLongest(inst, Batch(inst, s, order).services, s.time, Next(inst, s, order).time)
  {
    hide Batch, MaxCost, ServeAll, ReleaseAll, EndsWithLongest;
    LongestEnds(inst, Batch(inst, s, order).services, s.time);
  }

  lemma IdleTime(inst: Instance, s: State, order: seq<nat>)
    requires inst.Valid() && |s.progress| == |inst.requests|
    requires Below(s.running, |inst.requests|) && Below(order, |inst.requests|)
    requires Batch(inst, s, order).services == []
    ensures var t := Next(inst, s, order);
            && t == s.(time := t.time) && (t.time == s.time || IsNextArrival(inst, s, t.time))
            && forall u :: IsNextArrival(inst, s, u) ==> t.time == u
  {
    hide Batch, MaxCost, ServeAll, ReleaseAll, IsNextArrival, Future;
    NextArrivals(inst, s);
  }

  lemma LongestEnds(inst: Instance, services: seq<Service>, time: int)
    requires services != []
    ensures EndsWithLongest(inst, services, time, time + inst.overhead + MaxCost(inst, services))
  {
    var c := MaxCost(inst, services);
    var k :| 0 <= k < |services| && Cost(inst, services[k]) == c;
    hide MaxCost;
    assert Costs(inst, services[k], c);
    forall j, d | 0 <= j < |services| && Costs(inst, services[j], d) ensures d <= c {
      assert Cost(inst, services[j]) == d;
    }
  }

  lemma NextArrivals(inst: Instance, s: State)
    requires |s.progress| == |inst.requests|
    ensures Future(inst, s) != {} ==> IsNextArrival(inst, s, Least(Future(inst, s)))
    ensures forall u :: IsNextArrival(inst, s, u) ==> Future(inst, s) != {} && u == Least(Future(inst, s))
  {
    var future := Future(inst, s);
    assert forall i :: 0 <= i < |inst.requests| && s.progress[i].admittedAt.None? && inst.requests[i].arrival > s.time ==>
      inst.requests[i].arrival in future;
    if future != {} {
      assert IsLeast(future, Least(future));
    }
    forall u | IsNextArrival(inst, s, u) ensures future != {} && u == Least(future) {
      assert u in future;
    }
  }
}
