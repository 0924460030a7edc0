/** Each step of schedule keeps the engine invariant. */
module ScheduleSteps {
  import opened Common
  import opened BlockPool
  import opened Scheduling

  /** Every table entry of a running request is held. */
  lemma HeldHas(s: EngineState, i: nat)
    requires forall j :: 0 <= j < |s.running| ==> s.running[j] in s.prog
    requires i < |s.running|
    ensures forall k :: 0 <= k < |s.prog[s.running[i]].table| ==>
              s.prog[s.running[i]].table[k] in Held(s.running, s.prog)
  {
    var t := s.prog[s.running[i]].table;
    HeldSplit(s.running, i, s.prog);
    forall k | 0 <= k < |t| ensures t[k] in Held(s.running, s.prog) {
      assert t[k] in multiset(t);
    }
  }

  // ---------------------------------------------------------------------------------------
  // Growing the next running request

  ghost predicate CanGrow(trace: seq<Request>, cfg: Config, s: EngineState, plan: seq<Chunk>, tokens: nat) {
    && Inv(trace, cfg, s, 0, plan) && AllComplete(trace, s, plan) && |plan| < |s.running|
    && var r := s.running[|plan|];
       1 <= tokens <= Length(trace, s, r) - s.prog[r].computed
       && Need(s, r, s.prog[r].computed + tokens) <= |s.pool.free|
  }

  function GrowNext(trace: seq<Request>, s: EngineState, i: nat, tokens: nat): EngineState
    requires Defined(trace, s) && i < |s.running|
    requires Need(s, s.running[i], s.prog[s.running[i]].computed + tokens) <= |s.pool.free|
  {
    Grow(trace, s, s.running[i], s.prog[s.running[i]].computed + tokens)
  }

  lemma GrowOwned(trace: seq<Request>, cfg: Config, s: EngineState, i: nat, tokens: nat)
    requires Defined(trace, s) && Owned(trace, cfg, s) && Distinct(s.running) && i < |s.running|
    requires Need(s, s.running[i], s.prog[s.running[i]].computed + tokens) <= |s.pool.free|
    ensures var t := GrowNext(trace, s, i, tokens); Defined(trace, t) && Owned(trace, cfg, t)
  {
    hide Valid, Take, Unshared, Held;
    var r := s.running[i];
    var p := s.prog[r];
    var n := Max(0, Need(s, r, p.computed + tokens));
    TakeValid(s.pool, Held(s.running, s.prog), n);
    var (pool, bs) := Take(s.pool, n);
    HeldGrow(s.running, i, s.prog, bs);
    assert Below(bs, |pool.ref|);
  }

  lemma GrowKeys(trace: seq<Request>, cfg: Config, s: EngineState, i: nat, tokens: nat)
    requires Defined(trace, s) && Owned(trace, cfg, s) && OwnKeys(trace, s) && i < |s.running|
    requires Need(s, s.running[i], s.prog[s.running[i]].computed + tokens) <= |s.pool.free|
    requires Defined(trace, GrowNext(trace, s, i, tokens))
    ensures OwnKeys(trace, GrowNext(trace, s, i, tokens))
  {
    hide Valid, Take, Unshared, Held, KeysFit;
    var r := s.running[i];
    var n := Max(0, Need(s, r, s.prog[r].computed + tokens));
    var held := Held(s.running, s.prog);
    TakeValid(s.pool, held, n);
    var (pool, bs) := Take(s.pool, n);
    var t := GrowNext(trace, s, i, tokens);
    forall j | 0 <= j < |t.running|
      ensures KeysFit(trace, t.pool, t.running[j], t.prog[t.running[j]].computed, t.prog[t.running[j]].table)
    {
      HeldHas(s, j);
      TakenKeysFit(trace, s.pool, pool, bs, s.running[j], s.prog[s.running[j]].computed, s.prog[s.running[j]].table);
    }
  }

  /** Fresh blocks carry no key and leave the keys of held blocks alone. */
  lemma TakenKeysFit(trace: seq<Request>, pool: Pool, pool': Pool, bs: seq<nat>, r: nat, computed: nat, table: seq<nat>)
    requires r < |trace| && Shape(pool) && Shape(pool') && |pool.ref| == |pool'.ref|
    requires Below(table, |pool.ref|) && Below(bs, |pool.ref|)
    requires forall b :: 0 <= b < |pool.key| ==> pool'.key[b] == if b in bs then None else pool.key[b]
    requires KeysFit(trace, pool, r, computed, table)
    ensures KeysFit(trace, pool', r, computed, table) && KeysFit(trace, pool', r, computed, table + bs)
  {
  }

  lemma GrowRecords(trace: seq<Request>, s: EngineState, i: nat, tokens: nat)
    requires Defined(trace, s) && Records(trace, s) && Apart(s) && i < |s.running|
    requires Need(s, s.running[i], s.prog[s.running[i]].computed + tokens) <= |s.pool.free|
    requires Defined(trace, GrowNext(trace, s, i, tokens))
    ensures Records(trace, GrowNext(trace, s, i, tokens))
    ensures Order(GrowNext(trace, s, i, tokens)) == Order(s)
  {
    hide Take;
  }

  lemma GrowPlans(trace: seq<Request>, cfg: Config, s: EngineState, plan: seq<Chunk>, tokens: nat)
    requires Defined(trace, s) && Distinct(s.running) && Shape(s.pool)
    requires Plans(trace, s, 0, plan) && AllComplete(trace, s, plan) && |plan| < |s.running|
    requires 1 <= tokens <= Length(trace, s, s.running[|plan|]) - s.prog[s.running[|plan|]].computed
    requires Need(s, s.running[|plan|], s.prog[s.running[|plan|]].computed + tokens) <= |s.pool.free|
    requires Defined(trace, GrowNext(trace, s, |plan|, tokens))
    ensures Plans(trace, GrowNext(trace, s, |plan|, tokens), 0, plan + [Chunk(s.running[|plan|], tokens)])
  {
    hide Take, Below, Shape, CeilBlocks;
    var i := |plan|;
    var r := s.running[i];
    var t := GrowNext(trace, s, i, tokens);
    GrowTable(trace, s, i, tokens);
    assert Planned(0, plan, i) == 0;
    forall j | 0 <= j < |s.running| && j != i
      ensures t.prog[s.running[j]] == s.prog[s.running[j]]
      ensures Planned(0, plan + [Chunk(r, tokens)], j) == Planned(0, plan, j)
    {
    }
  }

  /** The table of the request that grows covers its tokens, old and new. */
  lemma GrowTable(trace: seq<Request>, s: EngineState, i: nat, tokens: nat)
    requires Defined(trace, s) && i < |s.running|
    requires var p := s.prog[s.running[i]]; |p.table| == CeilBlocks(p.computed) && Need(s, s.running[i], p.computed + tokens) <= |s.pool.free|
    ensures var t, x := GrowNext(trace, s, i, tokens), s.running[i];
            x in t.prog && t.prog[x].computed == s.prog[x].computed && |t.prog[x].table| == CeilBlocks(s.prog[x].computed + tokens)
  {
    var x := s.running[i];
    TakeLength(s.pool, Max(0, Need(s, x, s.prog[x].computed + tokens)));
    hide Take;
  }

  lemma {:induction false} TakeLength(p: Pool, n: nat)
    requires Shape(p) && n <= |p.free|
    ensures |Take(p, n).1| == n
    decreases n
  {
    if n > 0 { TakeLength(TakeOne(p), n - 1); }
  }

  lemma GrowKeepsInv(trace: seq<Request>, cfg: Config, s: EngineState, plan: seq<Chunk>, tokens: nat)
    requires CanGrow(trace, cfg, s, plan, tokens)
    ensures Inv(trace, cfg, GrowNext(trace, s, |plan|, tokens), 0, plan + [Chunk(s.running[|plan|], tokens)])
    ensures Order(GrowNext(trace, s, |plan|, tokens)) == Order(s)
  {
    hide Owned, Records, Plans, OwnKeys, AllComplete, Take;
    QueuesApart(s);
    GrowOwned(trace, cfg, s, |plan|, tokens);
    GrowKeys(trace, cfg, s, |plan|, tokens);
    GrowRecords(trace, s, |plan|, tokens);
    GrowPlans(trace, cfg, s, plan, tokens);
  }

  // ---------------------------------------------------------------------------------------
  // Preempting the tail

  lemma PreemptOwned(trace: seq<Request>, cfg: Config, s: EngineState)
    requires Defined(trace, s) && Owned(trace, cfg, s) && Distinct(s.running) && s.running != []
    ensures var t := PreemptTail(trace, s);
            Defined(trace, t) && Owned(trace, cfg, t) && s.pool.free <= t.pool.free && s.pool.key == t.pool.key
  {
    hide Valid, Release, Unshared, Below;
    var n := |s.running| - 1;
    var p := s.prog[s.running[n]];
    var t := PreemptTail(trace, s);
    HeldFrame(t.running, s.prog, t.prog);
    HeldLast(s.running, s.prog);
    ReleaseValid(s.pool, Held(s.running, s.prog), p.table);
    PreemptDefined(trace, s);
  }

  lemma HeldLast(running: seq<nat>, prog: map<nat, Progress>)
    requires running != [] && forall i :: 0 <= i < |running| ==> running[i] in prog
    ensures var n := |running| - 1;
            var table := prog[running[n]].table;
            multiset(table) <= Held(running, prog)
            && Held(running, prog) - multiset(table) == Held(running[..n], prog)
  {
  }

  lemma PreemptDefined(trace: seq<Request>, s: EngineState)
    requires Defined(trace, s) && s.running != []
    requires |Release(s.pool, s.prog[s.running[|s.running| - 1]].table).ref| == |s.pool.ref|
    ensures Defined(trace, PreemptTail(trace, s))
  {
    hide Release, Shape;
  }

  lemma PreemptKeys(trace: seq<Request>, cfg: Config, s: EngineState)
    requires Defined(trace, s) && Distinct(s.running) && s.running != [] && OwnKeys(trace, s)
    requires var t := PreemptTail(trace, s); Defined(trace, t) && s.pool.key == t.pool.key
    ensures OwnKeys(trace, PreemptTail(trace, s))
  {
    hide Release;
    var t := PreemptTail(trace, s);
    forall j | 0 <= j < |t.running|
      ensures KeysFit(trace, t.pool, t.running[j], t.prog[t.running[j]].computed, t.prog[t.running[j]].table)
    {
      assert t.prog[t.running[j]] == s.prog[s.running[j]];
    }
  }

  lemma PreemptOrder(trace: seq<Request>, s: EngineState)
    requires Defined(trace, s) && s.running != []
    ensures Order(PreemptTail(trace, s)) == Order(s)
  {
    hide Release;
    var n := |s.running| - 1;
    assert s.running == s.running[..n] + [s.running[n]];
  }

  lemma PreemptRecords(trace: seq<Request>, s: EngineState, plan: seq<Chunk>)
    requires Defined(trace, s) && Records(trace, s) && Plans(trace, s, 0, plan) && Apart(s) && |plan| < |s.running|
    requires Defined(trace, PreemptTail(trace, s))
    ensures Records(trace, PreemptTail(trace, s)) && Plans(trace, PreemptTail(trace, s), 0, plan)
  {
    hide Release, CeilBlocks, Shape, Below;
    var n := |s.running| - 1;
    var t := PreemptTail(trace, s);
    assert forall j :: 0 <= j < n ==> t.running[j] == s.running[j] && t.prog[t.running[j]] == s.prog[s.running[j]];
    forall j | 0 <= j < |t.waiting|
      ensures var p := t.prog[t.waiting[j]]; p.doneAt.None? && p.computed == 0 && p.table == []
    {
      if j > 0 { assert t.waiting[j] == s.waiting[j - 1]; }
    }
  }

  lemma PreemptKeepsInv(trace: seq<Request>, cfg: Config, s: EngineState, plan: seq<Chunk>)
    requires Inv(trace, cfg, s, 0, plan) && |plan| < |s.running|
    ensures Inv(trace, cfg, PreemptTail(trace, s), 0, plan)
    ensures Order(PreemptTail(trace, s)) == Order(s)
    ensures s.pool.free <= PreemptTail(trace, s).pool.free
  {
    hide Owned, Records, Plans, OwnKeys, Release;
    QueuesApart(s);
    PreemptOwned(trace, cfg, s);
    PreemptKeys(trace, cfg, s);
    PreemptRecords(trace, s, plan);
    PreemptOrder(trace, s);
  }

  // ---------------------------------------------------------------------------------------
  // Admitting the head of the queue

  ghost predicate CanAdmit(trace: seq<Request>, cfg: Config, s: EngineState, plan: seq<Chunk>, budget: nat) {
    && Usable(trace, cfg) && Inv(trace, cfg, s, 0, plan) && AllComplete(trace, s, plan) && |plan| == |s.running|
    && budget > 0 && s.waiting != [] && |s.running| < cfg.maxSeqs
    && Consider(trace, s, budget).fits
  }

  /** The blocks of an offer are the cached blocks of the request's own leading keys. */
  lemma OfferBlocks(trace: seq<Request>, s: EngineState, budget: nat)
    requires Defined(trace, s) && s.waiting != [] && CacheInverse(s.pool)
    requires Length(trace, s, s.waiting[0]) >= 1
    ensures var bs := Consider(trace, s, budget).blocks;
            forall i :: 0 <= i < |bs| ==> s.pool.key[bs[i]] == Some(KeyOf(trace, s.waiting[0], i))
  {
  }

  lemma AdoptDefined(trace: seq<Request>, s: EngineState, blocks: seq<nat>)
    requires Defined(trace, s) && s.waiting != [] && Below(blocks, |s.pool.ref|) && Counted(s.pool)
    requires |Adopt(s.pool, blocks).ref| == |s.pool.ref|
    ensures Defined(trace, AdoptHits(trace, s, blocks))
    ensures Order(AdoptHits(trace, s, blocks)) == Order(s)
  {
    hide Adopt, Shape;
    var t := AdoptHits(trace, s, blocks);
    assert s.waiting == [s.waiting[0]] + t.waiting;
  }

  lemma AdoptOwned(trace: seq<Request>, cfg: Config, s: EngineState, blocks: seq<nat>)
    requires Defined(trace, s) && s.waiting != [] && Below(blocks, |s.pool.ref|) && Counted(s.pool)
    requires Owned(trace, cfg, s) && Apart(s)
    requires forall i :: 0 <= i < |blocks| ==> s.pool.key[blocks[i]].Some?
    ensures var t := AdoptHits(trace, s, blocks);
            && Defined(trace, t) && Owned(trace, cfg, t) && Order(t) == Order(s)
            && t.pool.key == s.pool.key && |t.pool.free| + Evictable(s.pool, blocks) >= |s.pool.free|
  {
    hide Adopt, Valid, Unshared, Below, Evictable, Counted;
    AdoptValid(s.pool, Held(s.running, s.prog), blocks);
    AdoptDefined(trace, s, blocks);
    var t := AdoptHits(trace, s, blocks);
    assert forall j :: 0 <= j < |s.running| ==> t.running[j] == s.running[j] && s.running[j] != s.waiting[0];
    HeldFrame(s.running, s.prog, t.prog);
    HeldLast(t.running, t.prog);
    assert t.running[..|t.running| - 1] == s.running;
    assert Held(t.running, t.prog) == Held(s.running, s.prog) + multiset(blocks);
  }

  lemma AdoptKeys(trace: seq<Request>, s: EngineState, blocks: seq<nat>)
    requires Defined(trace, s) && s.waiting != [] && Below(blocks, |s.pool.ref|) && Counted(s.pool)
    requires OwnKeys(trace, s) && Apart(s)
    requires var t := AdoptHits(trace, s, blocks); Defined(trace, t) && t.pool.key == s.pool.key
    requires forall i :: 0 <= i < |blocks| ==> s.pool.key[blocks[i]] == Some(KeyOf(trace, s.waiting[0], i))
    ensures OwnKeys(trace, AdoptHits(trace, s, blocks))
  {
    hide Adopt, Counted;
    var t := AdoptHits(trace, s, blocks);
    forall j | 0 <= j < |t.running|
      ensures KeysFit(trace, t.pool, t.running[j], t.prog[t.running[j]].computed, t.prog[t.running[j]].table)
    {
      if j < |s.running| { assert t.prog[t.running[j]] == s.prog[s.running[j]]; }
    }
  }

  /** Where the requests stand after the head of the queue has moved over. */
  lemma AdoptPlaces(trace: seq<Request>, s: EngineState, blocks: seq<nat>)
    requires Defined(trace, s) && s.waiting != [] && Below(blocks, |s.pool.ref|) && Counted(s.pool) && Apart(s)
    ensures var t := AdoptHits(trace, s, blocks);
            && (forall j :: 0 <= j < |s.running| ==>
                  t.running[j] == s.running[j] && t.prog[t.running[j]] == s.prog[s.running[j]])
            && (forall j :: 0 <= j < |t.waiting| ==>
                  t.waiting[j] == s.waiting[j + 1] && t.prog[t.waiting[j]] == s.prog[s.waiting[j + 1]])
  {
    hide Adopt, Counted, Shape, Below;
  }

  lemma AdoptRecords(trace: seq<Request>, s: EngineState, blocks: seq<nat>)
    requires Defined(trace, s) && s.waiting != [] && Below(blocks, |s.pool.ref|) && Counted(s.pool)
    requires Records(trace, s) && Apart(s) && Defined(trace, AdoptHits(trace, s, blocks))
    requires |blocks| * BLOCK < Length(trace, s, s.waiting[0])
    ensures Records(trace, AdoptHits(trace, s, blocks))
  {
    AdoptPlaces(trace, s, blocks);
    hide Adopt, Counted, Shape, Below, Apart;
  }

  lemma AdoptPlans(trace: seq<Request>, s: EngineState, blocks: seq<nat>, plan: seq<Chunk>)
    requires Defined(trace, s) && s.waiting != [] && Below(blocks, |s.pool.ref|) && Counted(s.pool)
    requires Apart(s) && Defined(trace, AdoptHits(trace, s, blocks))
    requires Plans(trace, s, 0, plan) && AllComplete(trace, s, plan) && |plan| == |s.running|
    ensures var t := AdoptHits(trace, s, blocks); Plans(trace, t, 0, plan) && AllComplete(trace, t, plan)
  {
    AdoptPlaces(trace, s, blocks);
    assert CeilBlocks(|blocks| * BLOCK) == |blocks|;
    hide Adopt, Counted, Shape, Below, Apart, CeilBlocks;
  }

  /**
   Admission. Taking over the cached prefix and growing the table for the first chunk keep the invariant, and
   the `_grow` whose result the source ignores has enough free blocks.
   */
  lemma AdmitGrows(trace: seq<Request>, cfg: Config, s: EngineState, plan: seq<Chunk>, budget: nat)
    requires CanAdmit(trace, cfg, s, plan, budget)
    ensures Counted(s.pool)
    ensures var o := Consider(trace, s, budget);
            var t := AdoptHits(trace, s, o.blocks);
            Order(t) == Order(s) && |plan| < |t.running| && t.running[|plan|] == s.waiting[0]
            && CanGrow(trace, cfg, t, plan, o.tokens)
  {
    var o := Consider(trace, s, budget);
    OfferBlocks(trace, s, budget);
    QueuesApart(s);
    AdmitParts(trace, cfg, s, plan, o);
  }

  /** The part of `AdmitGrows` that depends on the offer only. */
  lemma AdmitParts(trace: seq<Request>, cfg: Config, s: EngineState, plan: seq<Chunk>, o: Offer)
    requires Inv(trace, cfg, s, 0, plan) && AllComplete(trace, s, plan) && |plan| == |s.running|
    requires s.waiting != [] && |s.running| < cfg.maxSeqs && Apart(s)
    requires Below(o.blocks, |s.pool.ref|) && o.tokens >= 1
    requires forall i :: 0 <= i < |o.blocks| ==> s.pool.key[o.blocks[i]] == Some(KeyOf(trace, s.waiting[0], i))
    requires |o.blocks| * BLOCK + o.tokens <= Length(trace, s, s.waiting[0])
    requires CeilBlocks(|o.blocks| * BLOCK + o.tokens) - |o.blocks| + Evictable(s.pool, o.blocks) <= |s.pool.free|
    ensures Counted(s.pool)
    ensures var t := AdoptHits(trace, s, o.blocks);
            Order(t) == Order(s) && t.running == s.running + [s.waiting[0]]
            && CanGrow(trace, cfg, t, plan, o.tokens)
  {
    hide Adopt, Evictable, OwnKeys, Records, Plans, AllComplete;
    assert Counted(s.pool);
    AdoptOwned(trace, cfg, s, o.blocks);
    AdoptKeys(trace, s, o.blocks);
    AdoptRecords(trace, s, o.blocks);
    AdoptPlans(trace, s, o.blocks, plan);
  }
}
