/**
 What the blocks of the eviction model are called: the full prompt blocks a running request has computed carry the
 identities of its prompt prefixes, its other blocks carry none, and an identity goes only when its block is
 allocated again. This is what later requests find.
 */
module EvictionNames {
  import opened Common
  import opened Division
  import opened OrderedChoices
  import opened EvictionModel
  import opened EvictionPool
  import opened EvictionRound
  import opened EvictionStep
  import opened EvictionIterate
  import opened EvictionReplay

  // ---------------------------------------------------------------------------------------
  // Named tables

  /** Full prompt blocks among the first `computed` tokens of a request. */
  function FullBlocks(r: Request, computed: nat, size: int): int
    requires size > 0
  {
    Min(computed, r.input) / size
  }

  /** What block `pos` of a table is called when the first `full` blocks of the prompt are computed. */
  ghost predicate CalledAt(identity: seq<Option<seq<int>>>, b: nat, hashes: seq<int>, pos: nat, full: int) {
    && b < |identity|
    && if pos < full then pos < |hashes| && identity[b] == Some(hashes[..pos + 1]) else identity[b] == None
  }

  /** The table of request `i` carries the identities of its computed full prompt blocks, and no others. */
  ghost predicate NamedTable(inst: Instance, w: World, i: nat)
    requires inst.blockSize > 0 && i < |inst.requests| == |w.progress|
  {
    var r, p := inst.requests[i], w.progress[i];
    var full := FullBlocks(r, p.computed, inst.blockSize);
    full <= |p.blocks| && forall pos :: 0 <= pos < |p.blocks| ==> CalledAt(w.identity, p.blocks[pos], r.hashes, pos, full)
  }

  /** A block without identity is in one table at most. */
  ghost predicate Sole(identity: seq<Option<seq<int>>>, refs: seq<int>) {
    |identity| == |refs| && forall b :: 0 <= b < |identity| && identity[b].None? ==> refs[b] <= 1
  }

  /** Every running request's table is named. */
  ghost predicate Named(inst: Instance, w: World) {
    && inst.blockSize > 0 && |w.progress| == |inst.requests| && Sole(w.identity, w.refs)
    && forall i :: i in w.running && i < |w.progress| ==> NamedTable(inst, w, i)
  }

  /** A table whose record and blocks' identities are unchanged stays named. */
  lemma NamedFrame(inst: Instance, w: World, r: World, i: nat)
    requires inst.blockSize > 0 && i < |inst.requests| == |w.progress| == |r.progress| && NamedTable(inst, w, i)
    requires r.progress[i].blocks == w.progress[i].blocks && r.progress[i].computed == w.progress[i].computed
    requires |r.identity| == |w.identity|
    requires forall b :: b in w.progress[i].blocks && b < |w.identity| ==> r.identity[b] == w.identity[b]
    ensures NamedTable(inst, r, i)
  {
    hide FullBlocks;
    var p := w.progress[i];
    forall pos | 0 <= pos < |p.blocks|
      ensures CalledAt(r.identity, p.blocks[pos], inst.requests[i].hashes, pos, FullBlocks(inst.requests[i], p.computed, inst.blockSize))
    {
      assert CalledAt(w.identity, p.blocks[pos], inst.requests[i].hashes, pos, FullBlocks(inst.requests[i], p.computed, inst.blockSize));
      assert p.blocks[pos] in p.blocks;
    }
  }

  // ---------------------------------------------------------------------------------------
  // Allocation

  /** Only the blocks `taken` change, and they lose their identity. */
  ghost predicate LosesOnly(before: seq<Option<seq<int>>>, after: seq<Option<seq<int>>>, taken: seq<nat>) {
    |after| == |before| && forall b: nat :: b < |before| ==> after[b] == if b in taken then None else before[b]
  }

  /** Free blocks that go to the table of `i` have no identity there; everything else is called what it was. */
  lemma TakeNames(inst: Instance, w: World, i: nat, blocks: seq<nat>)
    requires Named(inst, w) && PoolInv(w, inst.capacity) && i < |w.progress| && NamedTable(inst, w, i)
    requires forall b :: b in blocks ==> b in w.free
    ensures var r := Take(w, i, blocks);
            Named(inst, r) && NamedTable(inst, r, i) && LosesOnly(w.identity, r.identity, blocks)
  {
    hide FullBlocks, Holders, Keep;
    var r := Take(w, i, blocks);
    forall j, b | 0 <= j < |w.progress| && b in w.progress[j].blocks ensures b !in blocks { HeldNotFree(w, inst.capacity, j, b); }
    var p, full := w.progress[i], FullBlocks(inst.requests[i], w.progress[i].computed, inst.blockSize);
    forall pos | 0 <= pos < |p.blocks + blocks|
      ensures CalledAt(r.identity, (p.blocks + blocks)[pos], inst.requests[i].hashes, pos, full)
    {
      if pos < |p.blocks| {
        assert CalledAt(w.identity, p.blocks[pos], inst.requests[i].hashes, pos, full);
        assert p.blocks[pos] in p.blocks;
      } else {
        assert blocks[pos - |p.blocks|] in blocks;
      }
    }
    forall j | j in r.running && j < |r.progress| ensures NamedTable(inst, r, j) {
      if j != i { NamedFrame(inst, w, r, j); }
    }
  }

  lemma UsedNames(inst: Instance, w: World, used: seq<seq<nat>>)
    requires Named(inst, w)
    ensures Named(inst, w.(used := used))
    ensures forall i :: 0 <= i < |w.progress| && NamedTable(inst, w, i) ==> NamedTable(inst, w.(used := used), i)
  {
    hide FullBlocks;
  }

  /** `m` are `count` different free blocks, and `r` is `w` with them moved to the table of `i`. */
  ghost predicate Takes(w: World, r: World, i: nat, count: nat, m: seq<nat>)
    requires i < |w.progress|
  {
    && |m| == count && Distinct(m) && (forall b :: b in m ==> b in w.free)
    && r == if count == 0 then w else Take(w.(used := r.used), i, m)
  }

  /** These blocks are handed out instead of the first free ones: uncached ones stay, cached ones become victims. */
  ghost predicate Mixes(free: seq<nat>, cached: set<nat>, victims: seq<nat>, m: seq<nat>) {
    && |m| <= |free|
    && forall k :: 0 <= k < |m| ==>
         if free[k] in cached then |Keep(free[..k], cached)| < |victims| && m[k] == victims[|Keep(free[..k], cached)|]
         else m[k] == free[k]
  }

  lemma KeepHead(s: seq<nat>, k: nat, which: set<nat>)
    requires 0 < k <= |s|
    ensures |Keep(s[..k], which)| == (if s[0] in which then 1 else 0) + |Keep(s[1..][..k - 1], which)|
  {
    assert s[..k][1..] == s[1..][..k - 1];
  }

  lemma MixUnfold(stock: seq<nat>, cached: set<nat>, victims: seq<nat>)
    requires |Keep(stock, cached)| == |victims| && stock != []
    ensures if stock[0] in cached then
              victims != [] && |Keep(stock[1..], cached)| == |victims[1..]|
              && Mix(stock, cached, victims) == [victims[0]] + Mix(stock[1..], cached, victims[1..])
            else
              |Keep(stock[1..], cached)| == |victims|
              && Mix(stock, cached, victims) == [stock[0]] + Mix(stock[1..], cached, victims)
    ensures Keep(stock[..0], cached) == []
  {
  }

  lemma {:induction false} MixEntry(stock: seq<nat>, cached: set<nat>, victims: seq<nat>, k: nat)
    requires |Keep(stock, cached)| == |victims| && k < |stock|
    ensures var m, n := Mix(stock, cached, victims), |Keep(stock[..k], cached)|;
            && |m| == |stock|
            && if stock[k] in cached then n < |victims| && m[k] == victims[n] else m[k] == stock[k]
    decreases |stock|
  {
    hide Mix, Keep;
    MixLength(stock, cached, victims);
    MixUnfold(stock, cached, victims);
    if k > 0 {
      KeepHead(stock, k, cached);
      if stock[0] in cached { MixEntry(stock[1..], cached, victims[1..], k - 1); }
      else { MixEntry(stock[1..], cached, victims, k - 1); }
    }
  }

  lemma {:induction false} MixLength(stock: seq<nat>, cached: set<nat>, victims: seq<nat>)
    requires |Keep(stock, cached)| == |victims|
    ensures |Mix(stock, cached, victims)| == |stock|
    decreases |stock|
  {
    if stock != [] { MixLength(stock[1..], cached, if stock[0] in cached then victims[1..] else victims); }
  }

  lemma MixAt(stock: seq<nat>, cached: set<nat>, victims: seq<nat>)
    requires |Keep(stock, cached)| == |victims|
    ensures |Mix(stock, cached, victims)| == |stock| && Mixes(stock, cached, victims, Mix(stock, cached, victims))
  {
    hide Mix, Keep;
    MixLength(stock, cached, victims);
    forall k | 0 <= k < |stock|
      ensures if stock[k] in cached then |Keep(stock[..k], cached)| < |victims|
                                         && Mix(stock, cached, victims)[k] == victims[|Keep(stock[..k], cached)|]
              else Mix(stock, cached, victims)[k] == stock[k]
    {
      MixEntry(stock, cached, victims, k);
    }
  }

  lemma MixesPrefix(free: seq<nat>, count: nat, cached: set<nat>, victims: seq<nat>, m: seq<nat>)
    requires count <= |free| && |m| == count && Mixes(free[..count], cached, victims, m)
    ensures Mixes(free, cached, victims, m)
  {
    forall k | 0 <= k < |m| ensures free[..count][k] == free[k] && free[..count][..k] == free[..k] {}
  }

  /** Which victims an allocation takes, and what it records. */
  ghost predicate Picks(w: World, r: World, count: nat, script: Option<seq<seq<nat>>>, victims: seq<nat>)
    requires count <= |w.free|
  {
    var cached := CachedBlocks(w.identity);
    var candidates, stock := Keep(w.free, cached), Keep(w.free[..count], cached);
    if |stock| >= 1 && |candidates| >= 2 then
      && r.used == w.used + [victims]
      && (if script.None? then victims == stock else |w.used| < |script.value| && victims == script.value[|w.used|])
    else r.used == w.used && victims == stock
  }

  /** The victims are picked as the script or the stock order says, and are a legal choice. */
  ghost predicate VictimsOf(w: World, r: World, count: nat, script: Option<seq<seq<nat>>>, victims: seq<nat>)
    requires count <= |w.free|
  {
    && Picks(w, r, count, script, victims)
    && var cached := CachedBlocks(w.identity);
       LegalVictims(victims, Keep(w.free, cached), |Keep(w.free[..count], cached)|)
  }

  /**
   An allocation that succeeds hands out the first free blocks with every cached one replaced by the next victim:
   the stock ones, unless at least two lists of victims are possible and a script names another.
   */
  lemma AllocateMeans(w: World, capacity: nat, i: nat, count: nat, script: Option<seq<seq<nat>>>)
    returns (m: seq<nat>, victims: seq<nat>)
    requires PoolInv(w, capacity) && i < |w.progress| && count <= |w.free| && Allocate(w, i, count, script).Ok?
    ensures var r := Allocate(w, i, count, script).value;
            && Takes(w, r, i, count, m)
            && (count > 0 ==> Mixes(w.free, CachedBlocks(w.identity), victims, m) && VictimsOf(w, r, count, script, victims))
  {
    m, victims := [], [];
    if count > 0 {
      hide *;
      victims := AllocateResult(w, i, count, script);
      StockLegalNow(w, capacity, count);
      VictimsLegal(w, Allocate(w, i, count, script).value, count, script, victims);
      VictimsMixed(w, capacity, count, victims);
      m := Mix(w.free[..count], CachedBlocks(w.identity), victims);
      TakesMade(w, Allocate(w, i, count, script).value, i, count, m);
    } else {
      TakesNone(w, i);
    }
  }

  lemma TakesNone(w: World, i: nat)
    requires i < |w.progress|
    ensures Takes(w, w, i, 0, [])
  {
    hide Take;
  }

  lemma TakesMade(w: World, r: World, i: nat, count: nat, m: seq<nat>)
    requires i < |w.progress| && count > 0 && |m| == count && Distinct(m) && (forall b :: b in m ==> b in w.free)
    requires r == Take(w.(used := r.used), i, m)
    ensures Takes(w, r, i, count, m)
  {
    hide Take;
  }

  lemma AllocateResult(w: World, i: nat, count: nat, script: Option<seq<seq<nat>>>) returns (victims: seq<nat>)
    requires i < |w.progress| && 0 < count <= |w.free| && Allocate(w, i, count, script).Ok?
    ensures var r, cached := Allocate(w, i, count, script).value, CachedBlocks(w.identity);
            && |Keep(w.free[..count], cached)| == |victims|
            && r == Take(w.(used := r.used), i, Mix(w.free[..count], cached, victims))
            && (|Keep(w.free[..count], cached)| >= 1 && |Keep(w.free, cached)| >= 2 && script.Some? ==>
                  LegalVictims(victims, Keep(w.free, cached), |Keep(w.free[..count], cached)|))
            && Picks(w, r, count, script, victims)
  {
    hide Keep, Choices, Mix, Without;
    var cached := CachedBlocks(w.identity);
    var candidates, stock := Keep(w.free, cached), Keep(w.free[..count], cached);
    KeepPrefix(w.free, count, cached);
    ChoicesOpen(|candidates|, |stock|);
    victims := if |stock| >= 1 && |candidates| >= 2 && script.Some? then script.value[|w.used|] else stock;
  }

  lemma VictimsLegal(w: World, r: World, count: nat, script: Option<seq<seq<nat>>>, victims: seq<nat>)
    requires count <= |w.free| && Picks(w, r, count, script, victims)
    requires var cached := CachedBlocks(w.identity);
             LegalVictims(Keep(w.free[..count], cached), Keep(w.free, cached), |Keep(w.free[..count], cached)|)
    requires var cached := CachedBlocks(w.identity);
             |Keep(w.free[..count], cached)| >= 1 && |Keep(w.free, cached)| >= 2 && script.Some? ==>
               LegalVictims(victims, Keep(w.free, cached), |Keep(w.free[..count], cached)|)
    ensures LegalVictims(victims, Keep(w.free, CachedBlocks(w.identity)), |Keep(w.free[..count], CachedBlocks(w.identity))|)
    ensures VictimsOf(w, r, count, script, victims)
  {
    hide Keep, LegalVictims;
  }

  lemma StockLegalNow(w: World, capacity: nat, count: nat)
    requires PoolInv(w, capacity) && count <= |w.free|
    ensures var cached := CachedBlocks(w.identity);
            LegalVictims(Keep(w.free[..count], cached), Keep(w.free, cached), |Keep(w.free[..count], cached)|)
  {
    StockLegal(w, count);
  }

  lemma VictimsMixed(w: World, capacity: nat, count: nat, victims: seq<nat>)
    requires PoolInv(w, capacity) && count <= |w.free|
    requires var cached := CachedBlocks(w.identity);
             LegalVictims(victims, Keep(w.free, cached), |Keep(w.free[..count], cached)|)
    ensures var cached := CachedBlocks(w.identity);
            var m := Mix(w.free[..count], cached, victims);
            && |m| == count && Distinct(m) && (forall b :: b in m ==> b in w.free) && Mixes(w.free, cached, victims, m)
  {
    hide Keep, Mixes;
    var cached := CachedBlocks(w.identity);
    var stock := w.free[..count];
    DistinctByCount(victims);
    forall v | v in victims ensures v in cached && v in w.free {
      assert v in Elements(victims);
      assert v in Elements(Keep(w.free, cached));
    }
    MixOK(stock, cached, victims);
    MixAt(stock, cached, victims);
    MixesPrefix(w.free, count, cached, victims, Mix(stock, cached, victims));
    forall b | b in Mix(stock, cached, victims) ensures b in w.free {
      if b in stock { assert w.free[IndexOf(stock, b)] == b; }
    }
  }

  /** An allocation names nothing and takes identities only from the blocks it hands out. */
  lemma AllocateNames(inst: Instance, w: World, i: nat, count: nat, script: Option<seq<seq<nat>>>)
    requires Named(inst, w) && PoolInv(w, inst.capacity) && i < |w.progress| && NamedTable(inst, w, i)
    requires count <= |w.free| && Allocate(w, i, count, script).Ok?
    ensures var r := Allocate(w, i, count, script).value;
            && |r.progress| == |w.progress| && Named(inst, r) && NamedTable(inst, r, i)
            && w.progress[i].blocks <= r.progress[i].blocks
            && LosesOnly(w.identity, r.identity, r.progress[i].blocks[|w.progress[i].blocks|..])
  {
    var m, _ := AllocateMeans(w, inst.capacity, i, count, script);
    hide Allocate, Named, NamedTable, PoolInv;
    var r := Allocate(w, i, count, script).value;
    if count == 0 {
      assert r.progress[i].blocks[|w.progress[i].blocks|..] == [];
    } else {
      UsedNames(inst, w, r.used);
      UsedPool(w, inst.capacity, r.used);
      NamedSizes(inst, w);
      TakeNames(inst, w.(used := r.used), i, m);
      assert r.progress[i].blocks[|w.progress[i].blocks|..] == m;
    }
  }

  lemma NamedSizes(inst: Instance, w: World)
    requires Named(inst, w)
    ensures inst.blockSize > 0 && |w.progress| == |inst.requests| && |w.identity| == |w.refs|
  {
  }

  lemma UsedPool(w: World, capacity: nat, used: seq<seq<nat>>)
    requires PoolInv(w, capacity)
    ensures PoolInv(w.(used := used), capacity)
  {
  }

  // ---------------------------------------------------------------------------------------
  // Preemption

  lemma PreemptNames(inst: Instance, w: World, i: nat)
    requires Named(inst, w) && i < |w.progress| && i in w.running && Distinct(w.running)
    ensures Named(inst, Preempt(w, i)) && Preempt(w, i).identity == w.identity
  {
    hide FullBlocks, Keep, Reverse, CalledAt;
    var r := Preempt(w, i);
    RemoveAtDistinct(w.running, IndexOf(w.running, i));
    forall j | j in r.running && j < |r.progress| ensures NamedTable(inst, r, j) {
      assert j in w.running && j != i;
      NamedFrame(inst, w, r, j);
    }
  }

  lemma {:induction false} MakeRoomNames(inst: Instance, st: Round, i: nat, need: int)
    requires Listing(st.world) && Named(inst, st.world)
    ensures Named(inst, MakeRoom(st, i, need).world) && MakeRoom(st, i, need).world.identity == st.world.identity
    decreases |st.world.running|
  {
    hide Named, Preempt;
    if need > |st.world.free| && st.world.running != [] {
      ListingParts(st.world);
      NamedSizes(inst, st.world);
      PreemptNames(inst, st.world, st.world.running[|st.world.running| - 1]);
      if st.world.running[|st.world.running| - 1] != i { MakeRoomNames(inst, PreemptLast(st), i, need); }
    }
  }

  // ---------------------------------------------------------------------------------------
  // Planning

  /** Block `b` is in the table of a request with a service. */
  ghost predicate HandedOut(t: Round, b: nat) {
    exists k :: 0 <= k < |t.services| && Holds(t, k, b)
  }

  ghost predicate Holds(t: Round, k: nat, b: nat)
    requires k < |t.services|
  {
    t.services[k].index < |t.world.progress| && b in t.world.progress[t.services[k].index].blocks
  }

  /**
   Planning from `st` to `t` gives no block a new identity, and takes one away only with the block, which then is in
   the table of a served request. Requests with services keep their tables.
   */
  ghost predicate HandsOut(st: Round, t: Round) {
    && st.services <= t.services && |t.world.identity| == |st.world.identity| && |t.world.progress| == |st.world.progress|
    && (forall k :: 0 <= k < |st.services| ==>
          st.services[k].index < |st.world.progress|
          && t.world.progress[st.services[k].index].blocks == st.world.progress[st.services[k].index].blocks)
    && (forall b :: 0 <= b < |st.world.identity| ==>
          || t.world.identity[b] == st.world.identity[b]
          || (t.world.identity[b] == None && HandedOut(t, b)))
  }

  lemma HandedLater(t: Round, u: Round, b: nat)
    requires HandsOut(t, u) && HandedOut(t, b)
    ensures HandedOut(u, b)
  {
    var k :| 0 <= k < |t.services| && Holds(t, k, b);
    assert u.services[k] == t.services[k];
    assert Holds(u, k, b);
  }

  lemma HandsOutTrans(st: Round, t: Round, u: Round)
    requires HandsOut(st, t) && HandsOut(t, u)
    ensures HandsOut(st, u)
  {
    forall k | 0 <= k < |st.services|
      ensures st.services[k].index < |st.world.progress|
      ensures u.world.progress[st.services[k].index].blocks == st.world.progress[st.services[k].index].blocks
    {
      assert t.services[k] == st.services[k];
    }
    forall b | 0 <= b < |st.world.identity|
      ensures u.world.identity[b] == st.world.identity[b] || (u.world.identity[b] == None && HandedOut(u, b))
    {
      if HandedOut(t, b) { HandedLater(t, u, b); }
    }
  }

  lemma HandsOutRefl(inst: Instance, st: Round)
    requires RoundInv(inst, st)
    ensures HandsOut(st, st)
  {
    BatchIndices(inst, st);
    hide RoundInv;
  }

  lemma BatchIndices(inst: Instance, st: Round)
    requires RoundInv(inst, st)
    ensures forall k :: 0 <= k < |st.services| ==>
              st.services[k].index in st.world.running && st.services[k].index < |st.world.progress|
  {
    RoundListing(inst, st);
    hide PoolInv, Queued, OthersIdle, AllHolding, Listing, Distinct;
    forall k | 0 <= k < |st.services|
      ensures st.services[k].index in st.world.running && st.services[k].index < |st.world.progress|
    {
      var m := IndexOf(st.world.running, st.services[k].index);
    }
  }

  /** Blocks join the table of a request without a service, and its service follows. */
  lemma GrownHands(st: Round, t: Round, i: nat)
    requires i < |st.world.progress| == |t.world.progress|
    requires |t.services| == |st.services| + 1 && st.services <= t.services && t.services[|st.services|].index == i
    requires forall k :: 0 <= k < |st.services| ==> st.services[k].index < |st.world.progress| && st.services[k].index != i
    requires forall j :: 0 <= j < |st.world.progress| && j != i ==>
               t.world.progress[j].blocks == st.world.progress[j].blocks
    requires |st.world.identity| == |t.world.identity|
    requires forall b :: 0 <= b < |st.world.identity| ==>
               || t.world.identity[b] == st.world.identity[b]
               || (t.world.identity[b] == None && b in t.world.progress[i].blocks)
    ensures HandsOut(st, t)
  {
    forall b: nat | b in t.world.progress[i].blocks ensures HandedOut(t, b) {
      assert Holds(t, |st.services|, b);
    }
  }

  lemma GrowNames(inst: Instance, st: Round, i: nat, n: int, need: nat, prefill: bool, script: Option<seq<seq<nat>>>)
    requires Named(inst, st.world) && PoolInv(st.world, inst.capacity) && i < |st.world.progress| && NamedTable(inst, st.world, i)
    requires need <= |st.world.free| && Unplanned(st.services, i)
    requires forall k :: 0 <= k < |st.services| ==> st.services[k].index < |st.world.progress|
    ensures var r := Grow(st, i, n, need, prefill, script);
            r.Ok? ==>
              && |r.value.world.progress| == |st.world.progress|
              && Named(inst, r.value.world) && NamedTable(inst, r.value.world, i) && HandsOut(st, r.value)
  {
    hide Allocate, Named, NamedTable, PoolInv, HandsOut;
    if Allocate(st.world, i, need, script).Ok? {
      AllocateNames(inst, st.world, i, need, script);
      AllocateKeeps(st.world, inst.capacity, i, need, script);
      var r := Grow(st, i, n, need, prefill, script).value;
      forall b | 0 <= b < |st.world.identity|
        ensures || r.world.identity[b] == st.world.identity[b]
                || (r.world.identity[b] == None && b in r.world.progress[i].blocks)
      {
        SuffixMember(r.world.progress[i].blocks, |st.world.progress[i].blocks|, b);
      }
      GrownHands(st, r, i);
    }
  }

  lemma SuffixMember(s: seq<nat>, n: nat, b: nat)
    requires n <= |s|
    ensures b in s[n..] ==> b in s
  {
  }

  /** Preemption for room takes no identity and no planned request's table. */
  lemma RoomHands(inst: Instance, st: Round, room: Round)
    requires RoundInv(inst, room) && room.services == st.services && |room.world.progress| == |st.world.progress|
    requires room.world.identity == st.world.identity
    requires forall j :: j in room.world.running ==> j < |st.world.progress| && room.world.progress[j] == st.world.progress[j]
    ensures HandsOut(st, room)
  {
    BatchIndices(inst, room);
    hide RoundInv;
  }

  lemma RunOneNames(inst: Instance, st: Round, all: seq<nat>, k: nat, script: Option<seq<seq<nat>>>)
    requires Passing(inst, st, all, k) && k < |all| && all[k] < |inst.requests| && Named(inst, st.world)
    ensures Fitting(inst, st.world)
    ensures var r := RunOne(inst, st, all[k], script);
            r.Ok? ==> Named(inst, r.value.world) && HandsOut(st, r.value)
  {
    hide RoundInv, Grow, MakeRoom, Tokens, Growth, Unplanned, Holding, SameScript, Listing, Named, HandsOut;
    RoundListing(inst, st);
    var i := all[k];
    if i in st.world.running && st.budget != 0 {
      var n := Tokens(inst, st, i);
      RoomTurn(inst, st, all, k, n);
      var need := Growth(inst, st.world, i, n);
      var room := MakeRoom(st, i, need);
      assert Roomy(inst, st, i, need, room);
      MakeRoomNames(inst, st, i, need);
      RoomHands(inst, st, room);
      if i in room.world.running {
        GrowHands(inst, st, room, i, n, need, st.world.progress[i].computed < inst.requests[i].input, script);
      }
    } else {
      HandsOutRefl(inst, st);
    }
  }

  lemma GrowHands(inst: Instance, st: Round, room: Round, i: nat, n: int, need: int, prefill: bool, script: Option<seq<seq<nat>>>)
    requires RoundInv(inst, room) && Named(inst, room.world) && HandsOut(st, room)
    requires i in room.world.running && i < |room.world.progress| && Unplanned(room.services, i) && 1 <= n
    requires room.world.progress[i].computed + n <= Target(inst, room.world, i)
    requires need == Growth(inst, room.world, i, n) <= |room.world.free|
    ensures var r := Grow(room, i, n, need, prefill, script);
            r.Ok? ==> Named(inst, r.value.world) && HandsOut(st, r.value)
  {
    GrowReady(inst, room, i, n);
    BatchIndices(inst, room);
    hide RoundInv, Grow, Growth, HandsOut, NamedTable, Unplanned, PoolInv;
    GrowNames(inst, room, i, n, need, prefill, script);
    var r := Grow(room, i, n, need, prefill, script);
    if r.Ok? { HandsOutTrans(st, room, r.value); }
  }

  lemma GrowReady(inst: Instance, st: Round, i: nat, n: int)
    requires RoundInv(inst, st) && i in st.world.running && i < |st.world.progress| && Unplanned(st.services, i) && 1 <= n
    requires st.world.progress[i].computed + n <= Target(inst, st.world, i)
    ensures inst.blockSize > 0 && PoolInv(st.world, inst.capacity) && Growth(inst, st.world, i, n) >= 0
  {
    HoldingNow(inst, st, i);
    GrowthFits(inst, st.world, i, n);
  }

  lemma {:induction false} RunAllNames(inst: Instance, st: Round, all: seq<nat>, k: nat, script: Option<seq<seq<nat>>>)
    requires Passing(inst, st, all, k) && Below(all, |inst.requests|) && Named(inst, st.world)
    ensures Fitting(inst, st.world)
    ensures var r := RunAll(inst, st, all[k..], script);
            r.Ok? ==> Named(inst, r.value.world) && HandsOut(st, r.value)
    decreases |all| - k
  {
    hide RoundInv, RunOne, SameScript, Listing, AfterTurn, Named, HandsOut;
    RoundListing(inst, st);
    if k < |all| {
      RunOneKeeps(inst, st, all, k, script);
      RunOneNames(inst, st, all, k, script);
      assert all[k..][0] == all[k] && all[k..][1..] == all[k + 1..];
      var one := RunOne(inst, st, all[k], script);
      if one.Ok? {
        TurnPassed(inst, st, one.value, all, k + 1, script);
        RunAllNames(inst, one.value, all, k + 1, script);
        var r := RunAll(inst, one.value, all[k + 1..], script);
        if r.Ok? { HandsOutTrans(st, one.value, r.value); }
      }
    } else {
      HandsOutRefl(inst, st);
    }
  }

  // ---------------------------------------------------------------------------------------
  // What a request finds

  /** `hits` are the first blocks that carry the identities of the request's leading full blocks, as far as they go. */
  ghost predicate Finds(size: int, r: Request, identity: seq<Option<seq<int>>>, hits: seq<nat>)
    requires size > 0
  {
    && |hits| <= (r.input - 1) / size && |hits| <= |r.hashes|
    && (forall k :: 0 <= k < |hits| ==> IsFirst(identity, r.hashes[..k + 1], hits[k]))
    && (|hits| < (r.input - 1) / size && |hits| < |r.hashes| ==> Some(r.hashes[..|hits| + 1]) !in identity)
  }

  ghost predicate IsFirst(identity: seq<Option<seq<int>>>, key: seq<int>, b: nat) {
    b < |identity| && identity[b] == Some(key) && forall c :: 0 <= c < b ==> identity[c] != Some(key)
  }

  /** The leading full blocks from position `pos` on. */
  ghost predicate FindsFrom(size: int, r: Request, identity: seq<Option<seq<int>>>, pos: nat, hits: seq<nat>)
    requires size > 0
  {
    && pos + |hits| <= (r.input - 1) / size && pos + |hits| <= |r.hashes|
    && (forall k :: 0 <= k < |hits| ==> IsFirst(identity, r.hashes[..pos + k + 1], hits[k]))
    && (pos + |hits| < (r.input - 1) / size && pos + |hits| < |r.hashes| ==> Some(r.hashes[..pos + |hits| + 1]) !in identity)
  }

  lemma FindFirst(identity: seq<Option<seq<int>>>, key: seq<int>)
    ensures var r := Find(identity, key);
            if r.Some? then IsFirst(identity, key, r.value) else Some(key) !in identity
  {
    var r := Find(identity, key);
    if r.Some? {
      forall c | 0 <= c < r.value ensures identity[c] != Some(key) { assert identity[c] in identity[..r.value]; }
    }
  }

  lemma {:induction false} HitsFrom(size: int, r: Request, identity: seq<Option<seq<int>>>, pos: nat)
    requires size > 0 && r.input > 0 && pos <= (r.input - 1) / size < |r.hashes|
    ensures FindsFrom(size, r, identity, pos, Hits(size, r, identity, pos))
    decreases r.input - pos
  {
    BlocksBelowTokens(r.input, size);
    if pos < (r.input - 1) / size {
      hide Find, IsFirst;
      FindFirst(identity, r.hashes[..pos + 1]);
      assert Lead(r.hashes, pos + 1) == r.hashes[..pos + 1];
      if Find(identity, Lead(r.hashes, pos + 1)).Some? {
        HitsFrom(size, r, identity, pos + 1);
        var rest := Hits(size, r, identity, pos + 1);
        var all := [Find(identity, Lead(r.hashes, pos + 1)).value] + rest;
        forall k | 0 <= k < |all| ensures IsFirst(identity, r.hashes[..pos + k + 1], all[k]) {
          if k > 0 { assert IsFirst(identity, r.hashes[..pos + 1 + (k - 1) + 1], rest[k - 1]); }
        }
      }
    }
  }

  lemma BlocksBelowTokens(n: int, size: int)
    requires size > 0 && n > 0
    ensures 0 <= (n - 1) / size < n
  {
    var q := (n - 1) / size;
    assert n - 1 == q * size + (n - 1) % size;
    MulMono(1, size, q);
  }

  /**
   The prefix lookup finds, for as many leading full blocks as possible and short of the block with the last prompt
   token, the first block of that identity.
   */
  lemma HitsMeaning(inst: Instance, i: nat, identity: seq<Option<seq<int>>>)
    requires inst.Valid() && i < |inst.requests|
    ensures Finds(inst.blockSize, inst.requests[i], identity, Hits(inst.blockSize, inst.requests[i], identity, 0))
  {
    var r := inst.requests[i];
    FullBelowCeil(r.input, inst.blockSize);
    BlocksBelowTokens(r.input, inst.blockSize);
    hide Hits, Instance.Valid;
    HitsFrom(inst.blockSize, r, identity, 0);
    var hits := Hits(inst.blockSize, r, identity, 0);
    forall k | 0 <= k < |hits| ensures IsFirst(identity, r.hashes[..k + 1], hits[k]) {
      assert IsFirst(identity, r.hashes[..0 + k + 1], hits[k]);
    }
  }

  /** Names of a computed prefix are found again: as many leading blocks as two prompts share, short of the last token. */
  lemma SharedPrefixFound(inst: Instance, w: World, i: nat, j: nat, m: nat)
    requires inst.Valid() && Named(inst, w) && i < |inst.requests| && j < |inst.requests| && i in w.running
    requires m <= FullBlocks(inst.requests[i], w.progress[i].computed, inst.blockSize) && m <= |inst.requests[j].hashes|
    requires m <= |inst.requests[i].hashes| && inst.requests[i].hashes[..m] == inst.requests[j].hashes[..m]
    ensures |Hits(inst.blockSize, inst.requests[j], w.identity, 0)| >= Min(m, (inst.requests[j].input - 1) / inst.blockSize)
  {
    HitsMeaning(inst, j, w.identity);
    hide Hits, Instance.Valid, FullBlocks, Named;
    var hits := Hits(inst.blockSize, inst.requests[j], w.identity, 0);
    if |hits| < m { SharedName(inst, w, i, j, m, |hits|); }
  }

  lemma SharedName(inst: Instance, w: World, i: nat, j: nat, m: nat, k: nat)
    requires Named(inst, w) && i < |inst.requests| && j < |inst.requests| && i in w.running && k < m
    requires m <= FullBlocks(inst.requests[i], w.progress[i].computed, inst.blockSize) && m <= |inst.requests[j].hashes|
    requires m <= |inst.requests[i].hashes| && inst.requests[i].hashes[..m] == inst.requests[j].hashes[..m]
    ensures Some(inst.requests[j].hashes[..k + 1]) in w.identity
  {
    hide FullBlocks;
    var r, p := inst.requests[i], w.progress[i];
    assert NamedTable(inst, w, i);
    assert CalledAt(w.identity, p.blocks[k], r.hashes, k, FullBlocks(r, p.computed, inst.blockSize));
    assert r.hashes[..k + 1] == r.hashes[..m][..k + 1] == inst.requests[j].hashes[..k + 1];
    assert w.identity[p.blocks[k]] in w.identity;
  }

  // ---------------------------------------------------------------------------------------
  // Admission

  /** A request that takes over what it found has a named table. */
  lemma HoldNames(inst: Instance, w: World, i: nat)
    requires inst.Valid() && Named(inst, w) && i < |w.progress| && i !in w.running
    ensures var hits := Hits(inst.blockSize, inst.requests[i], w.identity, 0);
            var held := Hold(inst, w, i, hits);
            && |held.progress| == |w.progress| && Named(inst, held) && NamedTable(inst, held, i) && held.identity == w.identity
  {
    var r, hits := inst.requests[i], Hits(inst.blockSize, inst.requests[i], w.identity, 0);
    HitsMeaning(inst, i, w.identity);
    HitFull(r, inst.blockSize, |hits|);
    hide Hits, FullBlocks, Keep, CalledAt, Instance.Valid;
    var held := Hold(inst, w, i, hits);
    HoldSole(w, held, hits);
    HitsCalled(inst, w, i, hits);
    forall j | j in held.running && j < |held.progress| ensures NamedTable(inst, held, j) {
      NamedFrame(inst, w, held, j);
    }
  }

  /** Hits carry an identity, so sharing them leaves blocks without one alone. */
  lemma HoldSole(w: World, held: World, hits: seq<nat>)
    requires Sole(w.identity, w.refs) && held.identity == w.identity && held.refs == Shift(w.refs, hits, 1)
    requires forall k :: 0 <= k < |hits| ==> hits[k] < |w.identity| && w.identity[hits[k]].Some?
    ensures Sole(held.identity, held.refs)
  {
  }

  lemma HitsCalled(inst: Instance, w: World, i: nat, hits: seq<nat>)
    requires inst.blockSize > 0 && i < |inst.requests| == |w.progress|
    requires Finds(inst.blockSize, inst.requests[i], w.identity, hits)
    requires FullBlocks(inst.requests[i], |hits| * inst.blockSize, inst.blockSize) == |hits|
    ensures forall k :: 0 <= k < |hits| ==> hits[k] < |w.identity| && w.identity[hits[k]].Some?
    ensures NamedTable(inst, Hold(inst, w, i, hits), i)
  {
    hide FullBlocks, Keep;
    forall k | 0 <= k < |hits| ensures CalledAt(w.identity, hits[k], inst.requests[i].hashes, k, |hits|) {
      assert IsFirst(w.identity, inst.requests[i].hashes[..k + 1], hits[k]);
    }
  }

  lemma HitFull(r: Request, size: int, n: nat)
    requires size > 0 && r.input > 0 && n <= (r.input - 1) / size
    ensures FullBlocks(r, n * size, size) == n
  {
    FullTokens(r.input - 1, size, n);
    DivUnique(n * size, size, n, 0);
  }

  lemma AdmitOneNames(inst: Instance, st: Round, script: Option<seq<seq<nat>>>)
    requires RoundInv(inst, st) && st.world.waiting != [] && st.budget > 0 && Named(inst, st.world)
    requires st.world.waiting[0] < |st.world.progress| == |inst.requests| && PromptFits(inst, st.world)
    ensures Fitting(inst, st.world)
    ensures var r := AdmitOne(inst, st, Hits(inst.blockSize, inst.requests[st.world.waiting[0]], st.world.identity, 0), script);
            r.Ok? ==> Named(inst, r.value.world) && HandsOut(st, r.value)
  {
    AdmitReady(inst, st);
    RoundListing(inst, st);
    WaitingFresh(inst, st);
    BatchIndices(inst, st);
    hide RoundInv, PoolInv, Ceil, Hits, Growth, Allocate, Listing, Hold, Named, NamedTable, HandsOut, Unplanned, Grow,
         PromptFits, Target;
    var w, i := st.world, st.world.waiting[0];
    var hits := Hits(inst.blockSize, inst.requests[i], w.identity, 0);
    HoldNames(inst, w, i);
    HoldRecord(inst, w, i, hits);
    var held := Hold(inst, w, i, hits);
    var n := FirstChunk(inst, st.budget, held, i);
    var need := Growth(inst, held, i, n);
    GrowNames(inst, st.(world := held), i, n, need, true, script);
    var g := Grow(st.(world := held), i, n, need, true, script);
    if g.Ok? {
      var r := AdmitOne(inst, st, hits, script).value;
      assert r == g.value.(world := g.value.world.(waiting := g.value.world.waiting[1..], running := g.value.world.running + [i]));
      AdmittedNames(inst, g.value.world, r.world, i);
      AdmittedHands(st, held, g.value, r, i);
    }
  }

  /** The blocks for the first chunk of the first waiting request are there. */
  lemma AdmitReady(inst: Instance, st: Round)
    requires RoundInv(inst, st) && st.world.waiting != [] && st.budget > 0
    requires st.world.waiting[0] < |st.world.progress| == |inst.requests| && PromptFits(inst, st.world)
    ensures var i := st.world.waiting[0];
            var held := Hold(inst, st.world, i, Hits(inst.blockSize, inst.requests[i], st.world.identity, 0));
            && PoolInv(held, inst.capacity)
            && 0 <= Growth(inst, held, i, FirstChunk(inst, st.budget, held, i)) <= |held.free|
  {
    hide PoolInv, Ceil, Hits, Growth, Listing, Queued, OthersIdle, AllHolding, Hold, Batched;
    WaitingFresh(inst, st);
    var w, i := st.world, st.world.waiting[0];
    var hits := Hits(inst.blockSize, inst.requests[i], w.identity, 0);
    AdmissionFits(inst, w, i, hits, st.budget);
    HitsFound(inst, w, i);
    HoldKeeps(inst, w, i, hits);
  }

  lemma AdmittedNames(inst: Instance, w: World, r: World, i: nat)
    requires Named(inst, w) && i < |w.progress| && NamedTable(inst, w, i) && r == w.(waiting := r.waiting, running := w.running + [i])
    ensures Named(inst, r)
  {
    hide FullBlocks, CalledAt;
    forall j | j in r.running && j < |r.progress| ensures NamedTable(inst, r, j) {
      assert j in w.running || j == i;
      NamedFrame(inst, w, r, j);
    }
  }

  lemma AdmittedHands(st: Round, held: World, g: Round, r: Round, i: nat)
    requires HandsOut(st.(world := held), g) && held.identity == st.world.identity && i < |st.world.progress| == |held.progress|
    requires forall j :: 0 <= j < |st.world.progress| && j != i ==> held.progress[j] == st.world.progress[j]
    requires forall k :: 0 <= k < |st.services| ==> st.services[k].index < |st.world.progress| && st.services[k].index != i
    requires r == g.(world := r.world) && r.world.progress == g.world.progress && r.world.identity == g.world.identity
    ensures HandsOut(st, r)
  {
    forall b | 0 <= b < |st.world.identity|
      ensures r.world.identity[b] == st.world.identity[b] || (r.world.identity[b] == None && HandedOut(r, b))
    {
      if HandedOut(g, b) {
        var k :| 0 <= k < |g.services| && Holds(g, k, b);
        assert Holds(r, k, b);
      }
    }
  }

  lemma {:induction false} AdmitAllNames(inst: Instance, st: Round, script: Option<seq<seq<nat>>>)
    requires RoundInv(inst, st) && Named(inst, st.world)
    ensures Fitting(inst, st.world)
    ensures var r := AdmitAll(inst, st, script);
            r.Ok? ==> Named(inst, r.value.world) && HandsOut(st, r.value)
    decreases |st.world.waiting|
  {
    hide RoundInv, Hits, PromptFits, AdmitOne, Listing, Named, HandsOut;
    RoundListing(inst, st);
    BudgetOK(inst, st);
    ListingParts(st.world);
    HandsOutRefl(inst, st);
    var w := st.world;
    if w.waiting != [] && st.budget != 0 && |w.running| < inst.maxSequences && PromptFits(inst, w) {
      AdmitOneKeeps(inst, st, script);
      AdmitOneNames(inst, st, script);
      var one := AdmitOne(inst, st, Hits(inst.blockSize, inst.requests[w.waiting[0]], w.identity, 0), script);
      if one.Ok? {
        AdmitAllNames(inst, one.value, script);
        var r := AdmitAll(inst, one.value, script);
        if r.Ok? { HandsOutTrans(st, one.value, r.value); }
      }
    }
  }

  /**
   Planning keeps every running table named. It gives no block an identity, and takes one away only by allocating
   the block, which is then in the table of a served request.
   */
  lemma ScheduleNames(inst: Instance, w: World, script: Option<seq<seq<nat>>>)
    requires Opened(inst, w) && Named(inst, w)
    ensures Fitting(inst, w)
    ensures var r := Schedule(inst, w, script);
            r.Ok? ==>
              && Named(inst, r.value.world) && |r.value.world.identity| == |w.identity|
              && forall b :: 0 <= b < |w.identity| ==>
                   || r.value.world.identity[b] == w.identity[b]
                   || (r.value.world.identity[b] == None && HandedOut(r.value, b))
  {
    var st := Round(w, inst.tokenBudget, [], false);
    assert RoundInv(inst, st) by { NoServices(w); }
    hide PoolInv, Queued, OthersIdle, AllHolding, RunAll, AdmitAll, Listing, Batched, Named, HandedOut, RoundInv,
         Opened;
    RoundListing(inst, st);
    assert w.running[0..] == w.running;
    PassingStart(inst, st);
    RunAllKeeps(inst, st, w.running, 0, script);
    RunAllNames(inst, st, w.running, 0, script);
    var run := RunAll(inst, st, w.running, script);
    if run.Ok? && !run.value.preempted {
      AdmitAllNames(inst, run.value, script);
      var r := AdmitAll(inst, run.value, script);
      if r.Ok? { HandsOutTrans(st, run.value, r.value); }
    }
  }

  lemma PassingStart(inst: Instance, st: Round)
    requires RoundInv(inst, st) && st.services == []
    ensures Passing(inst, st, st.world.running, 0) && Below(st.world.running, |inst.requests|)
  {
    RoundListing(inst, st);
    hide RoundInv;
  }

  // ---------------------------------------------------------------------------------------
  // Service

  /** The first `full` blocks of the table are called after the prompt, all others keep their names. */
  ghost predicate Names(before: seq<Option<seq<int>>>, after: seq<Option<seq<int>>>, blocks: seq<nat>, hashes: seq<int>, full: nat)
    requires full <= |blocks| && full <= |hashes|
  {
    && |after| == |before|
    && (forall pos :: 0 <= pos < full ==> blocks[pos] < |after| && after[blocks[pos]] == Some(hashes[..pos + 1]))
    && (forall b: nat :: b < |before| && b !in blocks[..full] ==> after[b] == before[b])
  }

  lemma {:induction false} StampMeans(identity: seq<Option<seq<int>>>, blocks: seq<nat>, hashes: seq<int>, full: nat)
    requires full <= |blocks| && full <= |hashes| && Distinct(blocks) && Below(blocks, |identity|)
    ensures Names(identity, Stamp(identity, blocks, hashes, full), blocks, hashes, full)
  {
    if full > 0 {
      StampMeans(identity, blocks, hashes, full - 1);
      assert Lead(hashes, full) == hashes[..full];
      assert blocks[..full] == blocks[..full - 1] + [blocks[full - 1]];
    }
  }

  /** The service of a running request: its tokens and the blocks that hold them are there. */
  ghost predicate CanName(inst: Instance, w: World, s: Service) {
    && inst.blockSize > 0 && |w.progress| == |inst.requests| && s.index < |w.progress| && s.tokens >= 0
    && var r, p := inst.requests[s.index], w.progress[s.index];
       0 <= FullBlocks(r, p.computed + s.tokens, inst.blockSize) <= Min(|p.blocks|, |r.hashes|)
  }

  /**
   After a service exactly the full prompt blocks that the request has computed are called after its prompt
   prefixes; no other block's name changes, and every running request's table stays named.
   */
  lemma ServeNames(inst: Instance, w: World, s: Service, end: int)
    requires Named(inst, w) && PoolInv(w, inst.capacity) && CanName(inst, w, s) && s.index in w.running
    ensures var r, p := inst.requests[s.index], w.progress[s.index];
            && Names(w.identity, Serve(inst, w, s, end).identity, p.blocks, r.hashes,
                     FullBlocks(r, p.computed + s.tokens, inst.blockSize))
            && Named(inst, Serve(inst, w, s, end))
  {
    var r, p, i := inst.requests[s.index], w.progress[s.index], s.index;
    var before: nat := FullBlocks(r, p.computed, inst.blockSize);
    var full: nat := FullBlocks(r, p.computed + s.tokens, inst.blockSize);
    DivMono(Min(p.computed, r.input), Min(p.computed + s.tokens, r.input), inst.blockSize);
    assert Distinct(p.blocks) && Below(p.blocks, |w.identity|);
    StampMeans(w.identity, p.blocks, r.hashes, full);
    ServeEffect(inst, w, s, end);
    var a := Serve(inst, w, s, end);
    hide Serve, Stamp, FullBlocks, PoolInv;
    assert NamedTable(inst, w, i);
    ServedTable(inst, w, a, i, before, full);
    forall j | j in a.running && j < |a.progress| && j != i ensures NamedTable(inst, a, j) {
      OtherTable(inst, w, a, i, j, before, full);
    }
  }

  lemma ServeEffect(inst: Instance, w: World, s: Service, end: int)
    requires CanName(inst, w, s)
    ensures var a, r, p := Serve(inst, w, s, end), inst.requests[s.index], w.progress[s.index];
            && a.identity == Stamp(w.identity, p.blocks, r.hashes, FullBlocks(r, p.computed + s.tokens, inst.blockSize))
            && a.running == w.running && a.refs == w.refs && |a.progress| == |w.progress|
            && a.free == w.free
            && (forall j :: 0 <= j < |w.progress| && j != s.index ==> a.progress[j] == w.progress[j])
            && a.progress[s.index].blocks == p.blocks && a.progress[s.index].computed == p.computed + s.tokens
  {
    hide Stamp;
  }

  lemma ServedTable(inst: Instance, w: World, a: World, i: nat, before: nat, full: nat)
    requires inst.blockSize > 0 && i < |w.progress| == |a.progress| == |inst.requests| && NamedTable(inst, w, i)
    requires before == FullBlocks(inst.requests[i], w.progress[i].computed, inst.blockSize) <= full
    requires full == FullBlocks(inst.requests[i], a.progress[i].computed, inst.blockSize)
    requires a.progress[i].blocks == w.progress[i].blocks && Distinct(w.progress[i].blocks)
    requires full <= |w.progress[i].blocks| && full <= |inst.requests[i].hashes|
    requires Names(w.identity, a.identity, w.progress[i].blocks, inst.requests[i].hashes, full)
    ensures NamedTable(inst, a, i)
  {
    hide FullBlocks;
    var p, r := w.progress[i], inst.requests[i];
    forall pos | 0 <= pos < |p.blocks| ensures CalledAt(a.identity, p.blocks[pos], r.hashes, pos, full) {
      assert CalledAt(w.identity, p.blocks[pos], r.hashes, pos, before);
      if pos >= full { assert p.blocks[pos] !in p.blocks[..full]; }
    }
  }

  /** Another running request's blocks keep their names: shared ones had the same, and new ones are nobody else's. */
  lemma OtherTable(inst: Instance, w: World, a: World, i: nat, j: nat, before: nat, full: nat)
    requires Named(inst, w) && PoolInv(w, inst.capacity) && i < |w.progress| && j < |w.progress| && i != j
    requires i in w.running && j in w.running && |a.progress| == |w.progress| && a.progress[j] == w.progress[j]
    requires before == FullBlocks(inst.requests[i], w.progress[i].computed, inst.blockSize)
    requires full <= |w.progress[i].blocks| && full <= |inst.requests[i].hashes|
    requires Names(w.identity, a.identity, w.progress[i].blocks, inst.requests[i].hashes, full)
    ensures NamedTable(inst, a, j)
  {
    hide FullBlocks, PoolInv;
    var p := w.progress[i];
    assert NamedTable(inst, w, i) && NamedTable(inst, w, j);
    forall b | b in w.progress[j].blocks && b < |w.identity| ensures a.identity[b] == w.identity[b] {
      if b in p.blocks[..full] {
        var pos :| 0 <= pos < full && p.blocks[pos] == b;
        assert CalledAt(w.identity, b, inst.requests[i].hashes, pos, before);
        assert w.identity[b].Some? by { SharedCalled(w, inst.capacity, i, j, b); }
      }
    }
    NamedFrame(inst, w, a, j);
  }

  /** A block in two tables has a name. */
  lemma SharedCalled(w: World, capacity: nat, i: nat, j: nat, b: nat)
    requires PoolInv(w, capacity) && Sole(w.identity, w.refs) && i < |w.progress| && j < |w.progress| && i != j
    requires b in w.progress[i].blocks && b in w.progress[j].blocks
    ensures b < |w.identity| && w.identity[b].Some?
  {
    HeldNotFree(w, capacity, i, b);
    TwoHolders(w.progress, b, |w.progress|, i, j);
  }

  lemma {:induction false} TwoHolders(progress: seq<Progress>, b: nat, n: nat, i: nat, j: nat)
    requires n <= |progress| && i < n && j < n && i != j && b in progress[i].blocks && b in progress[j].blocks
    ensures Holders(progress, b, n) >= 2
  {
    if i == n - 1 { HolderCounts(progress, b, n - 1, j); }
    else if j == n - 1 { HolderCounts(progress, b, n - 1, i); }
    else { TwoHolders(progress, b, n - 1, i, j); }
  }

  /** Block `b` is a full prompt block of a request with a service, once that is computed. */
  ghost predicate Computes(inst: Instance, w: World, services: seq<Service>, b: nat) {
    exists k :: 0 <= k < |services| && ComputesOne(inst, w, services[k], b)
  }

  ghost predicate ComputesOne(inst: Instance, w: World, s: Service, b: nat) {
    && CanName(inst, w, s)
    && b in w.progress[s.index].blocks[..FullBlocks(inst.requests[s.index], w.progress[s.index].computed + s.tokens, inst.blockSize)]
  }

  ghost predicate AllCanName(inst: Instance, w: World, services: seq<Service>) {
    && (forall k :: 0 <= k < |services| ==> CanName(inst, w, services[k]) && services[k].index in w.running)
    && forall j, k :: 0 <= j < k < |services| ==> services[j].index != services[k].index
  }

  /** Serving one request leaves the others as they were. */
  lemma ServeRest(inst: Instance, w: World, services: seq<Service>, end: int)
    requires AllCanName(inst, w, services) && services != [] && PoolInv(w, inst.capacity)
    ensures CanName(inst, w, services[0])
    ensures var a := Serve(inst, w, services[0], end);
            && AllCanName(inst, a, services[1..]) && PoolInv(a, inst.capacity) && a.running == w.running
            && forall k :: 1 <= k < |services| ==>
                 CanName(inst, w, services[k]) && a.progress[services[k].index] == w.progress[services[k].index]
  {
    var s := services[0];
    ServeEffect(inst, w, s, end);
    var a := Serve(inst, w, s, end);
    ServeLength(inst, w, s, end);
    hide Serve, FullBlocks, PoolInv;
    PoolTables(w, a, inst.capacity);
    forall k | 1 <= k < |services|
      ensures CanName(inst, w, services[k]) && services[k].index != s.index
              && a.progress[services[k].index] == w.progress[services[k].index]
    {
    }
    forall k | 0 <= k < |services[1..]| ensures services[1..][k] == services[k + 1] {}
  }

  lemma ServeLength(inst: Instance, w: World, s: Service, end: int)
    requires CanName(inst, w, s)
    ensures |Serve(inst, w, s, end).identity| == |w.identity|
  {
    hide Stamp;
  }

  /** What the batch as a whole does to the names. */
  lemma {:induction false} ServeAllNames(inst: Instance, w: World, services: seq<Service>, end: int)
    requires Named(inst, w) && PoolInv(w, inst.capacity) && AllCanName(inst, w, services) && Servable(inst, services)
    ensures inst.blockSize > 0 && |w.progress| == |inst.requests|
    ensures var r := ServeAll(inst, w, services, end);
            && Named(inst, r) && |r.identity| == |w.identity|
            && forall b: nat :: b < |w.identity| && !Computes(inst, w, services, b) ==> r.identity[b] == w.identity[b]
    decreases |services|
  {
    NamedSizes(inst, w);
    hide Serve, Named, PoolInv, CanName, Computes, FullBlocks, Names, AllCanName, Servable;
    if services != [] {
      var s, rest := services[0], services[1..];
      ServeRest(inst, w, services, end);
      ServeNames(inst, w, s, end);
      var a := Serve(inst, w, s, end);
      ServeLength(inst, w, s, end);
      ServableRest(inst, services);
      ServeAllNames(inst, a, rest, end);
      forall b: nat | b < |w.identity| && !Computes(inst, w, services, b)
        ensures a.identity[b] == w.identity[b] && !Computes(inst, a, rest, b)
      {
        NotComputed(inst, w, a, services, end, b);
      }
    }
  }

  lemma ServableRest(inst: Instance, services: seq<Service>)
    requires Servable(inst, services) && services != []
    ensures services[0].index < |inst.requests| && services[0].tokens >= 0 && Servable(inst, services[1..])
  {
    assert forall k :: 0 <= k < |services[1..]| ==> services[1..][k] == services[k + 1];
  }

  lemma NotComputed(inst: Instance, w: World, a: World, services: seq<Service>, end: int, b: nat)
    requires AllCanName(inst, w, services) && services != [] && b < |w.identity| && !Computes(inst, w, services, b)
    requires CanName(inst, w, services[0]) && a == Serve(inst, w, services[0], end) && |a.identity| == |w.identity|
    requires var r, p := inst.requests[services[0].index], w.progress[services[0].index];
             Names(w.identity, a.identity, p.blocks, r.hashes, FullBlocks(r, p.computed + services[0].tokens, inst.blockSize))
    requires forall k :: 1 <= k < |services| ==>
               CanName(inst, w, services[k]) && a.progress[services[k].index] == w.progress[services[k].index]
    requires |a.progress| == |w.progress|
    ensures a.identity[b] == w.identity[b] && !Computes(inst, a, services[1..], b)
  {
    hide Serve, FullBlocks;
    assert !ComputesOne(inst, w, services[0], b);
    var rest := services[1..];
    forall k | 0 <= k < |rest| ensures ComputesOne(inst, a, rest[k], b) <==> ComputesOne(inst, w, services[k + 1], b) {
      assert rest[k] == services[k + 1];
    }
  }

  /** Every service of a plan can be given. */
  lemma RoundCanName(inst: Instance, st: Round)
    requires RoundInv(inst, st)
    ensures AllCanName(inst, st.world, st.services)
  {
    BatchIndices(inst, st);
    ServableRound(inst, st);
    forall k | 0 <= k < |st.services| ensures CanName(inst, st.world, st.services[k]) {
      ServiceCanName(inst, st, k);
    }
    hide RoundInv, CanName;
  }

  lemma ServiceCanName(inst: Instance, st: Round, k: nat)
    requires RoundInv(inst, st) && k < |st.services|
    requires st.services[k].index in st.world.running && st.services[k].index < |st.world.progress|
    ensures CanName(inst, st.world, st.services[k])
  {
    var s := st.services[k];
    PledgedOf(st.services, k);
    assert Holding(inst, st.world, s.index, Pledged(st.services, s.index));
    var r, p := inst.requests[s.index], st.world.progress[s.index];
    hide PoolInv, Queued, OthersIdle, AllHolding, Pledged, Ceil;
    FullBounds(r, p.computed + s.tokens, inst.blockSize);
  }

  lemma FullBounds(r: Request, n: nat, size: int)
    requires size > 0
    ensures 0 <= FullBlocks(r, n, size) <= Ceil(n, size) && FullBlocks(r, n, size) <= Ceil(r.input, size)
  {
    hide Ceil;
    DivMono(0, Min(n, r.input), size);
    DivMono(Min(n, r.input), n, size);
    DivMono(Min(n, r.input), r.input, size);
    FullAtMostCeil(n, size);
    FullAtMostCeil(r.input, size);
  }

  // ---------------------------------------------------------------------------------------
  // The iteration

  lemma FinishNames(inst: Instance, w: World, i: nat)
    requires Named(inst, w) && i < |w.progress| && i in w.running && Distinct(w.running)
    ensures Named(inst, Finish(w, i)) && Finish(w, i).identity == w.identity && Distinct(Finish(w, i).running)
  {
    hide FullBlocks, Keep, Reverse, CalledAt;
    var r := Finish(w, i);
    RemoveAtDistinct(w.running, IndexOf(w.running, i));
    forall j | j in r.running && j < |r.progress| ensures NamedTable(inst, r, j) {
      assert j in w.running && j != i;
      NamedFrame(inst, w, r, j);
    }
  }

  lemma {:induction false} FinishAllNames(inst: Instance, w: World, todo: seq<nat>)
    requires Named(inst, w) && Distinct(w.running)
    ensures Named(inst, FinishAll(w, todo)) && FinishAll(w, todo).identity == w.identity
    decreases |todo|
  {
    hide Named, Finish, Distinct;
    if todo != [] {
      if todo[0] < |w.progress| && w.progress[todo[0]].completed.Some? && todo[0] in w.running {
        FinishNames(inst, w, todo[0]);
        FinishAllNames(inst, Finish(w, todo[0]), todo[1..]);
      } else {
        FinishAllNames(inst, w, todo[1..]);
      }
    }
  }

  /** The table of the `k`-th service is called after its prompt, as far as it is computed, in the settled world. */
  ghost predicate Called(inst: Instance, w: World, s: Service, identity: seq<Option<seq<int>>>) {
    && CanName(inst, w, s)
    && var p, r := w.progress[s.index], inst.requests[s.index];
       forall pos :: 0 <= pos < FullBlocks(r, p.computed + s.tokens, inst.blockSize) ==>
         p.blocks[pos] < |identity| && identity[p.blocks[pos]] == Some(r.hashes[..pos + 1])
  }

  /**
   A served batch: every full prompt block computed by a service is called after its prompt prefix, also for the
   requests that complete and leave; no other block changes its name; and the tables of the running requests stay
   named.
   */
  lemma BatchNames(inst: Instance, st: Round, end: int)
    requires RoundInv(inst, st) && Named(inst, st.world)
    ensures Servable(inst, st.services) && |st.world.progress| == |inst.requests| && inst.blockSize > 0
    ensures var r := Settled(inst, st, end);
            && Named(inst, r) && |r.identity| == |st.world.identity|
            && (forall k :: 0 <= k < |st.services| ==> Called(inst, st.world, st.services[k], r.identity))
            && (forall b: nat :: b < |r.identity| && !Computes(inst, st.world, st.services, b) ==>
                  r.identity[b] == st.world.identity[b])
  {
    RoundListing(inst, st);
    RoundCanName(inst, st);
    ServableRound(inst, st);
    RoundPoolInv(inst, st);
    hide RoundInv, ServeAll, FinishAll, Named, CanName, Computes, FullBlocks, PoolInv, Listing, AllServed, Called;
    ServeAllNames(inst, st.world, st.services, end);
    ServeAllRecords(inst, st.world, st.services, end);
    var served := ServeAll(inst, st.world, st.services, end);
    FinishAllNames(inst, served, served.running);
    NamedTime(inst, FinishAll(served, served.running), end);
    forall k | 0 <= k < |st.services| ensures Called(inst, st.world, st.services[k], served.identity) {
      ServiceCalled(inst, st.world, served, st.services, end, k);
    }
  }

  lemma RoundPoolInv(inst: Instance, st: Round)
    requires RoundInv(inst, st)
    ensures PoolInv(st.world, inst.capacity)
  {
  }

  lemma NamedTime(inst: Instance, w: World, time: int)
    requires Named(inst, w)
    ensures Named(inst, w.(time := time))
  {
    hide FullBlocks, CalledAt;
    forall i | i in w.running && i < |w.progress| ensures NamedTable(inst, w.(time := time), i) {
      NamedFrame(inst, w, w.(time := time), i);
    }
  }

  lemma ServiceCalled(inst: Instance, w: World, a: World, services: seq<Service>, end: int, k: nat)
    requires Named(inst, a) && AllCanName(inst, w, services) && k < |services| && a.running == w.running
    requires |w.progress| == |inst.requests| && AllServed(inst, w.progress, a.progress, services, end)
    ensures Called(inst, w, services[k], a.identity)
  {
    hide FullBlocks;
    var s := services[k];
    var p, r := w.progress[s.index], inst.requests[s.index];
    assert a.progress[s.index].blocks == p.blocks && a.progress[s.index].computed == p.computed + s.tokens;
    assert NamedTable(inst, a, s.index);
    forall pos | 0 <= pos < FullBlocks(r, p.computed + s.tokens, inst.blockSize)
      ensures p.blocks[pos] < |a.identity| && a.identity[p.blocks[pos]] == Some(r.hashes[..pos + 1])
    {
      assert CalledAt(a.identity, p.blocks[pos], r.hashes, pos, FullBlocks(r, p.computed + s.tokens, inst.blockSize));
    }
  }

  lemma EnqueueNames(inst: Instance, w: World)
    requires Named(inst, w)
    ensures Named(inst, Enqueue(inst, w)) && Enqueue(inst, w).identity == w.identity
  {
    hide FullBlocks, CalledAt, Arrivals;
    var q := Enqueue(inst, w);
    forall i | i in q.running && i < |q.progress| ensures NamedTable(inst, q, i) { NamedFrame(inst, w, q, i); }
  }

  /** Every iteration keeps the tables of the running requests named. */
  lemma IterateNames(inst: Instance, w: World, script: Option<seq<seq<nat>>>, limits: Option<seq<Limit>>)
    requires Inv(inst, w) && Named(inst, w) && !Finished(w) && (limits.Some? ==> |limits.value| == |inst.requests|)
    ensures Fitting(inst, Enqueue(inst, w))
    ensures Iterate(inst, w, script, limits).Ok? ==> Named(inst, Iterate(inst, w, script, limits).value)
  {
    hide Inv, Schedule, Opened, Enqueue, Listing, RoundInv, Named, Settled, Late, Future, Finished, HandedOut;
    EnqueueLoad(inst, w);
    EnqueueNames(inst, w);
    var q := Enqueue(inst, w);
    ScheduleKeeps(inst, q, script);
    ScheduleNames(inst, q, script);
    var plan := Schedule(inst, q, script);
    if plan.Ok? {
      var st := plan.value;
      if st.services == [] {
        NamedSizes(inst, st.world);
        if Future(inst, st.world) != {} { NamedTime(inst, st.world, Least(Future(inst, st.world))); }
      } else {
        ServableRound(inst, st);
        if Duration(inst, st.services).Some? { BatchNames(inst, st, st.world.time + Duration(inst, st.services).value); }
      }
    }
  }

  /** Before the first iteration nobody runs and no block is referenced. */
  lemma StartNames(inst: Instance)
    requires inst.Valid()
    ensures Named(inst, Start(inst))
  {
  }
}
