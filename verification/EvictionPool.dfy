/** Block ownership in the eviction model: what validate_state asserts, kept by every move of blocks. */
module EvictionPool {
  import opened Common
  import opened Division
  import opened OrderedChoices
  import opened EvictionModel

  // ---------------------------------------------------------------------------------------
  // validate_state

  /** How many of the first `n` requests hold block `b`. */
  function Holders(progress: seq<Progress>, b: nat, n: nat): nat
    requires n <= |progress|
  {
    if n == 0 then 0 else Holders(progress, b, n - 1) + if b in progress[n - 1].blocks then 1 else 0
  }

  /** Every reference count is the number of tables that hold the block. */
  ghost predicate Counted(refs: seq<int>, progress: seq<Progress>) {
    forall b :: 0 <= b < |refs| ==> refs[b] == Holders(progress, b, |progress|)
  }

  /** `free` holds exactly the blocks without references, once each. */
  ghost predicate FreeIsIdle(free: seq<nat>, refs: seq<int>) {
    Distinct(free) && forall b: nat :: b in free <==> b < |refs| && refs[b] == 0
  }

  ghost predicate TablesOK(progress: seq<Progress>, capacity: nat) {
    forall i :: 0 <= i < |progress| ==> Distinct(progress[i].blocks) && Below(progress[i].blocks, capacity)
  }

  /** validate_state, and that no table holds a block twice. */
  ghost predicate PoolInv(w: World, capacity: nat) {
    && |w.identity| == |w.refs| == capacity
    && Counted(w.refs, w.progress) && FreeIsIdle(w.free, w.refs) && TablesOK(w.progress, capacity)
  }

  lemma {:induction false} HoldersUpdate(progress: seq<Progress>, b: nat, n: nat, i: nat, p: Progress)
    requires n <= |progress| && i < |progress|
    ensures Holders(progress[i := p], b, n) == Holders(progress, b, n)
              + (if i < n && b in p.blocks then 1 else 0) - (if i < n && b in progress[i].blocks then 1 else 0)
  {
    if n > 0 { HoldersUpdate(progress, b, n - 1, i, p); }
  }

  lemma {:induction false} HolderCounts(progress: seq<Progress>, b: nat, n: nat, i: nat)
    requires i < n <= |progress| && b in progress[i].blocks
    ensures Holders(progress, b, n) >= 1
  {
    if i < n - 1 { HolderCounts(progress, b, n - 1, i); }
  }

  /** A table changes: the counts follow. */
  lemma CountedUpdate(refs: seq<int>, refs': seq<int>, progress: seq<Progress>, i: nat, p: Progress)
    requires Counted(refs, progress) && i < |progress| && |refs'| == |refs|
    requires forall b :: 0 <= b < |refs| ==>
               refs'[b] == refs[b] + (if b in p.blocks then 1 else 0) - (if b in progress[i].blocks then 1 else 0)
    ensures Counted(refs', progress[i := p])
  {
    forall b | 0 <= b < |refs'| ensures refs'[b] == Holders(progress[i := p], b, |progress|) {
      HoldersUpdate(progress, b, |progress|, i, p);
    }
  }

  /** A held block is not free. */
  lemma HeldNotFree(w: World, capacity: nat, i: nat, b: nat)
    requires PoolInv(w, capacity) && i < |w.progress| && b in w.progress[i].blocks
    ensures b < capacity && w.refs[b] >= 1 && b !in w.free
  {
    var k := IndexOf(w.progress[i].blocks, b);
    HolderCounts(w.progress, b, |w.progress|, i);
  }

  // ---------------------------------------------------------------------------------------
  // Lists

  lemma {:induction false} KeepDistinct(s: seq<nat>, which: set<nat>)
    requires Distinct(s)
    ensures Distinct(Keep(s, which))
  {
    if s != [] {
      KeepDistinct(s[1..], which);
      var rest := Keep(s[1..], which);
      forall k | 0 <= k < |rest| ensures rest[k] != s[0] {
        assert rest[k] in rest;
        var m :| 0 <= m < |s[1..]| && s[1..][m] == rest[k];
        assert s[m + 1] == rest[k];
      }
    }
  }

  lemma {:induction false} ReverseDistinct(s: seq<nat>)
    requires Distinct(s)
    ensures Distinct(Reverse(s))
  {
    if s != [] {
      ReverseDistinct(s[1..]);
      var rest := Reverse(s[1..]);
      forall k | 0 <= k < |rest| ensures rest[k] != s[0] {
        assert rest[k] in rest;
        var m :| 0 <= m < |s[1..]| && s[1..][m] == rest[k];
        assert s[m + 1] == rest[k];
      }
    }
  }

  /** Taking out a distinct part leaves the rest. */
  lemma WithoutLength(s: seq<nat>, gone: seq<nat>)
    requires Distinct(s) && Distinct(gone) && forall x :: x in gone ==> x in s
    ensures |Without(s, gone)| == |s| - |gone|
  {
    KeepDistinct(s, Elements(s) - Elements(gone));
    ElementsLength(s);
    ElementsLength(gone);
    ElementsLength(Without(s, gone));
    assert Elements(Without(s, gone)) == Elements(s) - Elements(gone);
    assert Elements(gone) <= Elements(s);
  }

  // ---------------------------------------------------------------------------------------
  // release

  lemma ReleaseKeeps(w: World, capacity: nat, i: nat)
    requires PoolInv(w, capacity) && i < |w.progress|
    ensures PoolInv(Release(w, i), capacity)
  {
    hide Keep, Reverse;
    var r := Release(w, i);
    var blocks := w.progress[i].blocks;
    CountedUpdate(w.refs, r.refs, w.progress, i, r.progress[i]);
    var ids := Reverse(blocks);
    var idle := Keep(ids, IdleBlocks(r.refs));
    ReverseDistinct(blocks);
    KeepDistinct(ids, IdleBlocks(r.refs));
    SplitDistinct(idle, CachedBlocks(w.identity), w.free, w, capacity, i);
    ReleaseFree(w, capacity, i);
  }

  lemma SplitDistinct(idle: seq<nat>, cached: set<nat>, free: seq<nat>, w: World, capacity: nat, i: nat)
    requires PoolInv(w, capacity) && i < |w.progress| && free == w.free
    requires Distinct(idle) && forall x :: x in idle ==> x in w.progress[i].blocks
    ensures Distinct(Without(idle, Keep(idle, cached)) + free + Keep(idle, cached))
  {
    var uncached, kept := Without(idle, Keep(idle, cached)), Keep(idle, cached);
    KeepDistinct(idle, cached);
    KeepDistinct(idle, Elements(idle) - Elements(kept));
    forall x | x in idle ensures x !in free { HeldNotFree(w, capacity, i, x); }
    DistinctConcat(uncached, free);
    DistinctConcat(uncached + free, kept);
  }

  lemma ReleaseFree(w: World, capacity: nat, i: nat)
    requires PoolInv(w, capacity) && i < |w.progress|
    ensures var r := Release(w, i); forall b: nat :: b in r.free <==> b < |r.refs| && r.refs[b] == 0
  {
    hide Keep, Reverse;
    var r := Release(w, i);
    var blocks := w.progress[i].blocks;
    forall b: nat ensures b in r.free <==> b < |r.refs| && r.refs[b] == 0 {
      var idle := Keep(Reverse(blocks), IdleBlocks(r.refs));
      var kept := Keep(idle, CachedBlocks(w.identity));
      assert b in r.free <==> b in idle || b in w.free;
      if b in blocks { HeldNotFree(w, capacity, i, b); }
    }
  }

  // ---------------------------------------------------------------------------------------
  // allocate

  /** Distinct free blocks are taken: the pool stays sound and the table grows by them. */
  lemma TakeKeeps(w: World, capacity: nat, i: nat, blocks: seq<nat>)
    requires PoolInv(w, capacity) && i < |w.progress| && Distinct(blocks) && forall b :: b in blocks ==> b in w.free
    ensures PoolInv(Take(w, i, blocks), capacity)
    ensures |Take(w, i, blocks).free| == |w.free| - |blocks|
  {
    hide Keep;
    var r := Take(w, i, blocks);
    var table := w.progress[i].blocks;
    forall b | b in table ensures b !in blocks { HeldNotFree(w, capacity, i, b); }
    DistinctConcat(table, blocks);
    assert Below(table + blocks, capacity) by {
      forall k | 0 <= k < |table + blocks| ensures (table + blocks)[k] < capacity {
        if k >= |table| { assert blocks[k - |table|] in blocks; }
      }
    }
    forall b | 0 <= b < |w.refs| ensures
      r.refs[b] == w.refs[b] + (if b in r.progress[i].blocks then 1 else 0) - (if b in table then 1 else 0)
    {
      if b in blocks { assert b in w.free; }
    }
    CountedUpdate(w.refs, r.refs, w.progress, i, r.progress[i]);
    KeepDistinct(w.free, Elements(w.free) - Elements(blocks));
    WithoutLength(w.free, blocks);
  }

  lemma {:induction false} MixOK(stock: seq<nat>, cached: set<nat>, victims: seq<nat>)
    requires |Keep(stock, cached)| == |victims| && Distinct(stock) && Distinct(victims)
    requires forall v :: v in victims ==> v in cached
    ensures var m := Mix(stock, cached, victims);
            && |m| == |stock| && Distinct(m)
            && forall b :: b in m <==> b in victims || (b in stock && b !in cached)
    decreases |stock|
  {
    if stock == [] {
      assert victims == [];
    } else {
      var rest := stock[1..];
      assert stock == [stock[0]] + rest;
      if stock[0] in cached {
        assert victims == [victims[0]] + victims[1..];
        MixOK(rest, cached, victims[1..]);
        var m := Mix(rest, cached, victims[1..]);
        assert victims[0] !in victims[1..];
        assert victims[0] in victims;
        DistinctConcat([victims[0]], m);
      } else {
        MixOK(rest, cached, victims);
        assert stock[0] !in rest by { assert forall k :: 0 <= k < |rest| ==> rest[k] == stock[k + 1]; }
        DistinctConcat([stock[0]], Mix(rest, cached, victims));
      }
    }
  }

  lemma {:induction false} KeepPrefix(s: seq<nat>, n: nat, which: set<nat>)
    requires n <= |s|
    ensures |Keep(s[..n], which)| <= |Keep(s, which)|
  {
    if n > 0 {
      assert s[..n][1..] == s[1..][..n - 1];
      KeepPrefix(s[1..], n - 1, which);
    }
  }

  /**
   An allocation asks the script exactly when there are at least two ordered lists of victims: when something cached must
   go and two blocks are cached. It stops for a choice exactly when the script has no action left for it.
   */
  lemma ChoiceIsOpen(w: World, i: nat, count: nat, script: Option<seq<seq<nat>>>)
    requires i < |w.progress| && 0 < count <= |w.free|
    ensures var cached := CachedBlocks(w.identity);
            var candidates, k := Keep(w.free, cached), |Keep(w.free[..count], cached)|;
            var r := Allocate(w, i, count, script);
            && (|Arrangements(candidates, k)| >= 2 <==> k >= 1 && |candidates| >= 2)
            && (|Arrangements(candidates, k)| < 2 ==> r == Allocate(w, i, count, None) && r.Ok? && r.value.used == w.used)
            && (r.Choose? <==> |Arrangements(candidates, k)| >= 2 && script.Some? && |w.used| >= |script.value|)
            && (r.Choose? ==> r == Choose(candidates, k))
  {
    hide Keep, Arrangements, Choices, Mix, LegalVictims;
    var cached := CachedBlocks(w.identity);
    KeepPrefix(w.free, count, cached);
    ChoicesOpen(|Keep(w.free, cached)|, |Keep(w.free[..count], cached)|);
    ArrangementsCount(Keep(w.free, cached), |Keep(w.free[..count], cached)|);
  }

  /** The stock victims are a legal choice. */
  lemma StockLegal(w: World, count: nat)
    requires Distinct(w.free) && count <= |w.free|
    ensures var cached := CachedBlocks(w.identity);
            LegalVictims(Keep(w.free[..count], cached), Keep(w.free, cached), |Keep(w.free[..count], cached)|)
  {
    hide Keep;
    var stock := w.free[..count];
    var cached := CachedBlocks(w.identity);
    KeepDistinct(stock, cached);
    ElementsLength(Keep(stock, cached));
  }

  /** Any legal victims leave a sound pool; exactly `count` blocks go from `free` to the table. */
  lemma VictimsTaken(w: World, capacity: nat, i: nat, count: nat, victims: seq<nat>)
    requires PoolInv(w, capacity) && i < |w.progress| && count <= |w.free|
    requires var cached := CachedBlocks(w.identity);
             LegalVictims(victims, Keep(w.free, cached), |Keep(w.free[..count], cached)|)
    ensures var m := Mix(w.free[..count], CachedBlocks(w.identity), victims);
            && |m| == count && PoolInv(Take(w, i, m), capacity) && |Take(w, i, m).free| == |w.free| - count
  {
    hide Keep, Take;
    var cached := CachedBlocks(w.identity);
    var stock := w.free[..count];
    DistinctByCount(victims);
    forall v | v in victims ensures v in cached && v in w.free {
      assert v in Elements(victims);
      assert v in Elements(Keep(w.free, cached));
    }
    MixOK(stock, cached, victims);
    forall b | b in Mix(stock, cached, victims) ensures b in w.free {
      if b in stock { assert w.free[IndexOf(stock, b)] == b; }
    }
    TakeKeeps(w, capacity, i, Mix(stock, cached, victims));
  }

  /** What one allocation does, whatever the victims. */
  ghost predicate Allocated(w: World, r: World, i: nat, count: nat)
    requires i < |w.progress| == |r.progress|
  {
    && r == w.(free := r.free, identity := r.identity, refs := r.refs, used := r.used, progress := r.progress)
    && |r.progress[i].blocks| == |w.progress[i].blocks| + count && |r.free| == |w.free| - count
    && r.progress == w.progress[i := w.progress[i].(blocks := r.progress[i].blocks)]
  }

  lemma AllocateKeeps(w: World, capacity: nat, i: nat, count: nat, script: Option<seq<seq<nat>>>)
    requires PoolInv(w, capacity) && i < |w.progress| && count <= |w.free|
    ensures var r := Allocate(w, i, count, script);
            && (r.Ok? ==> PoolInv(r.value, capacity) && Allocated(w, r.value, i, count))
            && (r.Fails? ==> r.why == IllegalVictims) && (script.None? ==> r.Ok?) && (r.Choose? ==> Distinct(r.candidates))
  {
    hide Keep, Choices, LegalVictims, Mix, PoolInv;
    PoolDistinct(w, capacity);
    KeepDistinct(w.free, CachedBlocks(w.identity));
    if count > 0 {
      var cached := CachedBlocks(w.identity);
      var stockVictims := Keep(w.free[..count], cached);
      StockLegal(w, count);
      VictimsTaken(w, capacity, i, count, stockVictims);
      UsedKeeps(w, capacity, [stockVictims]);
      VictimsTaken(w.(used := w.used + [stockVictims]), capacity, i, count, stockVictims);
      if script.Some? && |w.used| < |script.value| {
        var selected := script.value[|w.used|];
        if LegalVictims(selected, Keep(w.free, cached), |stockVictims|) {
          UsedKeeps(w, capacity, [selected]);
          VictimsTaken(w.(used := w.used + [selected]), capacity, i, count, selected);
        }
      }
    }
  }

  lemma PoolDistinct(w: World, capacity: nat)
    requires PoolInv(w, capacity)
    ensures Distinct(w.free)
  {}

  lemma UsedKeeps(w: World, capacity: nat, more: seq<seq<nat>>)
    requires PoolInv(w, capacity)
    ensures PoolInv(w.(used := w.used + more), capacity)
  {}

  // ---------------------------------------------------------------------------------------
  // Admission

  /** Hits stop short of the block with the last prompt token. */
  lemma {:induction false} HitsShort(size: int, r: Request, identity: seq<Option<seq<int>>>, pos: nat)
    requires size > 0 && r.input > 0 && pos <= (r.input - 1) / size
    ensures pos + |Hits(size, r, identity, pos)| <= (r.input - 1) / size
    decreases r.input - pos
  {
    if pos < r.input && pos < (r.input - 1) / size { HitsShort(size, r, identity, pos + 1); }
  }

  /** The `k`-th hit holds the identity of that prompt prefix. */
  lemma {:induction false} HitAt(size: int, r: Request, identity: seq<Option<seq<int>>>, pos: nat, k: nat)
    requires size > 0 && k < |Hits(size, r, identity, pos)|
    ensures var b := Hits(size, r, identity, pos)[k];
            b < |identity| && identity[b] == Some(Lead(r.hashes, pos + k + 1))
    ensures pos + k < (r.input - 1) / size
    decreases k
  {
    if k > 0 { HitAt(size, r, identity, pos + 1, k - 1); }
  }

  lemma HitsDistinct(size: int, r: Request, identity: seq<Option<seq<int>>>)
    requires size > 0 && |r.hashes| == Ceil(r.input, size)
    ensures Distinct(Hits(size, r, identity, 0)) && Below(Hits(size, r, identity, 0), |identity|)
  {
    hide Hits;
    var hits := Hits(size, r, identity, 0);
    FullBelowCeil(r.input, size);
    forall i | 0 <= i < |hits| ensures hits[i] < |identity| { HitAt(size, r, identity, 0, i); }
    forall i, j | 0 <= i < j < |hits| ensures hits[i] != hits[j] {
      HitAt(size, r, identity, 0, i);
      HitAt(size, r, identity, 0, j);
      assert |Lead(r.hashes, i + 1)| != |Lead(r.hashes, j + 1)|;
    }
  }

  /** Holding distinct hits for a request without blocks keeps the pool sound. */
  lemma HoldKeeps(inst: Instance, w: World, i: nat, hits: seq<nat>)
    requires inst.blockSize > 0 && PoolInv(w, inst.capacity) && i < |w.progress| && w.progress[i].blocks == []
    requires Distinct(hits) && Below(hits, inst.capacity)
    ensures PoolInv(Hold(inst, w, i, hits), inst.capacity)
    ensures |Hold(inst, w, i, hits).free| == |w.free| - |Keep(hits, IdleBlocks(w.refs))|
  {
    hide Keep;
    var r := Hold(inst, w, i, hits);
    var idle := Keep(hits, IdleBlocks(w.refs));
    CountedUpdate(w.refs, r.refs, w.progress, i, r.progress[i]);
    KeepDistinct(hits, IdleBlocks(w.refs));
    KeepDistinct(w.free, Elements(w.free) - Elements(idle));
    WithoutLength(w.free, idle);
    forall b: nat ensures b in r.free <==> b < |r.refs| && r.refs[b] == 0 {
      if b < |w.refs| && b in hits { assert w.refs[b] == Holders(w.progress, b, |w.progress|) >= 0; }
    }
  }
}
