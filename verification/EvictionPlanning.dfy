/**
 What one iteration of the eviction model does, said without its loops: how released blocks queue up, who is served
 with how much, why nobody else is admitted, when somebody is preempted, and when the iteration ends.
 */
module EvictionPlanning {
  import opened Common
  import opened Division
  import opened OrderedChoices
  import opened OutputGaps
  import opened EvictionModel
  import opened EvictionPool
  import opened EvictionRound
  import opened EvictionStep
  import opened EvictionIterate
  import opened EvictionReplay
  import opened EvictionNames

  // ---------------------------------------------------------------------------------------
  // The order of blocks

  /** Positions of `s`, in order. */
  ghost predicate Increasing(at: seq<nat>, n: nat) {
    Below(at, n) && forall i, j :: 0 <= i < j < |at| ==> at[i] < at[j]
  }

  lemma {:induction false} KeepLast(s: seq<nat>, x: nat, which: set<nat>)
    ensures Keep(s + [x], which) == Keep(s, which) + (if x in which then [x] else [])
  {
    if s != [] {
      assert (s + [x])[1..] == s[1..] + [x];
      KeepLast(s[1..], x, which);
    } else {
      assert s + [x] == [x] && [x][1..] == [];
    }
  }

  /** `kept` are the members of `s` at the positions `at`, which are those of the members in `which`. */
  ghost predicate Selects(s: seq<nat>, which: set<nat>, kept: seq<nat>, at: seq<nat>) {
    && Increasing(at, |s|) && |at| == |kept|
    && (forall k :: 0 <= k < |at| ==> kept[k] == s[at[k]])
    && (forall x: nat :: x < |s| ==> (x in at <==> s[x] in which))
  }

  lemma SelectsNext(s: seq<nat>, x: nat, which: set<nat>, kept: seq<nat>, at: seq<nat>)
    requires Selects(s, which, kept, at)
    ensures if x in which then Selects(s + [x], which, kept + [x], at + [|s|]) else Selects(s + [x], which, kept, at)
  {
    var t := s + [x];
    assert forall k: nat :: k < |s| ==> t[k] == s[k];
    assert |s| !in at;
    if x in which {
      forall k: nat | k < |t| ensures k in at + [|s|] <==> t[k] in which { assert k in at + [|s|] <==> k in at || k == |s|; }
    }
  }

  /** `Keep` is a selection that keeps the order. */
  lemma {:induction false} KeepOrder(s: seq<nat>, which: set<nat>) returns (at: seq<nat>)
    ensures Selects(s, which, Keep(s, which), at)
  {
    if s == [] {
      at := [];
    } else {
      var n := |s| - 1;
      at := KeepOrder(s[..n], which);
      hide Keep, Selects;
      KeepLast(s[..n], s[n], which);
      assert s == s[..n] + [s[n]];
      SelectsNext(s[..n], s[n], which, Keep(s[..n], which), at);
      if s[n] in which { at := at + [n]; }
    }
  }

  lemma {:induction false} ReverseAt(s: seq<nat>)
    ensures forall k :: 0 <= k < |s| ==> Reverse(s)[k] == s[|s| - 1 - k]
  {
    if s != [] { ReverseAt(s[1..]); }
  }

  lemma IndexAt(s: seq<nat>, k: nat)
    requires Distinct(s) && k < |s|
    ensures IndexOf(s, s[k]) == k
  {
  }

  lemma ReverseBack(table: seq<nat>)
    requires Distinct(table)
    ensures FromTheBack(Reverse(table), table)
  {
    ReverseAt(table);
    var r := Reverse(table);
    forall i | 0 <= i < |r| ensures r[i] in table && IndexOf(table, r[i]) == |table| - 1 - i {
      IndexAt(table, |table| - 1 - i);
    }
  }

  lemma KeepBack(s: seq<nat>, which: set<nat>, table: seq<nat>)
    requires FromTheBack(s, table)
    ensures FromTheBack(Keep(s, which), table)
  {
    var at := KeepOrder(s, which);
    hide Keep;
    var r := Keep(s, which);
    forall i | 0 <= i < |r| ensures r[i] in table { assert r[i] == s[at[i]]; }
    forall i, j | 0 <= i < j < |r| ensures IndexOf(table, r[i]) > IndexOf(table, r[j]) {
      assert r[i] == s[at[i]] && r[j] == s[at[j]];
    }
  }

  /**
   Released blocks that nobody else holds are free again: those without identity in front of the queue, the others
   behind it, each time the last block of the table first.
   */
  lemma ReleaseQueues(w: World, capacity: nat, i: nat) returns (front: seq<nat>, back: seq<nat>)
    requires PoolInv(w, capacity) && i < |w.progress|
    ensures var r, table := Release(w, i), w.progress[i].blocks;
            && r.free == front + w.free + back && FromTheBack(front, table) && FromTheBack(back, table)
            && |r.refs| == |w.refs| == |w.identity|
            && (forall b: nat :: b in front <==> b in table && b < |w.refs| && r.refs[b] == 0 && w.identity[b].None?)
            && (forall b: nat :: b in back <==> b in table && b < |w.refs| && r.refs[b] == 0 && w.identity[b].Some?)
            && (forall b :: 0 <= b < |w.refs| ==> r.refs[b] == w.refs[b] - if b in table then 1 else 0)
            && r.progress[i].blocks == []
  {
    hide Keep, Reverse, Holders, Shift, FromTheBack, Distinct;
    var r, table := Release(w, i), w.progress[i].blocks;
    var ids, cached := Reverse(table), CachedBlocks(w.identity);
    var idle := Keep(ids, IdleBlocks(r.refs));
    back := Keep(idle, cached);
    front := Without(idle, back);
    ReverseBack(table);
    KeepBack(ids, IdleBlocks(r.refs), table);
    KeepBack(idle, cached, table);
    KeepBack(idle, Elements(idle) - Elements(back), table);
    ReleaseParts(w, capacity, i, idle, front, back);
  }

  lemma ReleaseParts(w: World, capacity: nat, i: nat, idle: seq<nat>, front: seq<nat>, back: seq<nat>)
    requires PoolInv(w, capacity) && i < |w.progress|
    requires idle == Keep(Reverse(w.progress[i].blocks), IdleBlocks(Release(w, i).refs))
    requires back == Keep(idle, CachedBlocks(w.identity)) && front == Without(idle, back)
    ensures var r, table := Release(w, i), w.progress[i].blocks;
            && (forall b: nat :: b in front <==> b in table && b < |w.refs| && r.refs[b] == 0 && w.identity[b].None?)
            && (forall b: nat :: b in back <==> b in table && b < |w.refs| && r.refs[b] == 0 && w.identity[b].Some?)
  {
    hide Keep, Reverse, Holders;
    var r, table := Release(w, i), w.progress[i].blocks;
    assert forall b: nat :: b in idle <==> b in table && b < |w.refs| && r.refs[b] == 0;
  }

  // ---------------------------------------------------------------------------------------
  // The services

  /** Tokens of the first `k` services. */
  function Spent(services: seq<Service>, k: nat): int
    requires k <= |services|
  {
    if k == 0 then 0 else Spent(services, k - 1) + services[k - 1].tokens
  }

  lemma {:induction false} SpentPrefix(a: seq<Service>, b: seq<Service>, k: nat)
    requires k <= |a| && a <= b
    ensures Spent(a, k) == Spent(b, k)
  {
    if k > 0 { SpentPrefix(a, b, k - 1); }
  }

  /** Tokens for a request with record `p` when `left` are left: a prompt chunk, or one token once the prompt is computed. */
  function Portion(inst: Instance, r: Request, p: Progress, left: int): int {
    Min(Min(left, if p.computed < r.input then inst.prefillChunk else 1), r.input + |p.outputs| - p.computed)
  }

  /** Service `k` is for running position `k` and is as large as budget, chunk and target allow. */
  ghost predicate Greedy(inst: Instance, st: Round, k: nat)
    requires k < |st.services| && |st.world.progress| == |inst.requests|
  {
    var v := st.services[k];
    && k < |st.world.running| && v.index == st.world.running[k] && v.index < |inst.requests|
    && var r, p := inst.requests[v.index], st.world.progress[v.index];
       && (v.prefill <==> p.computed < r.input) && v.context == p.computed
       && v.tokens == Portion(inst, r, p, inst.tokenBudget - Spent(st.services, k))
  }

  ghost predicate Fills(inst: Instance, st: Round) {
    && |st.world.progress| == |inst.requests| && |st.services| <= |st.world.running|
    && st.budget == inst.tokenBudget - Spent(st.services, |st.services|)
    && forall k :: 0 <= k < |st.services| ==> Greedy(inst, st, k)
  }

  /** The requests served so far run on with what they have computed. */
  ghost predicate KeepsServed(st: Round, r: Round) {
    && |r.world.progress| == |st.world.progress| && |st.services| <= |st.world.running| && |st.services| <= |r.world.running|
    && forall k :: 0 <= k < |st.services| ==>
         && r.world.running[k] == st.world.running[k]
         && (st.world.running[k] < |st.world.progress| ==>
               && r.world.progress[st.world.running[k]].computed == st.world.progress[st.world.running[k]].computed
               && r.world.progress[st.world.running[k]].outputs == st.world.progress[st.world.running[k]].outputs)
  }

  lemma FillsFrame(inst: Instance, st: Round, r: Round)
    requires Fills(inst, st) && KeepsServed(st, r) && r.services == st.services && r.budget == st.budget
    ensures Fills(inst, r)
  {
    forall k | 0 <= k < |r.services| ensures Greedy(inst, r, k) {
      assert Greedy(inst, st, k) && r.world.running[k] == st.world.running[k];
    }
  }

  /** One more service, for the next running request. */
  lemma FillsNext(inst: Instance, st: Round, r: Round, v: Service)
    requires Fills(inst, st) && KeepsServed(st, r) && r.services == st.services + [v] && r.budget == st.budget - v.tokens
    requires |st.services| < |r.world.running| && v.index == r.world.running[|st.services|] && v.index < |inst.requests|
    requires var q, p := inst.requests[v.index], r.world.progress[v.index];
             && (v.prefill <==> p.computed < q.input) && v.context == p.computed && v.tokens == Portion(inst, q, p, st.budget)
    ensures Fills(inst, r)
  {
    var n := |st.services|;
    assert r.services[..n] == st.services && st.services <= r.services;
    SpentPrefix(st.services, r.services, n);
    forall k | 0 <= k < |r.services| ensures Greedy(inst, r, k) {
      if k < n {
        assert Greedy(inst, st, k) && r.world.running[k] == st.world.running[k];
        SpentPrefix(st.services, r.services, k);
      }
    }
  }

  /** Where the loop over `all` stands at position `k`: everybody before it who still runs has been served. */
  ghost predicate ServedUpTo(inst: Instance, st: Round, k: nat) {
    Fills(inst, st) && (st.budget == 0 || |st.services| == Min(k, |st.world.running|))
  }

  lemma RoomServed(inst: Instance, st: Round, room: Round, all: seq<nat>, k: nat)
    requires Passing(inst, st, all, k) && k < |all| && ServedUpTo(inst, st, k) && st.budget != 0 && all[k] in st.world.running
    requires RoundInv(inst, room) && room.world.running <= st.world.running && k <= |room.world.running|
    requires room.services == st.services && room.budget == st.budget && SameScript(st.world, room.world)
    requires forall j :: j in room.world.running ==>
               j < |st.world.progress| == |room.world.progress| && room.world.progress[j] == st.world.progress[j]
    ensures |st.services| == k && Fills(inst, room) && KeepsServed(st, room)
    ensures all[k] in room.world.running ==> k < |room.world.running| && room.world.running[k] == all[k]
    ensures all[k] !in room.world.running ==> |room.world.running| == k
  {
    Positioned(inst, st, all, k);
    hide RoundInv, Fills;
    assert room.world.running <= all by { PrefixTransitive(room.world.running, st.world.running, all); }
    if all[k] in room.world.running { InPrefix(all, room.world.running, k); }
    if |room.world.running| > k { assert room.world.running[k] == all[k]; }
    assert KeepsServed(st, room) by {
      assert forall m :: 0 <= m < k ==> room.world.running[m] in room.world.running;
    }
    FillsFrame(inst, st, room);
  }

  /** In a running list that is a prefix of `all`, member `k` of `all` is at position `k`. */
  lemma InPrefix(all: seq<nat>, running: seq<nat>, k: nat)
    requires Distinct(all) && running <= all && k < |all| && all[k] in running
    ensures k < |running| && running[k] == all[k]
  {
    var m := IndexOf(running, all[k]);
    assert all[m] == all[k];
  }

  lemma PrefixShort(all: seq<nat>, running: seq<nat>, k: nat)
    requires running <= all && k < |all| && all[k] !in running
    ensures |running| <= k
  {
    assert forall m :: 0 <= m < |running| ==> all[m] == running[m] && running[m] in running;
  }

  lemma Positioned(inst: Instance, st: Round, all: seq<nat>, k: nat)
    requires Passing(inst, st, all, k) && k < |all| && all[k] in st.world.running
    ensures k < |st.world.running| && st.world.running[k] == all[k]
  {
    InPrefix(all, st.world.running, k);
    hide RoundInv;
  }

  lemma {:induction false} GrowServes(inst: Instance, st: Round, i: nat, n: int, prefill: bool, script: Option<seq<seq<nat>>>)
    requires RoundInv(inst, st) && Fills(inst, st) && |st.services| < |st.world.running| && st.world.running[|st.services|] == i
    requires i < |inst.requests| && Unplanned(st.services, i) && 1 <= n <= st.budget
    requires st.world.progress[i].computed + n <= Target(inst, st.world, i) && Growth(inst, st.world, i, n) <= |st.world.free|
    requires prefill <==> st.world.progress[i].computed < inst.requests[i].input
    requires n == Portion(inst, inst.requests[i], st.world.progress[i], st.budget)
    ensures inst.blockSize > 0
    ensures var r := Grow(st, i, n, Growth(inst, st.world, i, n), prefill, script);
            r.Ok? ==> Fills(inst, r.value) && |r.value.services| == |st.services| + 1
                      && r.value.world.running == st.world.running
                      && |r.value.world.free| == |st.world.free| - Growth(inst, st.world, i, n)
  {
    GrowReady(inst, st, i, n);
    RoundListing(inst, st);
    hide RoundInv, Fills, Growth, Target, Allocate, PoolInv, Portion, Listing, Unplanned, Holding;
    var need := Growth(inst, st.world, i, n);
    AllocateKeeps(st.world, inst.capacity, i, need, script);
    var r := Grow(st, i, n, need, prefill, script);
    if r.Ok? {
      assert KeepsServed(st, r.value) by { FillsSizes(inst, st); GrownServed(st, r.value, i, need); }
      FillsNext(inst, st, r.value, Service(i, prefill, n, st.world.progress[i].computed));
    }
  }

  lemma FillsSizes(inst: Instance, st: Round)
    requires Fills(inst, st)
    ensures |st.world.progress| == |inst.requests| && |st.services| <= |st.world.running|
    ensures st.budget == inst.tokenBudget - Spent(st.services, |st.services|)
  {
  }

  lemma GrownServed(st: Round, r: Round, i: nat, need: nat)
    requires i < |st.world.progress| == |r.world.progress| && Allocated(st.world, r.world, i, need)
    requires r.world.running == st.world.running && |st.services| <= |st.world.running|
    ensures KeepsServed(st, r)
  {
  }

  // ---------------------------------------------------------------------------------------
  // The loop over the running list

  /** Blocks that the requests from position `k` of `all` on still need when they share `budget` tokens in order. */
  ghost function Wanted(inst: Instance, w: World, all: seq<nat>, k: nat, budget: int): int
    requires inst.blockSize > 0 && |w.progress| == |inst.requests| && Below(all, |inst.requests|) && k <= |all|
    decreases |all| - k
  {
    if k == |all| || budget == 0 then 0
    else
      var r, p := inst.requests[all[k]], w.progress[all[k]];
      var n := Portion(inst, r, p, budget);
      Ceil(p.computed + n, inst.blockSize) - |p.blocks| + Wanted(inst, w, all, k + 1, budget - n)
  }

  lemma {:induction false} WantedSame(inst: Instance, w: World, a: World, all: seq<nat>, k: nat, budget: int)
    requires inst.blockSize > 0 && |w.progress| == |a.progress| == |inst.requests| && Below(all, |inst.requests|) && k <= |all|
    requires forall m :: k <= m < |all| ==> a.progress[all[m]] == w.progress[all[m]]
    ensures Wanted(inst, a, all, k, budget) == Wanted(inst, w, all, k, budget)
    decreases |all| - k
  {
    hide Portion, Ceil;
    if k < |all| && budget != 0 {
      WantedSame(inst, w, a, all, k + 1, budget - Portion(inst, inst.requests[all[k]], w.progress[all[k]], budget));
    }
  }

  /** Requests without a service need no fewer blocks than they hold. */
  lemma {:induction false} WantedPositive(inst: Instance, st: Round, all: seq<nat>, k: nat, m: nat, budget: int)
    requires Passing(inst, st, all, k) && st.world.running == all && k <= m <= |all| && budget >= 0
    ensures inst.blockSize > 0 && |st.world.progress| == |inst.requests| && Below(all, |inst.requests|)
    ensures Wanted(inst, st.world, all, m, budget) >= 0
    decreases |all| - m
  {
    RoundListing(inst, st);
    if m < |all| && budget != 0 {
      var p := st.world.progress[all[m]];
      GrowthPositive(inst, st, all, k, m, budget);
      hide RoundInv, Passing, Ceil, Portion, Listing;
      WantedPositive(inst, st, all, k, m + 1, budget - Portion(inst, inst.requests[all[m]], p, budget));
    }
  }

  lemma GrowthPositive(inst: Instance, st: Round, all: seq<nat>, k: nat, m: nat, budget: int)
    requires Passing(inst, st, all, k) && st.world.running == all && k <= m < |all| && budget >= 0
    ensures inst.blockSize > 0 && all[m] < |st.world.progress| == |inst.requests|
    ensures var p := st.world.progress[all[m]];
            var n := Portion(inst, inst.requests[all[m]], p, budget);
            0 <= n <= budget && |p.blocks| <= Ceil(p.computed + n, inst.blockSize)
  {
    RoundListing(inst, st);
    assert all[m] in st.world.running;
    PassedPlanned(inst, st, all, k, m);
    hide Unplanned, PoolInv, Queued, OthersIdle, AllHolding, Batched, Listing;
    HoldingNow(inst, st, all[m]);
    var p := st.world.progress[all[m]];
    hide RoundInv, Passing, Ceil;
    CeilMono(p.computed, p.computed + Portion(inst, inst.requests[all[m]], p, budget), inst.blockSize);
  }

  /** One turn of the loop: who is served so far, and what is still wanted of the free blocks. */
  ghost predicate TurnMeans(inst: Instance, st: Round, r: Round, all: seq<nat>, k: nat)
    requires inst.blockSize > 0 && |st.world.progress| == |inst.requests| && Below(all, |inst.requests|) && k < |all|
  {
    && |r.world.progress| == |inst.requests| && ServedUpTo(inst, r, k + 1)
    && (!st.preempted ==>
          if r.preempted then Wanted(inst, st.world, all, k, st.budget) > |st.world.free|
          else Wanted(inst, r.world, all, k + 1, r.budget) - |r.world.free|
               == Wanted(inst, st.world, all, k, st.budget) - |st.world.free|)
  }

  lemma RoomFlag(inst: Instance, st: Round, i: nat, need: int, room: Round)
    requires Listing(st.world) && room == MakeRoom(st, i, need) && Roomy(inst, st, i, need, room)
    ensures room.preempted <==> st.preempted || need > |st.world.free|
    ensures !room.preempted ==> room == st
  {
    hide RoundInv;
  }

  /** A request that is not in the list any more, or for which no tokens are left. */
  lemma SkippedTurn(inst: Instance, st: Round, all: seq<nat>, k: nat)
    requires Passing(inst, st, all, k) && k < |all| && Below(all, |inst.requests|) && ServedUpTo(inst, st, k)
    requires all[k] !in st.world.running || st.budget == 0
    ensures inst.blockSize > 0 && |st.world.progress| == |inst.requests| && TurnMeans(inst, st, st, all, k)
  {
    RoundListing(inst, st);
    hide RoundInv, Fills, Ceil, Portion;
    if st.budget != 0 {
      PrefixShort(all, st.world.running, k);
      assert st.preempted;
    }
  }

  lemma RunOneServes(inst: Instance, st: Round, all: seq<nat>, k: nat, script: Option<seq<seq<nat>>>)
    requires Passing(inst, st, all, k) && k < |all| && Below(all, |inst.requests|) && ServedUpTo(inst, st, k)
    ensures Fitting(inst, st.world) && inst.blockSize > 0
    ensures var r := RunOne(inst, st, all[k], script);
            r.Ok? ==> TurnMeans(inst, st, r.value, all, k)
  {
    RoundListing(inst, st);
    var i := all[k];
    if i !in st.world.running || st.budget == 0 {
      SkippedTurn(inst, st, all, k);
    } else {
      ServedTurn(inst, st, all, k, script);
    }
    hide *;
  }

  lemma ServedTurn(inst: Instance, st: Round, all: seq<nat>, k: nat, script: Option<seq<seq<nat>>>)
    requires Passing(inst, st, all, k) && k < |all| && Below(all, |inst.requests|) && ServedUpTo(inst, st, k)
    requires all[k] in st.world.running && st.budget != 0
    ensures Fitting(inst, st.world) && inst.blockSize > 0
    ensures var r := RunOne(inst, st, all[k], script);
            r.Ok? ==> TurnMeans(inst, st, r.value, all, k)
  {
    hide RoundInv, Grow, MakeRoom, Tokens, Growth, Unplanned, Holding, SameScript, Listing, Fills, TurnMeans, Roomy,
         Portion;
    RoundListing(inst, st);
    var i := all[k];
    var n := Tokens(inst, st, i);
    RoomTurn(inst, st, all, k, n);
    var need := Growth(inst, st.world, i, n);
    var room := MakeRoom(st, i, need);
    RoomyFlags(inst, st, all, k, need, room);
    if i in room.world.running {
      GrownTurn(inst, st, all, k, n, room, script);
    } else {
      GoneTurn(inst, st, all, k, need, room);
    }
  }

  lemma RoomyFlags(inst: Instance, st: Round, all: seq<nat>, k: nat, need: int, room: Round)
    requires Passing(inst, st, all, k) && k < |all| && all[k] in st.world.running && st.budget != 0 && ServedUpTo(inst, st, k)
    requires Listing(st.world) && room == MakeRoom(st, all[k], need) && Roomy(inst, st, all[k], need, room)
    requires room.services == st.services && room.budget == st.budget && k <= |room.world.running|
    ensures room.preempted <==> st.preempted || need > |st.world.free|
    ensures !room.preempted ==> room == st
    ensures |st.services| == k && Fills(inst, room) && KeepsServed(st, room) && RoundInv(inst, room)
    ensures all[k] in room.world.running ==>
              && k < |room.world.running| && room.world.running[k] == all[k]
              && all[k] < |room.world.progress| == |st.world.progress| && room.world.progress[all[k]] == st.world.progress[all[k]]
    ensures all[k] !in room.world.running ==> |room.world.running| == k
  {
    RoomFlag(inst, st, all[k], need, room);
    hide MakeRoom, RoundInv, Fills, KeepsServed, Listing;
    RoomServed(inst, st, room, all, k);
  }

  lemma GoneTurn(inst: Instance, st: Round, all: seq<nat>, k: nat, need: int, room: Round)
    requires Passing(inst, st, all, k) && k < |all| && Below(all, |inst.requests|) && all[k] in st.world.running && st.budget != 0
    requires inst.blockSize > 0 && |st.world.progress| == |inst.requests| && |st.services| == k && room.services == st.services
    requires Fills(inst, room) && |room.world.running| == k && (room.preempted <==> st.preempted || need > |st.world.free|)
    requires need == Growth(inst, st.world, all[k], Tokens(inst, st, all[k])) && (!room.preempted ==> room == st)
    requires all[k] !in room.world.running
    ensures TurnMeans(inst, st, room, all, k)
  {
    TokensArePortion(inst, st, all[k]);
    FillsSizes(inst, room);
    if !st.preempted {
      PassingBudget(inst, st, all, k);
      hide RoundInv, Fills, Ceil, Portion, Tokens;
      WantedPositive(inst, st, all, k, k + 1, st.budget - Portion(inst, inst.requests[all[k]], st.world.progress[all[k]], st.budget));
    }
  }

  lemma TokensArePortion(inst: Instance, st: Round, i: nat)
    requires i < |inst.requests| == |st.world.progress|
    ensures Tokens(inst, st, i) == Portion(inst, inst.requests[i], st.world.progress[i], st.budget)
  {
  }

  lemma PassingBudget(inst: Instance, st: Round, all: seq<nat>, k: nat)
    requires Passing(inst, st, all, k) && k < |all| && all[k] in st.world.running && st.budget != 0 && !st.preempted
    ensures st.world.running == all && all[k] < |st.world.progress| == |inst.requests|
    ensures 1 <= Tokens(inst, st, all[k]) <= st.budget
  {
    RoundListing(inst, st);
    InPrefix(all, st.world.running, k);
    BudgetOK(inst, st);
    hide Holding;
    TokensOK(inst, st, all[k]);
  }

  lemma GrownTurn(inst: Instance, st: Round, all: seq<nat>, k: nat, n: int, room: Round, script: Option<seq<seq<nat>>>)
    requires Passing(inst, st, all, k) && k < |all| && Below(all, |inst.requests|) && all[k] in st.world.running && st.budget != 0
    requires inst.blockSize > 0 && |st.world.progress| == |room.world.progress| == |inst.requests| && |st.services| == k
    requires RoundInv(inst, room) && Fills(inst, room) && room.services == st.services && room.budget == st.budget
    requires n == Tokens(inst, st, all[k]) && 1 <= n <= room.budget
    requires room.preempted <==> st.preempted || Growth(inst, st.world, all[k], n) > |st.world.free|
    requires !room.preempted ==> room == st
    requires k < |room.world.running| && room.world.running[k] == all[k] && Unplanned(room.services, all[k])
    requires room.world.progress[all[k]] == st.world.progress[all[k]]
    requires room.world.progress[all[k]].computed + n <= Target(inst, room.world, all[k])
    requires Growth(inst, st.world, all[k], n) == Growth(inst, room.world, all[k], n) <= |room.world.free|
    ensures var prefill := st.world.progress[all[k]].computed < inst.requests[all[k]].input;
            var r := Grow(room, all[k], n, Growth(inst, st.world, all[k], n), prefill, script);
            r.Ok? ==> TurnMeans(inst, st, r.value, all, k)
  {
    var i := all[k];
    var prefill := st.world.progress[i].computed < inst.requests[i].input;
    TokensArePortion(inst, st, i);
    hide RoundInv, Fills, Ceil, Portion, Tokens, Grow, Unplanned, Target, Growth, Wanted;
    GrowServes(inst, room, i, n, prefill, script);
    var need := Growth(inst, room.world, i, n);
    var r := Grow(room, i, n, need, prefill, script);
    if r.Ok? {
      assert ServedUpTo(inst, r.value, k + 1) by { FillsSizes(inst, r.value); }
      if !st.preempted {
        PassingBudget(inst, st, all, k);
        if r.value.preempted {
          GrowFlag(room, i, n, need, prefill, script);
          WantedMore(inst, st, all, k, n);
        } else {
          GrowFlag(room, i, n, need, prefill, script);
          GrownWanted(inst, st, all, k, n, prefill, script);
        }
      }
    }
  }

  lemma GrowFlag(st: Round, i: nat, n: int, need: int, prefill: bool, script: Option<seq<seq<nat>>>)
    requires i < |st.world.progress|
    ensures var r := Grow(st, i, n, need, prefill, script); r.Ok? ==> r.value.preempted == st.preempted && r.value.budget == st.budget - n
  {
    hide Allocate;
  }

  lemma WantedMore(inst: Instance, st: Round, all: seq<nat>, k: nat, n: int)
    requires Passing(inst, st, all, k) && k < |all| && Below(all, |inst.requests|) && st.budget != 0
    requires inst.blockSize > 0 && |st.world.progress| == |inst.requests| && st.world.running == all
    requires n == Portion(inst, inst.requests[all[k]], st.world.progress[all[k]], st.budget) && n <= st.budget
    ensures Wanted(inst, st.world, all, k, st.budget) >= Growth(inst, st.world, all[k], n)
  {
    hide RoundInv, Ceil, Portion;
    WantedPositive(inst, st, all, k, k + 1, st.budget - n);
  }

  /** Nobody had to go: the blocks taken are no longer free and no longer wanted. */
  lemma GrownWanted(inst: Instance, st: Round, all: seq<nat>, k: nat, n: int, prefill: bool, script: Option<seq<seq<nat>>>)
    requires Passing(inst, st, all, k) && k < |all| && Below(all, |inst.requests|) && st.budget != 0
    requires inst.blockSize > 0 && |st.world.progress| == |inst.requests| && st.world.running == all
    requires n == Portion(inst, inst.requests[all[k]], st.world.progress[all[k]], st.budget)
    requires 0 <= Growth(inst, st.world, all[k], n) <= |st.world.free| && PoolInv(st.world, inst.capacity)
    requires Grow(st, all[k], n, Growth(inst, st.world, all[k], n), prefill, script).Ok?
    ensures var r := Grow(st, all[k], n, Growth(inst, st.world, all[k], n), prefill, script).value;
            && |r.world.progress| == |inst.requests|
            && Wanted(inst, r.world, all, k + 1, r.budget) - |r.world.free|
               == Wanted(inst, st.world, all, k, st.budget) - |st.world.free|
  {
    hide RoundInv, Ceil, Portion, Allocate, PoolInv;
    var i, need := all[k], Growth(inst, st.world, all[k], n);
    AllocateKeeps(st.world, inst.capacity, i, need, script);
    var r := Grow(st, i, n, need, prefill, script).value;
    assert forall m :: k + 1 <= m < |all| ==> all[m] != i;
    WantedSame(inst, st.world, r.world, all, k + 1, st.budget - n);
  }

  /** The loop as a whole: everybody still running is served unless the budget is spent, and somebody was preempted
      exactly if more blocks were wanted than free. */
  lemma {:induction false} RunAllServes(inst: Instance, st: Round, all: seq<nat>, k: nat, script: Option<seq<seq<nat>>>)
    requires Passing(inst, st, all, k) && Below(all, |inst.requests|) && ServedUpTo(inst, st, k)
    ensures Fitting(inst, st.world) && inst.blockSize > 0
    ensures var r := RunAll(inst, st, all[k..], script);
            r.Ok? ==>
              && ServedUpTo(inst, r.value, |all|)
              && (!st.preempted ==> (r.value.preempted <==> Wanted(inst, st.world, all, k, st.budget) > |st.world.free|))
    decreases |all| - k
  {
    hide RoundInv, RunOne, SameScript, Listing, AfterTurn, ServedUpTo, Wanted;
    RoundListing(inst, st);
    if k < |all| {
      RunOneKeeps(inst, st, all, k, script);
      RunOneServes(inst, st, all, k, script);
      assert all[k..][0] == all[k] && all[k..][1..] == all[k + 1..];
      var one := RunOne(inst, st, all[k], script);
      if one.Ok? {
        TurnPassed(inst, st, one.value, all, k + 1, script);
        RunAllServes(inst, one.value, all, k + 1, script);
        RunAllKeeps(inst, one.value, all, k + 1, script);
        FlagKept(inst, one.value, RunAll(inst, one.value, all[k + 1..], script), all, script);
      }
    } else {
      WantedNone(inst, st.world, all, st.budget);
      RunNone(inst, st, script);
      assert all[k..] == [];
    }
  }

  lemma WantedNone(inst: Instance, w: World, all: seq<nat>, budget: int)
    requires inst.blockSize > 0 && |w.progress| == |inst.requests| && Below(all, |inst.requests|)
    ensures Wanted(inst, w, all, |all|, budget) == 0
  {
  }

  lemma FlagKept(inst: Instance, st: Round, r: Result<Round>, all: seq<nat>, script: Option<seq<seq<nat>>>)
    requires AfterTurn(inst, st, r, all, |all|, script)
    ensures r.Ok? && st.preempted ==> r.value.preempted
  {
    hide RoundInv;
  }

  // ---------------------------------------------------------------------------------------
  // Admission

  /** Positions of hits that nobody references. */
  ghost function IdleHits(hits: seq<nat>, refs: seq<int>): set<nat> {
    set k: nat | k < |hits| && hits[k] < |refs| && refs[hits[k]] == 0
  }

  lemma IdleHitsNext(hits: seq<nat>, b: nat, refs: seq<int>)
    ensures |IdleHits(hits + [b], refs)| == |IdleHits(hits, refs)| + if b in IdleBlocks(refs) then 1 else 0
  {
    var more, n := hits + [b], |hits|;
    assert forall k: nat :: k < n ==> more[k] == hits[k];
    if b in IdleBlocks(refs) {
      assert IdleHits(more, refs) == IdleHits(hits, refs) + {n};
    } else {
      assert IdleHits(more, refs) == IdleHits(hits, refs);
    }
  }

  lemma {:induction false} IdleCount(hits: seq<nat>, refs: seq<int>)
    ensures |Keep(hits, IdleBlocks(refs))| == |IdleHits(hits, refs)|
  {
    if hits == [] {
      assert IdleHits(hits, refs) == {};
    } else {
      var n := |hits| - 1;
      hide Keep, IdleHits, IdleBlocks;
      IdleCount(hits[..n], refs);
      KeepLast(hits[..n], hits[n], IdleBlocks(refs));
      IdleHitsNext(hits[..n], hits[n], refs);
      assert hits == hits[..n] + [hits[n]];
    }
  }

  /**
   The gate is closed for request `i`: the blocks of its whole target beyond those it finds, and the found ones that
   it would take out of the free queue, exceed the free blocks.
   */
  ghost predicate GateClosed(inst: Instance, w: World, i: nat)
    requires inst.blockSize > 0 && i < |inst.requests| == |w.progress|
  {
    exists hits | Finds(inst.blockSize, inst.requests[i], w.identity, hits) ::
      Ceil(inst.requests[i].input + |w.progress[i].outputs|, inst.blockSize) - |hits| + |IdleHits(hits, w.refs)| > |w.free|
  }

  /** What a request finds is determined. */
  lemma FindsUnique(size: int, r: Request, identity: seq<Option<seq<int>>>, a: seq<nat>, b: seq<nat>)
    requires size > 0 && |r.hashes| == Ceil(r.input, size)
    requires Finds(size, r, identity, a) && Finds(size, r, identity, b)
    ensures a == b
  {
    FindsLength(size, r, identity, a, b);
    FindsLength(size, r, identity, b, a);
    forall k | 0 <= k < |a| ensures a[k] == b[k] {
      assert IsFirst(identity, r.hashes[..k + 1], a[k]) && IsFirst(identity, r.hashes[..k + 1], b[k]);
    }
  }

  lemma FindsLength(size: int, r: Request, identity: seq<Option<seq<int>>>, a: seq<nat>, b: seq<nat>)
    requires size > 0 && Finds(size, r, identity, a) && Finds(size, r, identity, b)
    ensures |a| >= |b|
  {
    if |a| < |b| { NameFound(identity, r.hashes[..|a| + 1], b[|a|]); assert false; }
  }

  lemma NameFound(identity: seq<Option<seq<int>>>, key: seq<int>, b: nat)
    requires b < |identity| && identity[b] == Some(key)
    ensures Some(key) in identity
  {
  }

  lemma GateMeans(inst: Instance, w: World)
    requires inst.Valid() && w.waiting != [] && w.waiting[0] < |inst.requests| == |w.progress|
    ensures PromptFits(inst, w) <==> !GateClosed(inst, w, w.waiting[0])
  {
    var i := w.waiting[0];
    var hits := Hits(inst.blockSize, inst.requests[i], w.identity, 0);
    HitsMeaning(inst, i, w.identity);
    IdleCount(hits, w.refs);
    assert |inst.requests[i].hashes| == Ceil(inst.requests[i].input, inst.blockSize);
    hide Hits, Finds, IdleHits, Keep, Instance.Valid, Ceil;
    forall other | Finds(inst.blockSize, inst.requests[i], w.identity, other) ensures other == hits {
      FindsUnique(inst.blockSize, inst.requests[i], w.identity, other, hits);
    }
  }

  /** The rest of a record after admission: nothing computed but the hits. */
  lemma HitsShortOfInput(inst: Instance, w: World, i: nat)
    requires inst.Valid() && i < |inst.requests| == |w.progress|
    ensures var hits := Hits(inst.blockSize, inst.requests[i], w.identity, 0);
            Hold(inst, w, i, hits).progress[i].computed < inst.requests[i].input
  {
    HitsBelow(inst.blockSize, inst.requests[i], w.identity);
    FullTokens(inst.requests[i].input - 1, inst.blockSize, |Hits(inst.blockSize, inst.requests[i], w.identity, 0)|);
    hide Hits, Keep;
  }

  lemma AdmitOneServes(inst: Instance, st: Round, script: Option<seq<seq<nat>>>)
    requires RoundInv(inst, st) && st.world.waiting != [] && st.budget > 0 && Fills(inst, st)
    requires |st.services| == |st.world.running|
    requires st.world.waiting[0] < |st.world.progress| == |inst.requests| && PromptFits(inst, st.world)
    ensures Fitting(inst, st.world)
    ensures var r := AdmitOne(inst, st, Hits(inst.blockSize, inst.requests[st.world.waiting[0]], st.world.identity, 0), script);
            r.Ok? ==> Fills(inst, r.value) && |r.value.services| == |r.value.world.running|
                      && r.value.world.running == st.world.running + [st.world.waiting[0]]
  {
    hide RoundInv, PoolInv, Ceil, Hits, Growth, Allocate, Listing, Hold, Fills, PromptFits, Target, Unplanned,
      FirstChunk, AdmitOne, Allocated, KeepsServed, SameScript, Holds, Instance.Valid;
    AdmitReady(inst, st);
    RoundListing(inst, st);
    WaitingFresh(inst, st);
    var w, i := st.world, st.world.waiting[0];
    var hits := Hits(inst.blockSize, inst.requests[i], w.identity, 0);
    HoldRecord(inst, w, i, hits);
    HitsShortOfInput(inst, w, i);
    var held := Hold(inst, w, i, hits);
    var n := FirstChunk(inst, st.budget, held, i);
    var a := Allocate(held, i, Growth(inst, held, i, n), script);
    AllocateKeeps(held, inst.capacity, i, Growth(inst, held, i, n), script);
    AdmittedRound(inst, st, hits, script, held, n, a);
    if a.Ok? {
      var r := AdmitOne(inst, st, hits, script).value;
      var v := Service(i, true, n, held.progress[i].computed);
      AllocatedRecords(held, a.value, i, Growth(inst, held, i, n));
      assert KeepsServed(st, r) by { AdmittedServed(st, r, i); }
      FirstPortion(inst, st.budget, held, i);
      FillsNext(inst, st, r, v);
    }
  }

  lemma AllocatedRecords(w: World, a: World, i: nat, need: nat)
    requires i < |w.progress| == |a.progress| && Allocated(w, a, i, need)
    ensures forall j :: 0 <= j < |w.progress| ==>
              a.progress[j].computed == w.progress[j].computed && a.progress[j].outputs == w.progress[j].outputs
  {
  }

  lemma AdmittedServed(st: Round, r: Round, i: nat)
    requires |r.world.progress| == |st.world.progress| && |st.services| == |st.world.running|
    requires r.world.running == st.world.running + [i] && i !in st.world.running
    requires forall j :: 0 <= j < |st.world.progress| && j != i ==>
               && r.world.progress[j].computed == st.world.progress[j].computed
               && r.world.progress[j].outputs == st.world.progress[j].outputs
    ensures KeepsServed(st, r)
  {
    forall k | 0 <= k < |st.services| ensures st.world.running[k] != i { assert st.world.running[k] in st.world.running; }
  }

  lemma FirstPortion(inst: Instance, budget: int, held: World, i: nat)
    requires i < |inst.requests| == |held.progress| && held.progress[i].computed < inst.requests[i].input
    ensures FirstChunk(inst, budget, held, i) == Portion(inst, inst.requests[i], held.progress[i], budget)
  {
  }

  /** Why nobody else is admitted. */
  ghost predicate Ended(inst: Instance, st: Round)
    requires inst.blockSize > 0
  {
    || st.world.waiting == []
    || Spent(st.services, |st.services|) == inst.tokenBudget
    || |st.world.running| >= inst.maxSequences
    || (&& |st.world.progress| == |inst.requests| && st.world.waiting[0] < |inst.requests|
        && GateClosed(inst, st.world, st.world.waiting[0]))
  }

  lemma {:induction false} AdmitAllServes(inst: Instance, st: Round, script: Option<seq<seq<nat>>>)
    requires RoundInv(inst, st) && Fills(inst, st) && (st.budget == 0 || |st.services| == |st.world.running|)
    ensures Fitting(inst, st.world) && inst.blockSize > 0
    ensures var r := AdmitAll(inst, st, script);
            r.Ok? ==>
              && Fills(inst, r.value) && (r.value.budget == 0 || |r.value.services| == |r.value.world.running|)
              && (|r.value.world.running| > |st.world.running| ==> |r.value.services| == |r.value.world.running|)
              && (|r.value.world.running| == |st.world.running| ==> r.value == st)
              && st.world.running <= r.value.world.running && Ended(inst, r.value)
    decreases |st.world.waiting|
  {
    hide RoundInv, Hits, PromptFits, AdmitOne, Listing, Fills, GateClosed, Spent;
    RoundListing(inst, st);
    BudgetOK(inst, st);
    FillsSizes(inst, st);
    ListingParts(st.world);
    var w := st.world;
    if w.waiting != [] && st.budget != 0 && |w.running| < inst.maxSequences && PromptFits(inst, w) {
      AdmitOneKeeps(inst, st, script);
      AdmitOneServes(inst, st, script);
      var one := AdmitOne(inst, st, Hits(inst.blockSize, inst.requests[w.waiting[0]], w.identity, 0), script);
      if one.Ok? { AdmitAllServes(inst, one.value, script); }
    } else if w.waiting != [] {
      GateMeans(inst, w);
    }
  }

  // ---------------------------------------------------------------------------------------
  // The plan

  /**
   The plan of an iteration. Services go to the running requests in their order, each as large as the budget, the
   chunk and the target allow; nobody running is left out unless the budget is spent. Somebody gives way exactly if
   the requests running before want more blocks than are free, and then nobody is admitted; otherwise admissions,
   each with a service, go on until the queue is empty, the budget is spent, the slots are taken, or the next
   prompt does not fit.
   */
  lemma PlanMeans(inst: Instance, w: World, script: Option<seq<seq<nat>>>)
    requires Opened(inst, w)
    ensures Fitting(inst, w) && inst.blockSize > 0 && Below(w.running, |inst.requests|)
    ensures var r := Schedule(inst, w, script);
            r.Ok? ==>
              && Fills(inst, r.value)
              && (Spent(r.value.services, |r.value.services|) == inst.tokenBudget || |r.value.services| == |r.value.world.running|)
              && (r.value.preempted <==> Wanted(inst, w, w.running, 0, inst.tokenBudget) > |w.free|)
              && (|r.value.world.running| > |w.running| ==> |r.value.services| == |r.value.world.running|)
              && (if r.value.preempted then r.value.world.running <= w.running
                  else w.running <= r.value.world.running && Ended(inst, r.value))
  {
    var st := Round(w, inst.tokenBudget, [], false);
    assert RoundInv(inst, st) by { NoServices(w); }
    RoundListing(inst, st);
    PassingStart(inst, st);
    assert Fills(inst, st);
    hide PoolInv, Queued, OthersIdle, AllHolding, RunAll, AdmitAll, Listing, Batched, RoundInv, Opened, Wanted, Ended,
         Spent;
    assert w.running[0..] == w.running;
    RunAllKeeps(inst, st, w.running, 0, script);
    RunAllServes(inst, st, w.running, 0, script);
    var run := RunAll(inst, st, w.running, script);
    if run.Ok? {
      RunEnded(inst, st, run.value, w.running, script);
      FillsSizes(inst, run.value);
      if !run.value.preempted {
        AdmitAllKeeps(inst, run.value, script);
        AdmitAllServes(inst, run.value, script);
        var r := AdmitAll(inst, run.value, script);
        if r.Ok? { FillsSizes(inst, r.value); }
      }
    }
  }

  lemma RunEnded(inst: Instance, st: Round, r: Round, all: seq<nat>, script: Option<seq<seq<nat>>>)
    requires AfterTurn(inst, st, Ok(r), all, |all|, script)
    ensures RoundInv(inst, r) && r.world.running <= all && (!r.preempted ==> r.world.running == all)
  {
    hide RoundInv;
  }

  // ---------------------------------------------------------------------------------------
  // Making room

  /** The round after the last `n` running requests have been preempted, one after another. */
  ghost function Shrunk(st: Round, n: nat): (r: Round)
    requires Listing(st.world) && n <= |st.world.running|
    ensures Listing(r.world) && r.world.running == st.world.running[..|st.world.running| - n]
    decreases n
  {
    if n == 0 then st else PreemptLast(Shrunk(st, n - 1))
  }

  lemma {:induction false} ShrunkNext(st: Round, n: nat)
    requires Listing(st.world) && st.world.running != [] && n <= |st.world.running| - 1
    ensures Shrunk(PreemptLast(st), n) == Shrunk(st, n + 1)
    decreases n
  {
    hide PreemptLast, Listing;
    if n > 0 { ShrunkNext(st, n - 1); }
  }

  lemma ShrunkNone(st: Round)
    requires Listing(st.world)
    ensures Shrunk(st, 0) == st
  {
  }

  /** After `n` preemptions the blocks are still missing, and the request is still running. */
  ghost predicate Wanting(st: Round, i: nat, need: int, n: nat)
    requires Listing(st.world) && n <= |st.world.running|
  {
    need > |Shrunk(st, n).world.free| && i in Shrunk(st, n).world.running
  }

  lemma WantingNone(st: Round, i: nat, need: int)
    requires Listing(st.world)
    ensures Wanting(st, i, need, 0) <==> need > |st.world.free| && i in st.world.running
  {
  }

  lemma WantingNext(st: Round, i: nat, need: int, n: nat)
    requires Listing(st.world) && st.world.running != [] && n <= |st.world.running| - 1
    ensures Shrunk(PreemptLast(st), n) == Shrunk(st, n + 1)
    ensures Wanting(PreemptLast(st), i, need, n) == Wanting(st, i, need, n + 1)
  {
    ShrunkNext(st, n);
  }

  lemma MakeRoomStep(st: Round, i: nat, need: int)
    requires Listing(st.world) && i in st.world.running
    ensures need <= |st.world.free| ==> MakeRoom(st, i, need) == st
    ensures need > |st.world.free| ==>
              MakeRoom(st, i, need) == var next := PreemptLast(st);
                                       if i in next.world.running then MakeRoom(next, i, need) else next
  {
    ListingParts(st.world);
    OthersRun(st.world.running, st.world.running[..|st.world.running| - 1]);
    hide PreemptLast, Listing, Distinct;
  }

  /** The preemption loop stops as soon as the blocks are free or the request itself is gone. */
  lemma {:induction false} MakeRoomFewest(st: Round, i: nat, need: int) returns (n: nat)
    requires Listing(st.world) && i in st.world.running
    ensures n <= |st.world.running| && MakeRoom(st, i, need) == Shrunk(st, n)
    ensures forall m: nat :: m < n ==> Wanting(st, i, need, m)
    ensures !Wanting(st, i, need, n)
    decreases |st.world.running|
  {
    hide *;
    ShrunkNone(st);
    WantingNone(st, i, need);
    MakeRoomStep(st, i, need);
    if need <= |st.world.free| {
      n := 0;
    } else {
      var next := PreemptLast(st);
      var k := 0;
      ShrunkNone(next);
      WantingNone(next, i, need);
      if i in next.world.running { k := MakeRoomFewest(next, i, need); }
      WantingNext(st, i, need, k);
      n := k + 1;
      forall m: nat | m < n ensures Wanting(st, i, need, m) {
        if m > 0 { WantingNext(st, i, need, m - 1); }
      }
    }
  }

  // ---------------------------------------------------------------------------------------
  // Time

  /** Prompt tokens, or output tokens, of a batch. */
  function KindTokens(services: seq<Service>, prefill: bool): int {
    if services == [] then 0
    else (if services[0].prefill == prefill then services[0].tokens else 0) + KindTokens(services[1..], prefill)
  }

  lemma {:induction false} KindTokensLast(services: seq<Service>, v: Service, prefill: bool)
    ensures KindTokens(services + [v], prefill) == KindTokens(services, prefill) + if v.prefill == prefill then v.tokens else 0
  {
    if services == [] {
      assert services + [v] == [v] && [v][1..] == [];
    } else {
      assert (services + [v])[1..] == services[1..] + [v];
      KindTokensLast(services[1..], v, prefill);
    }
  }

  lemma Scale(a: int, b: int, c: int)
    ensures (a + b) * c == a * c + b * c
  {
  }

  /** The affine cost is a price per prompt token and a price per output token. */
  lemma {:induction false} CostByKind(inst: Instance, services: seq<Service>)
    ensures AffineCost(inst, services)
            == KindTokens(services, true) * inst.prefillCost + KindTokens(services, false) * inst.decodeCost
  {
    if services != [] {
      var n := |services| - 1;
      var v := services[n];
      assert services == services[..n] + [v];
      CostByKind(inst, services[..n]);
      KindTokensLast(services[..n], v, true);
      KindTokensLast(services[..n], v, false);
      hide KindTokens;
      Scale(KindTokens(services[..n], true), v.tokens, inst.prefillCost);
      Scale(KindTokens(services[..n], false), v.tokens, inst.decodeCost);
    }
  }

  /** The batch takes `c`: what the table says for it, or the overhead and the price of its tokens. */
  ghost predicate Charges(inst: Instance, services: seq<Service>, c: int) {
    if inst.costTable.None? then
      c == inst.overhead + KindTokens(services, true) * inst.prefillCost + KindTokens(services, false) * inst.decodeCost
    else
      exists key | key in inst.costTable.value && |key| == |services| ::
        && c == inst.costTable.value[key]
        && forall k :: 0 <= k < |key| ==> key[k] == (services[k].prefill, services[k].tokens, services[k].context)
  }

  lemma DurationTakes(inst: Instance, services: seq<Service>)
    ensures Duration(inst, services).Some? ==> Charges(inst, services, Duration(inst, services).value)
  {
    CostByKind(inst, services);
    hide AffineCost, KindTokens;
  }

  /** In order of arrival, and of position among simultaneous ones. */
  ghost predicate ByArrival(inst: Instance, s: seq<nat>) {
    && Below(s, |inst.requests|)
    && forall a, b :: 0 <= a < b < |s| ==>
         || inst.requests[s[a]].arrival < inst.requests[s[b]].arrival
         || (inst.requests[s[a]].arrival == inst.requests[s[b]].arrival && s[a] < s[b])
  }

  /**
   Exactly the requests that have arrived by now and were not released before join the back of the queue, in order
   of arrival, and nobody running or waiting is ever behind a later arrival.
   */
  lemma ArrivedJoin(inst: Instance, w: World)
    requires Inv(inst, w)
    ensures var q := Enqueue(inst, w);
            && w.waiting <= q.waiting && ByArrival(inst, q.running + q.waiting)
            && (forall i: nat :: i in q.waiting[|w.waiting|..] <==>
                  i < |inst.requests| && i !in w.released && inst.requests[i].arrival <= w.time)
            && (forall i: nat :: i in q.released <==> i in w.released || i in q.waiting[|w.waiting|..])
  {
    EnqueueQueue(inst, w);
    hide Inv, Arrivals, Distinct;
    var arrived := Arrivals(inst, w, |inst.requests|);
    assert Enqueue(inst, w).waiting[|w.waiting|..] == arrived;
  }

  /** `t` is the next arrival of a request that has not been released. */
  ghost predicate IsNextArrival(inst: Instance, w: World, t: int) {
    && (exists i: nat | i < |inst.requests| && i !in w.released :: inst.requests[i].arrival == t)
    && forall i: nat | i < |inst.requests| && i !in w.released :: t <= inst.requests[i].arrival
  }

  /** The records after a batch that ends at `end`: each advanced by its own service, completed ones without blocks. */
  ghost predicate Advanced(inst: Instance, w: World, services: seq<Service>, r: World) {
    exists after: seq<Progress> | AllServed(inst, w.progress, after, services, r.time) ::
      && |r.progress| == |after|
      && forall i :: 0 <= i < |after| ==> r.progress[i] == after[i].(blocks := r.progress[i].blocks)
  }

  /** From the plan `st` the iteration comes to `r`: idle until the next arrival, or busy for the cost of its batch. */
  ghost predicate Comes(inst: Instance, w: World, st: Round, r: World) {
    if st.services == [] then r == st.world.(time := r.time) && IsNextArrival(inst, st.world, r.time)
    else Charges(inst, st.services, r.time - w.time) && Advanced(inst, st.world, st.services, r)
  }

  /**
   When an iteration ends and what it does to the records. A batch takes its cost, and every record advances by its
   own service at that time; an empty batch moves to the next arrival and changes nothing else.
   */
  lemma IterationTime(inst: Instance, w: World, script: Option<seq<seq<nat>>>, limits: Option<seq<Limit>>)
    requires Inv(inst, w) && !Finished(w) && (limits.Some? ==> |limits.value| == |inst.requests|)
    ensures Fitting(inst, Enqueue(inst, w))
    ensures var plan, r := Schedule(inst, Enqueue(inst, w), script), Iterate(inst, w, script, limits);
            r.Ok? ==> plan.Ok? && Comes(inst, w, plan.value, r.value)
  {
    hide Inv, Schedule, Opened, Enqueue, Listing, RoundInv, Settle, Finished, Comes;
    EnqueueLoad(inst, w);
    InvParts(inst, w);
    var q := Enqueue(inst, w);
    ScheduleKeeps(inst, q, script);
    var plan := Schedule(inst, q, script);
    if plan.Ok? {
      RoundListing(inst, plan.value);
      var r := Settle(inst, plan.value, limits);
      if r.Ok? { SettleComes(inst, w, plan.value, limits, r.value); }
    }
  }

  /** What a settled iteration comes to, if it comes to anything. */
  lemma SettleParts(inst: Instance, st: Round, limits: Option<seq<Limit>>)
    requires inst.blockSize > 0 && |st.world.progress| == |inst.requests| && (limits.Some? ==> |limits.value| == |inst.requests|)
    ensures var r := Settle(inst, st, limits);
            r.Ok? && st.services == [] ==>
              Future(inst, st.world) != {} && r.value == st.world.(time := Least(Future(inst, st.world)))
    ensures var r, c := Settle(inst, st, limits), Duration(inst, st.services);
            r.Ok? && st.services != [] ==>
              c.Some? && Servable(inst, st.services) && r.value == Settled(inst, st, st.world.time + c.value)
  {
    hide Settled, Late, Future, Duration, Servable;
  }

  lemma SettleComes(inst: Instance, w: World, st: Round, limits: Option<seq<Limit>>, r: World)
    requires RoundInv(inst, st) && st.world.time == w.time && (limits.Some? ==> |limits.value| == |inst.requests|)
    requires inst.blockSize > 0 && |st.world.progress| == |inst.requests| && Settle(inst, st, limits) == Ok(r)
    ensures Comes(inst, w, st, r)
  {
    hide *;
    SettleParts(inst, st, limits);
    if st.services == [] {
      NextArrivalIs(inst, st.world);
      IdleComes(inst, w, st, r);
    } else {
      DurationTakes(inst, st.services);
      var end := st.world.time + Duration(inst, st.services).value;
      SettledTime(inst, st, end);
      SettledAdvanced(inst, st, end);
      BusyComes(inst, w, st, r);
    }
  }

  lemma IdleComes(inst: Instance, w: World, st: Round, r: World)
    requires st.services == [] && r == st.world.(time := r.time) && IsNextArrival(inst, st.world, r.time)
    ensures Comes(inst, w, st, r)
  {
    hide IsNextArrival;
  }

  lemma BusyComes(inst: Instance, w: World, st: Round, r: World)
    requires st.services != [] && Charges(inst, st.services, r.time - w.time) && Advanced(inst, st.world, st.services, r)
    ensures Comes(inst, w, st, r)
  {
    hide Charges, Advanced;
  }

  lemma NextArrivalIs(inst: Instance, w: World)
    requires Future(inst, w) != {}
    ensures IsNextArrival(inst, w, Least(Future(inst, w)))
  {
    var t := Least(Future(inst, w));
    assert IsLeast(Future(inst, w), t);
    forall i: nat | i < |inst.requests| && i !in w.released ensures t <= inst.requests[i].arrival {
      assert inst.requests[i].arrival in Future(inst, w);
    }
  }

  lemma SettledAdvanced(inst: Instance, st: Round, end: int)
    requires RoundInv(inst, st)
    ensures Servable(inst, st.services) && |st.world.progress| == |inst.requests| && inst.blockSize > 0
    ensures Advanced(inst, st.world, st.services, Settled(inst, st, end))
  {
    ServableRound(inst, st);
    hide RoundInv, ServeAll, AllServed, Settled, Opened, AllContinue, FirstCome;
    SettledParts(inst, st, end);
    SettledTime(inst, st, end);
    ServeAllRecords(inst, st.world, st.services, end);
    var a, r := ServeAll(inst, st.world, st.services, end), Settled(inst, st, end);
    LeftRecords(a, r);
    assert AllServed(inst, st.world.progress, a.progress, st.services, r.time);
  }

  lemma LeftRecords(a: World, r: World)
    requires Left(a, r.(time := a.time))
    ensures |r.progress| == |a.progress|
    ensures forall i :: 0 <= i < |a.progress| ==> r.progress[i] == a.progress[i].(blocks := r.progress[i].blocks)
  {
    assert r.(time := a.time).progress == r.progress;
  }
}
