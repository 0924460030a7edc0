/** Planning one iteration: block demand is met, the queue keeps its order, and its head is always served. */
module EvictionRound {
  import opened Common
  import opened Division
  import opened EvictionModel
  import opened EvictionPool

  // ---------------------------------------------------------------------------------------
  // The invariant during planning

  /** Tokens planned for a request. */
  function Pledged(services: seq<Service>, i: nat): int {
    if services == [] then 0
    else Pledged(services[..|services| - 1], i) + if services[|services| - 1].index == i then services[|services| - 1].tokens else 0
  }

  /** The script of one request: completion with the last output, nothing before release. */
  ghost predicate Scripted(r: Request, p: Progress, released: bool) {
    && |p.outputs| <= r.output && (p.completed.Some? <==> |p.outputs| == r.output)
    && (!released ==> p == Untouched)
  }

  /** The queue holds exactly the released requests that are not complete. */
  ghost predicate Queued(inst: Instance, w: World) {
    && |w.progress| == |inst.requests| && Listing(w)
    && (forall i :: 0 <= i < |w.progress| ==>
          && Scripted(inst.requests[i], w.progress[i], i in w.released)
          && (i in Queue(w) <==> i in w.released && w.progress[i].completed.None?))
  }

  /** Only running requests hold blocks; waiting ones start over. */
  ghost predicate OthersIdle(w: World) {
    forall i :: 0 <= i < |w.progress| && i !in w.running ==>
      w.progress[i].blocks == [] && (w.progress[i].completed.None? ==> w.progress[i].computed == 0)
  }

  /** A running request holds the blocks of what is computed and planned, and has work left. */
  ghost predicate Holding(inst: Instance, w: World, i: nat, pledged: int)
    requires inst.blockSize > 0 && i < |w.progress| == |inst.requests|
  {
    var p := w.progress[i];
    && |p.blocks| == Ceil(p.computed + pledged, inst.blockSize)
    && p.computed < Target(inst, w, i) && 0 <= pledged && p.computed + pledged <= Target(inst, w, i)
  }

  ghost predicate AllHolding(inst: Instance, w: World, services: seq<Service>)
    requires inst.blockSize > 0 && |w.progress| == |inst.requests|
  {
    forall i :: i in w.running && i < |w.progress| ==> Holding(inst, w, i, Pledged(services, i))
  }

  /** Each service is a running request's, with at least one token, and no request has two. */
  ghost predicate Batched(w: World, services: seq<Service>) {
    && (forall k :: 0 <= k < |services| ==> services[k].index in w.running && services[k].tokens >= 1)
    && forall j, k :: 0 <= j < k < |services| ==> services[j].index != services[k].index
  }

  ghost predicate RoundInv(inst: Instance, st: Round) {
    && inst.Valid() && PoolInv(st.world, inst.capacity) && Queued(inst, st.world) && OthersIdle(st.world)
    && AllHolding(inst, st.world, st.services) && Batched(st.world, st.services) && st.budget >= 0
  }

  ghost predicate Unplanned(services: seq<Service>, i: nat) {
    forall k :: 0 <= k < |services| ==> services[k].index != i
  }

  lemma {:induction false} UnplannedPledges(services: seq<Service>, i: nat)
    requires Unplanned(services, i)
    ensures Pledged(services, i) == 0
  {
    if services != [] { UnplannedPledges(services[..|services| - 1], i); }
  }

  lemma PledgedNext(services: seq<Service>, s: Service, i: nat)
    ensures Pledged(services + [s], i) == Pledged(services, i) + if s.index == i then s.tokens else 0
  {
    assert (services + [s])[..|services|] == services;
  }

  /** Tokens a request can need altogether: its prompt and all outputs but the last. */
  function Demand(r: Request): int {
    r.input + r.output - 1
  }

  lemma TargetWithin(inst: Instance, w: World, i: nat)
    requires inst.Valid() && Queued(inst, w) && i < |w.progress| && w.progress[i].completed.None?
    ensures Target(inst, w, i) <= Demand(inst.requests[i])
    ensures Ceil(Target(inst, w, i), inst.blockSize) <= inst.capacity
  {
    assert Scripted(inst.requests[i], w.progress[i], i in w.released);
    CeilMono(Target(inst, w, i), Demand(inst.requests[i]), inst.blockSize);
  }

  // ---------------------------------------------------------------------------------------
  // Preemption

  lemma PreemptPool(w: World, capacity: nat, i: nat)
    requires PoolInv(w, capacity) && i < |w.progress| && i in w.running
    ensures PoolInv(Preempt(w, i), capacity)
  {
    hide Holders;
    ReleaseKeeps(w, capacity, i);
    var r, q := Release(w, i), Preempt(w, i);
    CountedUpdate(r.refs, q.refs, r.progress, i, q.progress[i]);
  }

  /** What preempting the tail leaves, when no service was planned for it. */
  lemma PreemptKeeps(inst: Instance, st: Round)
    requires RoundInv(inst, st) && st.world.running != []
    requires Unplanned(st.services, st.world.running[|st.world.running| - 1])
    ensures var r := PreemptLast(st);
            && RoundInv(inst, r) && r.services == st.services && r.budget == st.budget && r.preempted
            && r.world.used == st.world.used
            && forall j :: j in r.world.running ==> j < |st.world.progress| && r.world.progress[j] == st.world.progress[j]
  {
    hide PoolInv, Release, Scripted, Queued, AllHolding, OthersIdle, Batched, Preempt;
    var w := st.world;
    QueuedListing(inst, w);
    ListingParts(w);
    var victim := w.running[|w.running| - 1];
    assert Planned(st.services, victim).None?;
    PreemptPool(w, inst.capacity, victim);
    var r := PreemptLast(st);
    PreemptRecord(w, victim);
    PreemptQueued(inst, w, victim);
    PreemptHolding(inst, w, victim, st.services);
  }

  lemma QueuedListing(inst: Instance, w: World)
    requires Queued(inst, w)
    ensures |w.progress| == |inst.requests| && Listing(w)
  {}

  lemma HoldingFrame(inst: Instance, w: World, r: World, i: nat, pledged: int)
    requires inst.blockSize > 0 && i < |w.progress| == |r.progress| == |inst.requests| && r.progress[i] == w.progress[i]
    requires Holding(inst, w, i, pledged)
    ensures Holding(inst, r, i, pledged)
  {}

  lemma PreemptHolding(inst: Instance, w: World, i: nat, services: seq<Service>)
    requires inst.Valid() && |w.progress| == |inst.requests| && w.running != [] && Listing(w)
    requires i == w.running[|w.running| - 1] && i < |w.progress| && Unplanned(services, i)
    requires AllHolding(inst, w, services) && OthersIdle(w) && Batched(w, services)
    ensures var r := Preempt(w, i); AllHolding(inst, r, services) && OthersIdle(r) && Batched(r, services)
  {
    hide Holding, Pledged, Preempt, Listing, Distinct;
    ListingParts(w);
    PreemptRecord(w, i);
    LastIndex(w.running);
    var r := Preempt(w, i);
    assert r.running == w.running[..|w.running| - 1];
    OthersRun(w.running, r.running);
    forall j | j in r.running && j < |r.progress| ensures Holding(inst, r, j, Pledged(services, j)) {
      assert j in w.running;
      HoldingFrame(inst, w, r, j, Pledged(services, j));
    }
  }

  lemma OthersRun(running: seq<nat>, rest: seq<nat>)
    requires running != [] && Distinct(running) && rest == running[..|running| - 1]
    ensures forall j :: j in running && j != running[|running| - 1] <==> j in rest
  {
    forall j | j in running && j != running[|running| - 1] ensures j in rest {
      assert rest[IndexOf(running, j)] == j;
    }
  }

  lemma PreemptRecord(w: World, i: nat)
    requires i < |w.progress| && i in w.running
    ensures var r := Preempt(w, i);
            && r.progress == w.progress[i := w.progress[i].(blocks := [], computed := 0, preemptions := w.progress[i].preemptions + 1)]
            && r.released == w.released && r.time == w.time && r.used == w.used && r.identity == w.identity
            && r.running == RemoveAt(w.running, IndexOf(w.running, i)) && r.waiting == [i] + w.waiting
  {}

  lemma PreemptQueued(inst: Instance, w: World, i: nat)
    requires Queued(inst, w) && w.running != [] && i == w.running[|w.running| - 1] && i < |w.progress|
    requires Queue(Preempt(w, i)) == Queue(w)
    ensures Queued(inst, Preempt(w, i))
  {
    PreemptRecord(w, i);
    assert i in w.running && i in Queue(w);
    assert Scripted(inst.requests[i], w.progress[i], i in w.released);
  }

  // ---------------------------------------------------------------------------------------
  // Room

  /** With everything else preempted, what the request does not hold is free. */
  lemma AloneFree(inst: Instance, w: World, i: nat)
    requires inst.Valid() && PoolInv(w, inst.capacity) && OthersIdle(w) && |w.progress| == |inst.requests|
    requires w.running == [i] && i < |w.progress|
    ensures |w.free| == inst.capacity - |w.progress[i].blocks|
  {
    hide Holders;
    var held := w.progress[i].blocks;
    var whole := Range(inst.capacity);
    assert forall b :: 0 <= b < inst.capacity ==> whole[b] == b;
    assert Distinct(whole);
    forall b: nat ensures b in w.free <==> b in whole && b !in held {
      if b in held {
        HeldNotFree(w, inst.capacity, i, b);
      } else if b < inst.capacity {
        assert whole[b] == b;
        NotHeld(w, b, |w.progress|, i);
      }
    }
    ElementsLength(w.free);
    forall b | b in held ensures b in whole { assert whole[b] == b; }
    WithoutLength(whole, held);
    KeepDistinct(whole, Elements(whole) - Elements(held));
    ElementsLength(Without(whole, held));
    assert Elements(w.free) == Elements(Without(whole, held));
  }

  lemma {:induction false} NotHeld(w: World, b: nat, n: nat, i: nat)
    requires n <= |w.progress| && OthersIdle(w) && w.running == [i] && i < |w.progress| && b !in w.progress[i].blocks
    ensures Holders(w.progress, b, n) == 0
  {
    if n > 0 { NotHeld(w, b, n - 1, i); }
  }

  /** What making room for `need` blocks of request `i` leaves behind. */
  ghost predicate Roomy(inst: Instance, st: Round, i: nat, need: int, r: Round) {
    && RoundInv(inst, r) && r.services == st.services && r.budget == st.budget && r.world.used == st.world.used
    && i < |st.world.progress| == |r.world.progress| && i in st.world.running
    && (st.preempted ==> r.preempted) && (!r.preempted ==> r == st)
    && (i in r.world.running ==> need <= |r.world.free| && r.world.progress[i] == st.world.progress[i])
    && (i !in r.world.running ==> r.preempted)
    && (forall j :: j in r.world.running ==> j < |st.world.progress| && r.world.progress[j] == st.world.progress[j])
    && (i == st.world.running[0] ==> i in r.world.running)
    && IndexOf(st.world.running, i) <= |r.world.running|
  }

  /** The preemption loop: nothing planned is rolled back; the request either has its room or gave way itself. */
  lemma {:induction false} MakeRoomKeeps(inst: Instance, st: Round, i: nat, need: int)
    requires RoundInv(inst, st) && i in st.world.running && i < |st.world.progress|
    requires forall k :: IndexOf(st.world.running, i) <= k < |st.world.running| ==> Unplanned(st.services, st.world.running[k])
    requires need <= inst.capacity - |st.world.progress[i].blocks|
    ensures Roomy(inst, st, i, need, MakeRoom(st, i, need))
    decreases |st.world.running|
  {
    hide PreemptLast, RoundInv, Unplanned, SameScript, Listing, Roomy;
    RoundListing(inst, st);
    if need <= |st.world.free| {
      RoomAlready(inst, st, i, need);
    } else {
      var last := |st.world.running| - 1;
      PreemptKeeps(inst, st);
      var next := PreemptLast(st);
      if st.world.running[last] == i {
        RoomGone(inst, st, i, need, next);
      } else {
        IndexKept(st.world.running, next.world.running, i);
        MakeRoomKeeps(inst, next, i, need);
        RoomyNext(inst, st, i, need, next, MakeRoom(next, i, need));
      }
    }
  }

  lemma RoomAlready(inst: Instance, st: Round, i: nat, need: int)
    requires RoundInv(inst, st) && i in st.world.running && i < |st.world.progress| && need <= |st.world.free|
    ensures Roomy(inst, st, i, need, st)
  {
    RoundListing(inst, st);
    hide RoundInv;
  }

  /** The request itself was the last one running. It was not alone: then its blocks would have fitted. */
  lemma RoomGone(inst: Instance, st: Round, i: nat, need: int, next: Round)
    requires RoundInv(inst, st) && i in st.world.running && i < |st.world.progress| == |next.world.progress|
    requires need <= inst.capacity - |st.world.progress[i].blocks| && need > |st.world.free|
    requires st.world.running[|st.world.running| - 1] == i && Distinct(st.world.running)
    requires RoundInv(inst, next) && next.services == st.services && next.budget == st.budget && next.preempted
    requires next.world.used == st.world.used && next.world.running == st.world.running[..|st.world.running| - 1]
    requires forall j :: j in next.world.running ==> j < |st.world.progress| && next.world.progress[j] == st.world.progress[j]
    ensures Roomy(inst, st, i, need, next)
  {
    hide RoundInv;
    assert IndexOf(st.world.running, i) == |st.world.running| - 1;
    if |st.world.running| == 1 { AloneRoom(inst, st, i); assert false; }
  }

  /** A request keeps its place when the last one goes. */
  lemma IndexKept(running: seq<nat>, rest: seq<nat>, i: nat)
    requires Distinct(running) && i in running && running[|running| - 1] != i && rest == running[..|running| - 1]
    ensures i in rest && IndexOf(rest, i) == IndexOf(running, i) < |rest|
  {
    var at := IndexOf(running, i);
    assert rest[at] == i;
  }

  lemma RoomyNext(inst: Instance, st: Round, i: nat, need: int, next: Round, r: Round)
    requires i < |st.world.progress| == |next.world.progress| && Distinct(st.world.running)
    requires i in st.world.running && i in next.world.running
    requires next.world.running == st.world.running[..|st.world.running| - 1]
    requires next.services == st.services && next.budget == st.budget && next.preempted && next.world.used == st.world.used
    requires forall j :: j in next.world.running ==> j < |st.world.progress| && next.world.progress[j] == st.world.progress[j]
    requires IndexOf(next.world.running, i) == IndexOf(st.world.running, i)
    requires Roomy(inst, next, i, need, r) && forall j :: j in r.world.running ==> j in next.world.running
    ensures Roomy(inst, st, i, need, r)
  {
    hide RoundInv;
  }

  lemma RoundListing(inst: Instance, st: Round)
    requires RoundInv(inst, st)
    ensures inst.Valid() && |st.world.progress| == |inst.requests| && Listing(st.world)
    ensures Below(st.world.running, |st.world.progress|) && Distinct(st.world.running)
  {
    ListingParts(st.world);
  }

  lemma AloneRoom(inst: Instance, st: Round, i: nat)
    requires RoundInv(inst, st) && st.world.running == [i] && i < |st.world.progress|
    ensures |st.world.free| == inst.capacity - |st.world.progress[i].blocks|
  {
    AloneFree(inst, st.world, i);
  }

  // ---------------------------------------------------------------------------------------
  // Growth of a running request

  /** A script outcome is sound: a value as described, an illegal victim action, or an open choice; without script a value. */
  ghost predicate OnlyVictims<T>(r: Result<T>, script: Option<seq<seq<nat>>>) {
    (r.Fails? ==> r.why == IllegalVictims) && (script.None? ==> r.Ok?) && (r.Choose? ==> Distinct(r.candidates))
  }

  lemma GrowthFits(inst: Instance, w: World, i: nat, n: int)
    requires inst.Valid() && Queued(inst, w) && i < |w.progress| && w.progress[i].completed.None?
    requires Holding(inst, w, i, 0) && 0 <= n && w.progress[i].computed + n <= Target(inst, w, i)
    ensures 0 <= Growth(inst, w, i, n) <= inst.capacity - |w.progress[i].blocks|
  {
    hide Ceil;
    TargetWithin(inst, w, i);
    CeilMono(w.progress[i].computed, w.progress[i].computed + n, inst.blockSize);
    CeilMono(w.progress[i].computed + n, Target(inst, w, i), inst.blockSize);
  }

  /** Allocation for a running request not planned yet. */
  lemma GrowKeeps(inst: Instance, st: Round, i: nat, n: int, prefill: bool, script: Option<seq<seq<nat>>>)
    requires RoundInv(inst, st) && i in st.world.running && i < |st.world.progress| && Unplanned(st.services, i)
    requires 1 <= n <= st.budget && st.world.progress[i].computed + n <= Target(inst, st.world, i)
    requires Growth(inst, st.world, i, n) <= |st.world.free|
    ensures var r := Grow(st, i, n, Growth(inst, st.world, i, n), prefill, script);
            && OnlyVictims(r, script)
            && (r.Ok? ==>
                 && RoundInv(inst, r.value) && r.value.preempted == st.preempted
                 && r.value.services == st.services + [Service(i, prefill, n, st.world.progress[i].computed)]
                 && r.value.world.running == st.world.running && KeepsComputed(st.world, r.value.world))
  {
    hide PoolInv, Ceil, Pledged, Allocate, Listing, Queued, OthersIdle, Allocated;
    var w := st.world;
    QueuedListing(inst, w);
    RunsIncomplete(inst, w, i);
    UnplannedPledges(st.services, i);
    assert Holding(inst, w, i, Pledged(st.services, i));
    GrowthFits(inst, w, i, n);
    var need := Growth(inst, w, i, n);
    AllocateKeeps(w, inst.capacity, i, need, script);
    var r := Grow(st, i, n, need, prefill, script);
    if r.Ok? {
      var a := r.value.world;
      GrownLists(inst, w, a, i, need);
      GrownHolding(inst, w, a, i, need, n, st.services, Service(i, prefill, n, w.progress[i].computed));
      assert Batched(a, r.value.services);
      AllocatedComputed(w, a, i, need);
    }
  }

  lemma AllocatedComputed(w: World, a: World, i: nat, need: nat)
    requires i < |w.progress| == |a.progress| && Allocated(w, a, i, need)
    ensures forall j :: 0 <= j < |w.progress| ==> a.progress[j].computed == w.progress[j].computed
  {}

  lemma RunsIncomplete(inst: Instance, w: World, i: nat)
    requires Queued(inst, w) && i in w.running && i < |w.progress|
    ensures w.progress[i].completed.None? && i in w.released
  {
    assert i in Queue(w);
  }

  lemma GrownLists(inst: Instance, w: World, a: World, i: nat, need: nat)
    requires Queued(inst, w) && OthersIdle(w) && i in w.running && i < |w.progress| == |a.progress| && Allocated(w, a, i, need)
    ensures Queued(inst, a) && OthersIdle(a)
  {
    hide Listing;
    assert i in Queue(w);
    assert Queue(a) == Queue(w);
    assert Listing(a) by { ListingFrame(w, a); }
    assert Scripted(inst.requests[i], w.progress[i], i in w.released);
  }

  lemma ListingFrame(w: World, a: World)
    requires Listing(w) && Queue(a) == Queue(w) && |a.progress| == |w.progress|
    ensures Listing(a)
  {}

  lemma GrownHolding(inst: Instance, w: World, a: World, i: nat, need: nat, n: int, services: seq<Service>, s: Service)
    requires inst.blockSize > 0 && |w.progress| == |a.progress| == |inst.requests| && i < |w.progress|
    requires AllHolding(inst, w, services) && Allocated(w, a, i, need) && Unplanned(services, i) && i in w.running
    requires s.index == i && s.tokens == n >= 1 && need == Growth(inst, w, i, n)
    requires w.progress[i].computed + n <= Target(inst, w, i)
    ensures AllHolding(inst, a, services + [s])
  {
    hide Ceil, Pledged;
    forall j | j in a.running && j < |a.progress| ensures Holding(inst, a, j, Pledged(services + [s], j)) {
      PledgedNext(services, s, j);
      UnplannedPledges(services, i);
      assert Holding(inst, w, j, Pledged(services, j));
    }
  }

  lemma TokensOK(inst: Instance, st: Round, i: nat)
    requires RoundInv(inst, st) && i in st.world.running && i < |st.world.progress| && st.budget > 0
    ensures 1 <= Tokens(inst, st, i) <= st.budget
    ensures st.world.progress[i].computed + Tokens(inst, st, i) <= Target(inst, st.world, i)
  {
    assert Holding(inst, st.world, i, Pledged(st.services, i));
  }

  // ---------------------------------------------------------------------------------------
  // The running list

  /** Where the loop over the copy `all` of the running list stands: the tail may have been preempted, and services
      were planned for requests passed only. */
  ghost predicate Passing(inst: Instance, st: Round, all: seq<nat>, k: nat) {
    && RoundInv(inst, st) && st.world.running <= all && Distinct(all) && k <= |all|
    && (forall m :: 0 <= m < |st.services| ==> st.services[m].index in all[..k])
    && (!st.preempted ==> st.world.running == all)
  }

  /** Planned requests come before position `k`. */
  lemma PassedPlanned(inst: Instance, st: Round, all: seq<nat>, k: nat, m: nat)
    requires Passing(inst, st, all, k) && k <= m < |st.world.running|
    ensures Unplanned(st.services, st.world.running[m])
  {
    forall a | 0 <= a < |st.services| ensures st.services[a].index != st.world.running[m] {
      var b := IndexOf(all[..k], st.services[a].index);
      assert all[b] == st.services[a].index && all[m] == st.world.running[m];
    }
  }

  /** Requests that keep running keep what they computed. */
  ghost predicate KeepsComputed(w: World, r: World) {
    forall j :: j in w.running && j in r.running && j < |w.progress| && j < |r.progress| ==>
      r.progress[j].computed == w.progress[j].computed
  }

  /** What one request's turn leaves. */
  ghost predicate AfterTurn(inst: Instance, st: Round, r: Result<Round>, all: seq<nat>, k: nat, script: Option<seq<seq<nat>>>) {
    && OnlyVictims(r, script)
    && (r.Ok? ==>
          && Passing(inst, r.value, all, k) && st.services <= r.value.services && (st.preempted ==> r.value.preempted)
          && (st.world.running != [] ==> r.value.world.running != [])
          && KeepsComputed(st.world, r.value.world) && r.value.world.running <= st.world.running)
  }

  /** Room for the tokens of `all[k]`, or its own preemption. */
  lemma RoomTurn(inst: Instance, st: Round, all: seq<nat>, k: nat, n: int)
    requires Passing(inst, st, all, k) && k < |all| && all[k] < |inst.requests| == |st.world.progress| && inst.blockSize > 0
    requires all[k] in st.world.running && st.budget != 0 && n == Tokens(inst, st, all[k])
    ensures Listing(st.world)
    ensures var room := MakeRoom(st, all[k], Growth(inst, st.world, all[k], n));
            && Passing(inst, room, all, k) && room.services == st.services && room.budget == st.budget
            && (st.preempted ==> room.preempted) && k <= |room.world.running| && KeepsComputed(st.world, room.world)
            && (k == 0 ==> all[k] in room.world.running)
            && Roomy(inst, st, all[k], Growth(inst, st.world, all[k], n), room)
            && (all[k] in room.world.running ==>
                  && 1 <= n <= room.budget && room.world.progress[all[k]].computed + n <= Target(inst, room.world, all[k])
                  && Growth(inst, room.world, all[k], n) == Growth(inst, st.world, all[k], n) <= |room.world.free|
                  && Unplanned(room.services, all[k])
                  && room.world.progress[all[k]].computed == st.world.progress[all[k]].computed)
  {
    hide RoundInv, MakeRoom, Tokens, Growth, Unplanned, Holding, SameScript, Listing;
    RoundListing(inst, st);
    var i := all[k];
    var w := st.world;
    var at := IndexOf(w.running, i);
    assert all[at] == i && at == k;
    BudgetOK(inst, st);
    TokensOK(inst, st, i);
    forall m | at <= m < |w.running| ensures Unplanned(st.services, w.running[m]) { PassedPlanned(inst, st, all, k, m); }
    assert w.running[at] == i;
    HoldingNow(inst, st, i);
    GrowthFits(inst, w, i, n);
    MakeRoomKeeps(inst, st, i, Growth(inst, w, i, n));
    var room := MakeRoom(st, i, Growth(inst, w, i, n));
    if i in room.world.running { GrowthSame(inst, w, room.world, i, n); }
  }

  lemma RunOneKeeps(inst: Instance, st: Round, all: seq<nat>, k: nat, script: Option<seq<seq<nat>>>)
    requires Passing(inst, st, all, k) && k < |all| && all[k] < |inst.requests|
    ensures Fitting(inst, st.world)
    ensures AfterTurn(inst, st, RunOne(inst, st, all[k], script), all, k + 1, script)
    ensures var r := RunOne(inst, st, all[k], script);
            k == 0 && st.world.running != [] && st.budget > 0 && r.Ok? ==>
              r.value.services != [] && r.value.services[0].index == all[0]
  {
    hide RoundInv, Grow, MakeRoom, Tokens, Growth, Unplanned, Holding, SameScript, Listing;
    RoundListing(inst, st);
    var i := all[k];
    assert all[..k + 1] == all[..k] + [i];
    if i in st.world.running && st.budget != 0 {
      var n := Tokens(inst, st, i);
      RoomTurn(inst, st, all, k, n);
      var room := MakeRoom(st, i, Growth(inst, st.world, i, n));
      if i in room.world.running { GrowTurn(inst, st, room, all, k, n, script); }
    }
  }

  /** The request whose turn it is grows. */
  lemma GrowTurn(inst: Instance, st: Round, room: Round, all: seq<nat>, k: nat, n: int, script: Option<seq<seq<nat>>>)
    requires Passing(inst, st, all, k) && Passing(inst, room, all, k) && k < |all| && all[k] < |inst.requests| == |room.world.progress|
    requires inst.blockSize > 0 && |st.world.progress| == |inst.requests|
    requires room.services == st.services && (st.preempted ==> room.preempted)
    requires all[k] in room.world.running && 1 <= n <= room.budget && KeepsComputed(st.world, room.world)
    requires room.world.running <= st.world.running
    requires room.world.progress[all[k]].computed + n <= Target(inst, room.world, all[k]) && Unplanned(room.services, all[k])
    requires Growth(inst, room.world, all[k], n) <= |room.world.free|
    ensures var prefill := st.world.progress[all[k]].computed < inst.requests[all[k]].input;
            var r := Grow(room, all[k], n, Growth(inst, room.world, all[k], n), prefill, script);
            && AfterTurn(inst, st, r, all, k + 1, script)
            && (r.Ok? ==> r.value.services != [] && (st.services == [] ==> r.value.services[0].index == all[k]))
  {
    hide RoundInv, Grow, Growth, Unplanned, Target;
    assert all[..k + 1] == all[..k] + [all[k]];
    GrowKeeps(inst, room, all[k], n, st.world.progress[all[k]].computed < inst.requests[all[k]].input, script);
  }

  lemma GrowthSame(inst: Instance, w: World, a: World, i: nat, n: int)
    requires inst.blockSize > 0 && i < |w.progress| == |a.progress| == |inst.requests| && a.progress[i] == w.progress[i]
    ensures Growth(inst, w, i, n) == Growth(inst, a, i, n) && Target(inst, w, i) == Target(inst, a, i)
  {}

  lemma BudgetOK(inst: Instance, st: Round)
    requires RoundInv(inst, st)
    ensures st.budget >= 0 && Queued(inst, st.world)
  {}

  lemma HoldingNow(inst: Instance, st: Round, i: nat)
    requires RoundInv(inst, st) && i in st.world.running && i < |st.world.progress| && Unplanned(st.services, i)
    ensures Holding(inst, st.world, i, 0) && st.world.progress[i].completed.None?
  {
    UnplannedPledges(st.services, i);
    assert i in Queue(st.world);
    assert Holding(inst, st.world, i, Pledged(st.services, i));
  }

  /** The loop over the running list: the head is served first, and nothing planned is ever rolled back. */
  lemma {:induction false} RunAllKeeps(inst: Instance, st: Round, all: seq<nat>, k: nat, script: Option<seq<seq<nat>>>)
    requires Passing(inst, st, all, k) && Below(all, |inst.requests|)
    ensures Fitting(inst, st.world)
    ensures AfterTurn(inst, st, RunAll(inst, st, all[k..], script), all, |all|, script)
    ensures var r := RunAll(inst, st, all[k..], script);
            k == 0 && st.world.running != [] && st.budget > 0 && r.Ok? ==>
              r.value.services != [] && r.value.services[0].index == all[0]
    decreases |all| - k
  {
    hide RoundInv, RunOne, SameScript, Listing, AfterTurn;
    RoundListing(inst, st);
    if k < |all| {
      RunOneKeeps(inst, st, all, k, script);
      assert all[k..][0] == all[k] && all[k..][1..] == all[k + 1..];
      var one := RunOne(inst, st, all[k], script);
      if one.Ok? {
        TurnPassed(inst, st, one.value, all, k + 1, script);
        RunAllKeeps(inst, one.value, all, k + 1, script);
        TurnsCompose(inst, st, one.value, RunAll(inst, one.value, all[k + 1..], script), all, k + 1, script);
      } else {
        TurnEnds(inst, st, one, all, k + 1, script);
      }
    } else {
      TurnNone(inst, st, all, script);
    }
  }

  lemma TurnPassed(inst: Instance, st: Round, one: Round, all: seq<nat>, k: nat, script: Option<seq<seq<nat>>>)
    requires AfterTurn(inst, st, Ok(one), all, k, script)
    ensures Passing(inst, one, all, k)
  {}

  lemma TurnEnds(inst: Instance, st: Round, r: Result<Round>, all: seq<nat>, k: nat, script: Option<seq<seq<nat>>>)
    requires AfterTurn(inst, st, r, all, k, script) && !r.Ok?
    ensures AfterTurn(inst, st, r, all, |all|, script)
  {}

  lemma TurnNone(inst: Instance, st: Round, all: seq<nat>, script: Option<seq<seq<nat>>>)
    requires Passing(inst, st, all, |all|)
    ensures AfterTurn(inst, st, Ok(st), all, |all|, script)
  {
    hide RoundInv;
  }

  lemma PrefixTransitive<T>(a: seq<T>, b: seq<T>, c: seq<T>)
    requires a <= b && b <= c
    ensures a <= c && (b != [] ==> c != [] && c[0] == b[0])
  {}

  lemma TurnsCompose(inst: Instance, st: Round, one: Round, r: Result<Round>, all: seq<nat>, k: nat,
                     script: Option<seq<seq<nat>>>)
    requires AfterTurn(inst, st, Ok(one), all, k, script) && AfterTurn(inst, one, r, all, |all|, script)
    ensures AfterTurn(inst, st, r, all, |all|, script)
    ensures r.Ok? && one.services != [] ==> r.value.services != [] && r.value.services[0] == one.services[0]
  {
    hide RoundInv;
    RoundListing(inst, one);
    if r.Ok? {
      forall j | j in r.value.world.running ensures j in one.world.running && j in st.world.running {
        var m := IndexOf(r.value.world.running, j);
        assert one.world.running[m] == j && st.world.running[m] == j;
      }
      PrefixTransitive(st.services, one.services, r.value.services);
      PrefixTransitive(r.value.world.running, one.world.running, st.world.running);
    }
  }

  // ---------------------------------------------------------------------------------------
  // Admission

  lemma WaitingFresh(inst: Instance, st: Round)
    requires RoundInv(inst, st) && st.world.waiting != []
    ensures var i := st.world.waiting[0];
            && i < |st.world.progress| && i !in st.world.running && Unplanned(st.services, i)
            && st.world.progress[i].blocks == [] && st.world.progress[i].computed == 0
            && st.world.progress[i].completed.None? && i in st.world.released
  {
    ListingParts(st.world);
    var i := st.world.waiting[0];
    assert i in st.world.waiting && Queue(st.world)[|st.world.running|] == i;
    assert i in Queue(st.world);
  }

  /** The first chunk after the hits: at least one token, and its blocks fit because the whole prompt does. */
  lemma AdmissionFits(inst: Instance, w: World, i: nat, hits: seq<nat>, budget: int)
    requires inst.Valid() && Queued(inst, w) && i < |w.progress| && w.progress[i].completed.None? && budget > 0
    requires hits == Hits(inst.blockSize, inst.requests[i], w.identity, 0)
    ensures var held := Hold(inst, w, i, hits);
            var n := FirstChunk(inst, budget, held, i);
            && 1 <= n <= budget && held.progress[i].computed + n <= Target(inst, held, i)
            && held.progress[i].computed < Target(inst, held, i)
            && Ceil(held.progress[i].computed, inst.blockSize) == |hits|
            && 0 <= Growth(inst, held, i, n) <= Ceil(Target(inst, w, i), inst.blockSize) - |hits|
  {
    hide Hits, Ceil;
    var r := inst.requests[i];
    var held := Hold(inst, w, i, hits);
    HitsBelow(inst.blockSize, r, w.identity);
    FullTokens(r.input - 1, inst.blockSize, |hits|);
    CeilMultiple(|hits|, inst.blockSize);
    var computed := held.progress[i].computed;
    var n := FirstChunk(inst, budget, held, i);
    CeilMono(computed, computed + n, inst.blockSize);
    CeilMono(computed + n, Target(inst, w, i), inst.blockSize);
  }

  lemma HitsBelow(size: int, r: Request, identity: seq<Option<seq<int>>>)
    requires size > 0 && r.input > 0
    ensures |Hits(size, r, identity, 0)| <= (r.input - 1) / size
  {
    hide Hits;
    assert 0 <= (r.input - 1) / size;
    HitsShort(size, r, identity, 0);
  }

  /** Between holding the hits and joining the running list. */
  lemma AdmitOneKeeps(inst: Instance, st: Round, script: Option<seq<seq<nat>>>)
    requires RoundInv(inst, st) && st.world.waiting != [] && st.budget > 0
    requires st.world.waiting[0] < |st.world.progress| == |inst.requests| && PromptFits(inst, st.world)
    ensures Fitting(inst, st.world)
    ensures var i := st.world.waiting[0];
            var r := AdmitOne(inst, st, Hits(inst.blockSize, inst.requests[i], st.world.identity, 0), script);
            && OnlyVictims(r, script)
            && (r.Ok? ==>
                 && RoundInv(inst, r.value) && r.value.preempted == st.preempted && |r.value.services| == |st.services| + 1
                 && st.services <= r.value.services && r.value.services[|st.services|].index == i
                 && r.value.world.running == st.world.running + [i] && KeepsComputed(st.world, r.value.world))
  {
    hide PoolInv, Ceil, Hits, Growth, Allocate, Listing, Queued, OthersIdle, AllHolding, Allocated, Hold, Batched;
    RoundListing(inst, st);
    WaitingFresh(inst, st);
    var w := st.world;
    var i := w.waiting[0];
    var hits := Hits(inst.blockSize, inst.requests[i], w.identity, 0);
    AdmissionFits(inst, w, i, hits, st.budget);
    HitsFound(inst, w, i);
    HoldKeeps(inst, w, i, hits);
    HoldRecord(inst, w, i, hits);
    var held := Hold(inst, w, i, hits);
    var n := FirstChunk(inst, st.budget, held, i);
    var need := Growth(inst, held, i, n);
    AllocateKeeps(held, inst.capacity, i, need, script);
    AdmittedRound(inst, st, hits, script, held, n, Allocate(held, i, need, script));
    if Allocate(held, i, need, script).Ok? {
      var a := Allocate(held, i, need, script).value;
      AdmittedInv(inst, st, held, a, i, hits, n, need, Service(i, true, n, held.progress[i].computed));
      AllocatedComputed(held, a, i, need);
    }
  }

  lemma HitsFound(inst: Instance, w: World, i: nat)
    requires inst.Valid() && PoolInv(w, inst.capacity) && i < |inst.requests|
    ensures var hits := Hits(inst.blockSize, inst.requests[i], w.identity, 0); Distinct(hits) && Below(hits, inst.capacity)
  {
    HitsDistinct(inst.blockSize, inst.requests[i], w.identity);
  }

  lemma HoldRecord(inst: Instance, w: World, i: nat, hits: seq<nat>)
    requires i < |w.progress| && inst.blockSize > 0
    ensures var held := Hold(inst, w, i, hits);
            && held == w.(free := held.free, refs := held.refs, progress := held.progress)
            && held.progress == w.progress[i := w.progress[i].(blocks := hits, computed := |hits| * inst.blockSize,
                                               cachedTokens := w.progress[i].cachedTokens + |hits| * inst.blockSize)]
  {}

  lemma AdmittedRound(inst: Instance, st: Round, hits: seq<nat>, script: Option<seq<seq<nat>>>, held: World, n: int,
                      a: Result<World>)
    requires Fitting(inst, st.world) && st.world.waiting != [] && st.world.waiting[0] < |st.world.progress|
    requires held == Hold(inst, st.world, st.world.waiting[0], hits) && n == FirstChunk(inst, st.budget, held, st.world.waiting[0])
    requires a == Allocate(held, st.world.waiting[0], Growth(inst, held, st.world.waiting[0], n), script)
    ensures var i := st.world.waiting[0];
            var r := AdmitOne(inst, st, hits, script);
            match a
            case Ok(w) =>
              r == Ok(Round(w.(waiting := st.world.waiting[1..], running := st.world.running + [i]), st.budget - n,
                            st.services + [Service(i, true, n, held.progress[i].computed)], st.preempted))
            case Choose(c, k) => r == Choose(c, k)
            case Fails(f) => r == Fails(f)
  {
    hide Allocate, Hits, Growth, FirstChunk;
    HoldRecord(inst, st.world, st.world.waiting[0], hits);
  }

  lemma AdmittedInv(inst: Instance, st: Round, held: World, a: World, i: nat, hits: seq<nat>, n: int, need: nat, s: Service)
    requires RoundInv(inst, st) && st.world.waiting != [] && i == st.world.waiting[0] && i < |st.world.progress|
    requires i !in st.world.running && Unplanned(st.services, i) && i in st.world.released && st.world.progress[i].completed.None?
    requires held == Hold(inst, st.world, i, hits) && i < |held.progress| == |a.progress|
    requires PoolInv(a, inst.capacity) && Allocated(held, a, i, need)
    requires |held.progress| == |inst.requests| && need == Growth(inst, held, i, n) && 1 <= n <= st.budget
    requires held.progress[i].computed < Target(inst, held, i) && held.progress[i].computed + n <= Target(inst, held, i)
    requires s.index == i && s.tokens == n
    ensures RoundInv(inst, Round(a.(waiting := st.world.waiting[1..], running := st.world.running + [i]), st.budget - n,
                                 st.services + [s], st.preempted))
  {
    hide PoolInv, Ceil, Pledged, Listing, Queued, OthersIdle, AllHolding, Batched, Hold, Allocated;
    HoldRecord(inst, st.world, i, hits);
    var b := a.(waiting := st.world.waiting[1..], running := st.world.running + [i]);
    assert PoolInv(b, inst.capacity) by { PoolFrame(a, b, inst.capacity); }
    AdmittedQueued(inst, st.world, held, a, i, need);
    AdmittedIdle(st.world, held, a, i, need, st.world.waiting[1..]);
    AdmittedHolding(inst, st.world, held, a, i, n, need, st.services, s, st.world.waiting[1..]);
    AdmittedBatched(st.world, b, i, st.services, s);
  }

  lemma PoolFrame(a: World, b: World, capacity: nat)
    requires PoolInv(a, capacity)
    requires b.identity == a.identity && b.refs == a.refs && b.free == a.free && b.progress == a.progress
    ensures PoolInv(b, capacity)
  {}

  /** `a` is `w` with only the record of `i` changed, and that only in blocks and counts. */
  ghost predicate OnlyRecord(w: World, a: World, i: nat)
    requires i < |w.progress|
  {
    && |a.progress| == |w.progress| && a.released == w.released
    && (forall j :: 0 <= j < |w.progress| && j != i ==> a.progress[j] == w.progress[j])
    && a.progress[i].outputs == w.progress[i].outputs && a.progress[i].completed == w.progress[i].completed
  }

  lemma AdmittedQueued(inst: Instance, w: World, held: World, a: World, i: nat, need: nat)
    requires Queued(inst, w) && w.waiting != [] && i == w.waiting[0] && i < |w.progress| == |held.progress| == |a.progress|
    requires i in w.released && OnlyRecord(w, held, i) && Allocated(held, a, i, need)
    ensures Queued(inst, a.(waiting := w.waiting[1..], running := w.running + [i]))
  {
    hide Listing;
    var b := a.(waiting := w.waiting[1..], running := w.running + [i]);
    assert Queue(b) == Queue(w);
    ListingFrame(w, b);
    assert OnlyRecord(w, b, i);
    forall j | 0 <= j < |b.progress| ensures Scripted(inst.requests[j], b.progress[j], j in b.released) {
      assert Scripted(inst.requests[j], w.progress[j], j in w.released);
    }
  }

  lemma AdmittedIdle(w: World, held: World, a: World, i: nat, need: nat, waiting: seq<nat>)
    requires OthersIdle(w) && i < |w.progress| == |held.progress| == |a.progress|
    requires OnlyRecord(w, held, i) && Allocated(held, a, i, need)
    ensures OthersIdle(a.(waiting := waiting, running := w.running + [i]))
  {
    var b := a.(waiting := waiting, running := w.running + [i]);
    forall j | 0 <= j < |b.progress| && j !in b.running
      ensures b.progress[j].blocks == [] && (b.progress[j].completed.None? ==> b.progress[j].computed == 0)
    {
      assert i in b.running;
      assert w.running <= b.running;
      assert j !in w.running;
    }
  }

  lemma AdmittedHolding(inst: Instance, w: World, held: World, a: World, i: nat, n: int, need: nat,
                        services: seq<Service>, s: Service,
                        waiting: seq<nat>)
    requires inst.blockSize > 0 && i < |w.progress| == |held.progress| == |a.progress| == |inst.requests|
    requires AllHolding(inst, w, services) && OnlyRecord(w, held, i) && Allocated(held, a, i, need) && Unplanned(services, i)
    requires s.index == i && s.tokens == n >= 1 && need == Growth(inst, held, i, n)
    requires held.progress[i].computed < Target(inst, held, i) && held.progress[i].computed + n <= Target(inst, held, i)
    ensures AllHolding(inst, a.(waiting := waiting, running := w.running + [i]), services + [s])
  {
    hide Ceil, Pledged;
    var b := a.(waiting := waiting, running := w.running + [i]);
    forall j | j in b.running && j < |b.progress| ensures Holding(inst, b, j, Pledged(services + [s], j)) {
      PledgedNext(services, s, j);
      UnplannedPledges(services, i);
      if j != i {
        assert j in w.running;
        assert Holding(inst, w, j, Pledged(services, j));
      }
    }
  }

  lemma AdmittedBatched(w: World, b: World, i: nat, services: seq<Service>, s: Service)
    requires Batched(w, services) && b.running == w.running + [i] && Unplanned(services, i) && s.index == i && s.tokens >= 1
    ensures Batched(b, services + [s])
  {
    var all := services + [s];
    forall k | 0 <= k < |all| ensures all[k].index in b.running && all[k].tokens >= 1 {
      if k == |services| { assert b.running[|w.running|] == i; }
    }
  }

  /** The admission loop keeps the invariant and only adds services. */
  lemma {:induction false} AdmitAllKeeps(inst: Instance, st: Round, script: Option<seq<seq<nat>>>)
    requires RoundInv(inst, st)
    ensures Fitting(inst, st.world)
    ensures var r := AdmitAll(inst, st, script);
            && OnlyVictims(r, script)
            && (r.Ok? ==>
                 && RoundInv(inst, r.value) && r.value.preempted == st.preempted && st.services <= r.value.services
                 && st.world.running <= r.value.world.running && KeepsComputed(st.world, r.value.world))
    decreases |st.world.waiting|
  {
    hide RoundInv, Hits, PromptFits, AdmitOne, Listing;
    RoundListing(inst, st);
    BudgetOK(inst, st);
    ListingParts(st.world);
    var w := st.world;
    if w.waiting != [] && st.budget != 0 && |w.running| < inst.maxSequences && PromptFits(inst, w) {
      AdmitOneKeeps(inst, st, script);
      var one := AdmitOne(inst, st, Hits(inst.blockSize, inst.requests[w.waiting[0]], w.identity, 0), script);
      if one.Ok? { AdmitAllKeeps(inst, one.value, script); }
    }
  }

  /** With nothing running, the first waiting request is admitted and served first. */
  lemma AdmitsFirst(inst: Instance, st: Round, script: Option<seq<seq<nat>>>)
    requires RoundInv(inst, st) && st.world.running == [] && st.world.waiting != [] && st.budget > 0
    ensures Fitting(inst, st.world)
    ensures var r := AdmitAll(inst, st, script);
            r.Ok? ==> |r.value.services| > |st.services| && r.value.services[|st.services|].index == st.world.waiting[0]
  {
    hide RoundInv, Hits, PromptFits, AdmitOne, Listing;
    RoundListing(inst, st);
    RoundSizes(inst, st);
    ListingParts(st.world);
    FirstFits(inst, st);
    AdmitOneKeeps(inst, st, script);
    var one := AdmitOne(inst, st, Hits(inst.blockSize, inst.requests[st.world.waiting[0]], st.world.identity, 0), script);
    if one.Ok? {
      AdmitAllKeeps(inst, one.value, script);
      var rest := AdmitAll(inst, one.value, script);
      if rest.Ok? { assert one.value.services <= rest.value.services; }
    }
  }

  lemma RoundSizes(inst: Instance, st: Round)
    requires RoundInv(inst, st)
    ensures inst.maxSequences > 0
  {}

  /** With nothing running the whole cache is free: the first waiting request fits. */
  lemma FirstFits(inst: Instance, st: Round)
    requires RoundInv(inst, st) && st.world.running == [] && st.world.waiting != []
    ensures st.world.waiting[0] < |st.world.progress| == |inst.requests| && PromptFits(inst, st.world)
  {
    hide Hits, Ceil, Holders;
    WaitingFresh(inst, st);
    var w := st.world;
    var i := w.waiting[0];
    var hits := Hits(inst.blockSize, inst.requests[i], w.identity, 0);
    TargetWithin(inst, w, i);
    HitsDistinct(inst.blockSize, inst.requests[i], w.identity);
    var idle := Keep(hits, IdleBlocks(w.refs));
    AllFree(inst, w);
  }

  lemma AllFree(inst: Instance, w: World)
    requires inst.Valid() && PoolInv(w, inst.capacity) && OthersIdle(w) && w.running == []
    ensures |w.free| == inst.capacity
  {
    hide Holders;
    var whole := Range(inst.capacity);
    forall b: nat ensures b in w.free <==> b in whole {
      if b < inst.capacity {
        assert whole[b] == b;
        NoHolder(w, b, |w.progress|);
      }
    }
    ElementsLength(w.free);
    ElementsLength(whole);
    assert Elements(w.free) == Elements(whole);
  }

  lemma {:induction false} NoHolder(w: World, b: nat, n: nat)
    requires n <= |w.progress| && OthersIdle(w) && w.running == []
    ensures Holders(w.progress, b, n) == 0
  {
    if n > 0 { NoHolder(w, b, n - 1); }
  }

  // ---------------------------------------------------------------------------------------
  // The whole plan

  /** The world an iteration starts planning from. */
  ghost predicate Opened(inst: Instance, w: World) {
    && inst.Valid() && PoolInv(w, inst.capacity) && Queued(inst, w) && OthersIdle(w) && AllHolding(inst, w, [])
  }

  /** Planning keeps the queue and never fails; if there is a request, the head of the queue is served. */
  lemma ScheduleKeeps(inst: Instance, w: World, script: Option<seq<seq<nat>>>)
    requires Opened(inst, w)
    ensures Fitting(inst, w)
    ensures var r := Schedule(inst, w, script);
            && OnlyVictims(r, script)
            && (r.Ok? ==> RoundInv(inst, r.value))
            && (r.Ok? && Queue(w) != [] ==>
                  r.value.services != [] && r.value.services[0].index == Queue(w)[0] && r.value.world.running != [])
            && (r.Ok? && w.running != [] ==> r.value.world.progress[w.running[0]].computed == w.progress[w.running[0]].computed)
  {
    hide PoolInv, Queued, OthersIdle, AllHolding, RunAll, AdmitAll, Listing, Batched;
    var st := Round(w, inst.tokenBudget, [], false);
    assert RoundInv(inst, st) by { NoServices(w); }
    RoundListing(inst, st);
    RunAllKeeps(inst, st, w.running, 0, script);
    assert w.running[0..] == w.running;
    var run := RunAll(inst, st, w.running, script);
    if run.Ok? {
      var r := Schedule(inst, w, script);
      if !run.value.preempted { AdmitAllKeeps(inst, run.value, script); }
      if r.Ok? && w.running != [] {
        assert Queue(w)[0] == w.running[0];
        assert run.value.world.running[0] == w.running[0];
        if !run.value.preempted { assert r.value.world.running[0] == w.running[0]; }
        assert run.value.services <= r.value.services;
        assert r.value.services[0] == run.value.services[0];
        ServedRuns(inst, r.value);
      }
      if r.Ok? && w.running == [] && w.waiting != [] {
        assert Queue(w)[0] == w.waiting[0];
        RunNone(inst, st, script);
        AdmitsFirst(inst, st, script);
        ServedRuns(inst, r.value);
      }
    }
  }

  lemma RunNone(inst: Instance, st: Round, script: Option<seq<seq<nat>>>)
    requires Fitting(inst, st.world)
    ensures RunAll(inst, st, [], script) == Ok(st)
  {}

  lemma ServedRuns(inst: Instance, st: Round)
    requires RoundInv(inst, st) && st.services != []
    ensures st.world.running != []
  {
    assert st.services[0].index in st.world.running;
  }

  lemma NoServices(w: World)
    ensures Batched(w, [])
  {}
}
