/** One iteration of the eviction model: the invariant, and a measure that every iteration lowers. */
module EvictionStep {
  import opened Common
  import opened Division
  import opened OutputGaps
  import opened EvictionModel
  import opened EvictionPool
  import opened EvictionRound

  // ---------------------------------------------------------------------------------------
  // The invariant between iterations

  /** Outputs come one after another, none in the future; completion is the last output. */
  ghost predicate Timed(p: Progress, time: int) {
    && (forall a, b :: 0 <= a < b < |p.outputs| ==> p.outputs[a] < p.outputs[b])
    && (forall a :: 0 <= a < |p.outputs| ==> p.outputs[a] <= time)
    && (p.completed.Some? ==> p.outputs != [] && p.completed.value == p.outputs[|p.outputs| - 1])
  }

  ghost predicate AllTimed(w: World) {
    forall i :: 0 <= i < |w.progress| ==> Timed(w.progress[i], w.time)
  }

  /** Whoever has arrived in the past is released before anyone later. */
  ghost predicate InOrder(inst: Instance, w: World) {
    && (forall i :: i in w.released ==> i < |inst.requests| && inst.requests[i].arrival <= w.time)
    && (forall i, j :: i in w.released && 0 <= j < |inst.requests| && j !in w.released ==>
          i < |inst.requests| && inst.requests[i].arrival < inst.requests[j].arrival)
  }

  /** The queue is in order of arrival. */
  ghost predicate FirstCome(inst: Instance, s: seq<nat>) {
    Below(s, |inst.requests|) && forall a, b :: 0 <= a < b < |s| ==> Before(inst, s[a], s[b])
  }

  ghost predicate Inv(inst: Instance, w: World) {
    Opened(inst, w) && AllTimed(w) && InOrder(inst, w) && FirstCome(inst, Queue(w))
  }

  // ---------------------------------------------------------------------------------------
  // Arrivals

  lemma BeforeTransitive(inst: Instance, i: nat, j: nat, k: nat)
    requires i < |inst.requests| && j < |inst.requests| && k < |inst.requests| && Before(inst, i, j) && Before(inst, j, k)
    ensures Before(inst, i, k)
  {}

  lemma {:induction false} InsertSorted(inst: Instance, s: seq<nat>, i: nat)
    requires FirstCome(inst, s) && i < |inst.requests| && i !in s
    ensures FirstCome(inst, Insert(inst, s, i))
  {
    if s == [] || Before(inst, i, s[0]) {
      var r := [i] + s;
      forall a, b | 0 <= a < b < |r| ensures Before(inst, r[a], r[b]) {
        if a == 0 && b > 1 { BeforeTransitive(inst, i, s[0], s[b - 1]); }
      }
    } else {
      InsertSorted(inst, s[1..], i);
      var rest := Insert(inst, s[1..], i);
      forall b | 0 <= b < |rest| ensures Before(inst, s[0], rest[b]) {
        assert rest[b] in rest;
        if rest[b] != i { var m :| 0 <= m < |s[1..]| && s[1..][m] == rest[b]; assert s[m + 1] == rest[b]; }
      }
    }
  }

  lemma {:induction false} ArrivalsSorted(inst: Instance, w: World, n: nat)
    requires n <= |inst.requests|
    ensures FirstCome(inst, Arrivals(inst, w, n))
  {
    if n > 0 {
      ArrivalsSorted(inst, w, n - 1);
      if Arrives(inst, w, n - 1) { InsertSorted(inst, Arrivals(inst, w, n - 1), n - 1); }
    }
  }

  lemma SortedDistinct(inst: Instance, s: seq<nat>)
    requires FirstCome(inst, s)
    ensures Distinct(s)
  {}

  /** Later arrivals queue up behind. */
  lemma EnqueueQueue(inst: Instance, w: World)
    requires Inv(inst, w)
    ensures var q := Enqueue(inst, w);
            && Queue(q) == Queue(w) + Arrivals(inst, w, |inst.requests|)
            && FirstCome(inst, Queue(q)) && InOrder(inst, q)
            && forall i: nat :: i in q.released <==> i in w.released || (i < |inst.requests| && Arrives(inst, w, i))
  {
    hide PoolInv, AllHolding, OthersIdle, AllTimed;
    var q := Enqueue(inst, w);
    var arrived := Arrivals(inst, w, |inst.requests|);
    ArrivalsSorted(inst, w, |inst.requests|);
    assert Queue(q) == Queue(w) + arrived;
    var all := Queue(q);
    forall a, b | 0 <= a < b < |all| ensures Before(inst, all[a], all[b]) {
      if a < |Queue(w)| <= b {
        assert all[a] == Queue(w)[a] && all[a] in Queue(w);
        assert all[b] == arrived[b - |Queue(w)|] && all[b] in arrived;
      }
    }
  }

  lemma EnqueueOpened(inst: Instance, w: World)
    requires Inv(inst, w)
    ensures Opened(inst, Enqueue(inst, w))
  {
    hide PoolInv, Ceil, Timed;
    var q := Enqueue(inst, w);
    EnqueueQueue(inst, w);
    SortedDistinct(inst, Queue(q));
    PoolFrame(w, q, inst.capacity);
    assert Queued(inst, q) by { EnqueueQueued(inst, w); }
  }

  lemma EnqueueQueued(inst: Instance, w: World)
    requires Inv(inst, w)
    ensures Queued(inst, Enqueue(inst, w))
  {
    hide PoolInv, AllHolding, OthersIdle, AllTimed, InOrder;
    var q := Enqueue(inst, w);
    EnqueueQueue(inst, w);
    SortedDistinct(inst, Queue(q));
    var arrived := Arrivals(inst, w, |inst.requests|);
    forall i | 0 <= i < |q.progress|
      ensures Scripted(inst.requests[i], q.progress[i], i in q.released)
      ensures i in Queue(q) <==> i in q.released && q.progress[i].completed.None?
    {
      assert Scripted(inst.requests[i], w.progress[i], i in w.released);
      assert i in Queue(q) <==> i in Queue(w) || i in arrived;
    }
  }

  // ---------------------------------------------------------------------------------------
  // Service

  /** The record after its service. */
  function Served(r: Request, p: Progress, s: Service, end: int): Progress
    requires s.tokens >= 0
  {
    var computed: nat := p.computed + s.tokens;
    if computed >= r.input + |p.outputs| then
      p.(computed := computed, outputs := p.outputs + [end],
         completed := if |p.outputs| + 1 == r.output then Some(end) else p.completed)
    else p.(computed := computed)
  }

  lemma ServeRecord(inst: Instance, w: World, s: Service, end: int)
    requires s.index < |inst.requests| == |w.progress| && inst.blockSize > 0 && s.tokens >= 0
    ensures var r := Serve(inst, w, s, end);
            && r == w.(identity := r.identity, progress := w.progress[s.index := Served(inst.requests[s.index], w.progress[s.index], s, end)])
            && |r.identity| == |w.identity|
  {}

  /** Every record advanced by its own service, if it had one. */
  ghost predicate AllServed(inst: Instance, before: seq<Progress>, after: seq<Progress>, services: seq<Service>, end: int) {
    && |before| == |after| == |inst.requests|
    && (forall k :: 0 <= k < |services| ==>
          && services[k].index < |before| && services[k].tokens >= 0
          && after[services[k].index] == Served(inst.requests[services[k].index], before[services[k].index], services[k], end))
    && forall i :: 0 <= i < |before| && Unplanned(services, i) ==> after[i] == before[i]
  }

  lemma {:induction false} ServeAllRecords(inst: Instance, w: World, services: seq<Service>, end: int)
    requires |w.progress| == |inst.requests| && inst.blockSize > 0 && Servable(inst, services)
    requires forall j, k :: 0 <= j < k < |services| ==> services[j].index != services[k].index
    ensures var r := ServeAll(inst, w, services, end);
            && r == w.(identity := r.identity, progress := r.progress) && |r.identity| == |w.identity|
            && AllServed(inst, w.progress, r.progress, services, end)
    decreases |services|
  {
    hide Serve, Served;
    if services != [] {
      var s := services[0];
      ServeRecord(inst, w, s, end);
      var a := Serve(inst, w, s, end);
      forall k | 0 <= k < |services[1..]| ensures services[1..][k] == services[k + 1] && services[k + 1].index != s.index {}
      ServeAllRecords(inst, a, services[1..], end);
      ServedChain(inst, w.progress, a.progress, ServeAll(inst, w, services, end).progress, services, end);
    }
  }

  lemma ServedChain(inst: Instance, p: seq<Progress>, q: seq<Progress>, r: seq<Progress>, services: seq<Service>, end: int)
    requires services != [] && services[0].index < |p| == |inst.requests| && services[0].tokens >= 0
    requires forall k :: 0 < k < |services| ==> services[k].index != services[0].index
    requires q == p[services[0].index := Served(inst.requests[services[0].index], p[services[0].index], services[0], end)]
    requires AllServed(inst, q, r, services[1..], end)
    ensures AllServed(inst, p, r, services, end)
  {
    hide Served;
    assert Unplanned(services[1..], services[0].index);
    forall k | 0 <= k < |services|
      ensures services[k].index < |p| && services[k].tokens >= 0
      ensures r[services[k].index] == Served(inst.requests[services[k].index], p[services[k].index], services[k], end)
    {
      if k > 0 { assert services[1..][k - 1] == services[k]; }
    }
    forall i | 0 <= i < |p| && Unplanned(services, i) ensures r[i] == p[i] {
      assert Unplanned(services[1..], i);
    }
  }

  lemma {:induction false} HoldersSame(a: seq<Progress>, b: seq<Progress>, block: nat, n: nat)
    requires n <= |a| == |b| && forall i :: 0 <= i < |a| ==> a[i].blocks == b[i].blocks
    ensures Holders(a, block, n) == Holders(b, block, n)
  {
    if n > 0 { HoldersSame(a, b, block, n - 1); }
  }

  lemma PoolTables(w: World, a: World, capacity: nat)
    requires PoolInv(w, capacity) && a.refs == w.refs && a.free == w.free && |a.identity| == |w.identity|
    requires |a.progress| == |w.progress| && forall i :: 0 <= i < |w.progress| ==> a.progress[i].blocks == w.progress[i].blocks
    ensures PoolInv(a, capacity)
  {
    forall b | 0 <= b < |a.refs| ensures a.refs[b] == Holders(a.progress, b, |a.progress|) {
      HoldersSame(w.progress, a.progress, b, |w.progress|);
    }
  }

  lemma {:induction false} PledgedOf(services: seq<Service>, k: nat)
    requires k < |services| && forall i, j :: 0 <= i < j < |services| ==> services[i].index != services[j].index
    ensures Pledged(services, services[k].index) == services[k].tokens
  {
    var n := |services| - 1;
    if k == n {
      assert Unplanned(services[..n], services[k].index);
      UnplannedPledges(services[..n], services[k].index);
    } else {
      PledgedOf(services[..n], k);
    }
  }

  /** The released part of a world whose completed requests have not left yet. */
  ghost predicate Leaving(inst: Instance, w: World) {
    && inst.Valid() && PoolInv(w, inst.capacity) && |w.progress| == |inst.requests| && Listing(w)
    && (forall i :: 0 <= i < |w.progress| ==>
          && Scripted(inst.requests[i], w.progress[i], i in w.released)
          && (i in w.released && w.progress[i].completed.None? ==> i in Queue(w))
          && (i in Queue(w) ==> i in w.released)
          && (i in w.waiting ==> w.progress[i].completed.None?))
    && OthersIdle(w)
    && forall i :: i in w.running && i < |w.progress| && w.progress[i].completed.None? ==> Holding(inst, w, i, 0)
  }

  /** One record before and after service. */
  lemma {:induction false} ServedHolding(inst: Instance, w: World, a: World, i: nat, pledged: int,
                                         services: seq<Service>, end: int)
    requires inst.Valid() && |w.progress| == |a.progress| == |inst.requests| && i < |w.progress|
    requires AllServed(inst, w.progress, a.progress, services, end)
    requires forall j, k :: 0 <= j < k < |services| ==> services[j].index != services[k].index
    requires pledged == Pledged(services, i) && Holding(inst, w, i, pledged)
    requires Scripted(inst.requests[i], w.progress[i], true) && w.progress[i].completed.None?
    ensures a.progress[i].blocks == w.progress[i].blocks && Scripted(inst.requests[i], a.progress[i], true)
    ensures Continues(w.progress[i].outputs, w.progress[i].completed, a.progress[i].outputs, a.progress[i].completed, end)
    ensures a.progress[i].completed.None? ==> Holding(inst, a, i, 0)
    ensures a.progress[i].computed == w.progress[i].computed + pledged
  {
    hide Ceil, Pledged;
    if k :| 0 <= k < |services| && services[k].index == i {
      PledgedOf(services, k);
    } else {
      assert Unplanned(services, i);
      UnplannedPledges(services, i);
    }
  }

  lemma ServableRound(inst: Instance, st: Round)
    requires RoundInv(inst, st)
    ensures Servable(inst, st.services) && |st.world.progress| == |inst.requests| && inst.blockSize > 0
    ensures forall j, k :: 0 <= j < k < |st.services| ==> st.services[j].index != st.services[k].index
  {
    ListingParts(st.world);
    forall k | 0 <= k < |st.services| ensures st.services[k].index < |inst.requests| && st.services[k].tokens >= 0 {
      assert st.services[k].index in st.world.running;
    }
  }

  /** Every record continues from the start of service to its end. */
  ghost predicate AllContinue(w: World, a: World, end: int) {
    && |a.progress| == |w.progress|
    && forall i :: 0 <= i < |w.progress| ==>
         Continues(w.progress[i].outputs, w.progress[i].completed, a.progress[i].outputs, a.progress[i].completed, end)
  }

  /** Facts about each record after service. */
  lemma ServedOne(inst: Instance, st: Round, end: int, i: nat)
    requires RoundInv(inst, st) && i < |st.world.progress|
    ensures Servable(inst, st.services) && |st.world.progress| == |inst.requests| && inst.blockSize > 0
    ensures var w := st.world;
            var a := ServeAll(inst, w, st.services, end);
            && a.progress[i].blocks == w.progress[i].blocks
            && Scripted(inst.requests[i], a.progress[i], i in w.released)
            && Continues(w.progress[i].outputs, w.progress[i].completed, a.progress[i].outputs, a.progress[i].completed, end)
            && (i in w.running && a.progress[i].completed.None? ==> Holding(inst, a, i, 0))
            && (i in w.running ==> a.progress[i].computed == w.progress[i].computed + Pledged(st.services, i))
            && (i !in w.running ==> a.progress[i] == w.progress[i])
  {
    hide PoolInv, Ceil, Pledged, ServeAll, Listing, Served;
    ServableRound(inst, st);
    var w := st.world;
    var a := ServeAll(inst, w, st.services, end);
    ServeAllRecords(inst, w, st.services, end);
    assert Scripted(inst.requests[i], w.progress[i], i in w.released);
    if i in w.running {
      assert i in Queue(w);
      ServedHolding(inst, w, a, i, Pledged(st.services, i), st.services, end);
    } else {
      assert Unplanned(st.services, i);
    }
  }

  lemma ServeLeaving(inst: Instance, st: Round, end: int)
    requires RoundInv(inst, st)
    ensures Servable(inst, st.services) && |st.world.progress| == |inst.requests| && inst.blockSize > 0
    ensures var a := ServeAll(inst, st.world, st.services, end);
            && Leaving(inst, a) && AllContinue(st.world, a, end)
            && a.running == st.world.running && a.waiting == st.world.waiting && a.released == st.world.released
            && a.time == st.world.time && a.used == st.world.used
  {
    hide PoolInv, ServeAll, Listing, Holding, Pledged, Continues, Scripted, AllServed;
    ServableRound(inst, st);
    var w := st.world;
    QueuedListing(inst, w);
    var a := ServeAll(inst, w, st.services, end);
    ServeAllRecords(inst, w, st.services, end);
    forall i | 0 <= i < |w.progress|
      ensures a.progress[i].blocks == w.progress[i].blocks && Scripted(inst.requests[i], a.progress[i], i in a.released)
      ensures Continues(w.progress[i].outputs, w.progress[i].completed, a.progress[i].outputs, a.progress[i].completed, end)
      ensures i in w.running && a.progress[i].completed.None? ==> Holding(inst, a, i, 0)
      ensures i !in w.running ==> a.progress[i] == w.progress[i]
      ensures a.progress[i].completed.None? ==> w.progress[i].completed.None?
    {
      ServedOne(inst, st, end, i);
      StillOpen(w.progress[i], a.progress[i], end);
    }
    PoolTables(w, a, inst.capacity);
    ListingFrame(w, a);
    ListingParts(w);
    assert Queue(a) == Queue(w);
    ServedQueue(inst, w, a);
  }

  lemma StillOpen(p: Progress, q: Progress, end: int)
    requires Continues(p.outputs, p.completed, q.outputs, q.completed, end)
    ensures q.completed.None? ==> p.completed.None?
  {}

  lemma ServedQueue(inst: Instance, w: World, a: World)
    requires Queued(inst, w) && Queue(a) == Queue(w) && a.waiting == w.waiting && a.running == w.running && a.released == w.released
    requires |a.progress| == |w.progress|
    requires forall i :: 0 <= i < |w.progress| && a.progress[i].completed.None? ==> w.progress[i].completed.None?
    requires forall i :: 0 <= i < |w.progress| && i !in w.running ==> a.progress[i] == w.progress[i]
    ensures forall i :: 0 <= i < |a.progress| ==>
              && (i in a.released && a.progress[i].completed.None? ==> i in Queue(a))
              && (i in Queue(a) ==> i in a.released) && (i in a.waiting ==> a.progress[i].completed.None?)
  {
    ListingParts(w);
    forall i | 0 <= i < |a.progress| && i in a.waiting ensures a.progress[i].completed.None? {
      assert w.waiting[IndexOf(w.waiting, i)] == Queue(w)[|w.running| + IndexOf(w.waiting, i)];
      assert i in Queue(w);
    }
  }

  // ---------------------------------------------------------------------------------------
  // Completed requests leave

  lemma RemoveFromQueue(running: seq<nat>, waiting: seq<nat>, i: nat)
    requires i in running
    ensures var at := IndexOf(running, i); RemoveAt(running, at) + waiting == RemoveAt(running + waiting, at)
  {}

  lemma FinishLeaving(inst: Instance, w: World, i: nat)
    requires Leaving(inst, w) && i < |w.progress| && i in w.running && w.progress[i].completed.Some?
    ensures Leaving(inst, Finish(w, i))
  {
    hide PoolInv, Holding, Release;
    var r := Finish(w, i);
    var at := IndexOf(w.running, i);
    FinishRecord(w, i);
    ReleaseKeeps(w, inst.capacity, i);
    PoolFrame(Release(w, i), r, inst.capacity);
    RemoveFromQueue(w.running, w.waiting, i);
    assert Queue(w)[at] == i;
    RemoveAtDistinct(Queue(w), at);
    ListingParts(w);
    RemoveAtDistinct(w.running, at);
    forall k | 0 <= k < |Queue(r)| ensures Queue(r)[k] < |r.progress| {
      assert Queue(r)[k] in Queue(r);
      var m := IndexOf(Queue(w), Queue(r)[k]);
    }
    FinishHolding(inst, w, i);
    assert Scripted(inst.requests[i], w.progress[i], i in w.released);
  }

  lemma FinishRecord(w: World, i: nat)
    requires i < |w.progress| && i in w.running
    ensures var r := Finish(w, i);
            && r.progress == w.progress[i := w.progress[i].(blocks := [])] && r.running == RemoveAt(w.running, IndexOf(w.running, i))
            && r.waiting == w.waiting && r.released == w.released && r.time == w.time && r.used == w.used
            && r.identity == w.identity
  {}

  lemma FinishHolding(inst: Instance, w: World, i: nat)
    requires Leaving(inst, w) && i < |w.progress| && i in w.running && w.progress[i].completed.Some?
    ensures var r := Finish(w, i);
            && OthersIdle(r)
            && forall j :: j in r.running && j < |r.progress| && r.progress[j].completed.None? ==> Holding(inst, r, j, 0)
  {
    hide PoolInv, Holding, Release;
    var r := Finish(w, i);
    FinishRecord(w, i);
    ListingParts(w);
    RemoveAtDistinct(w.running, IndexOf(w.running, i));
    forall j | j in r.running && j < |r.progress| && r.progress[j].completed.None? ensures Holding(inst, r, j, 0) {
      HoldingFrame(inst, w, r, j, 0);
    }
  }

  /** What the whole release loop leaves. */
  ghost predicate Left(w: World, r: World) {
    && |r.progress| == |w.progress| && r.waiting == w.waiting && r.released == w.released && r.time == w.time && r.used == w.used
    && (forall i :: 0 <= i < |w.progress| ==> r.progress[i] == w.progress[i].(blocks := r.progress[i].blocks))
    && (forall i :: i in r.running ==> i in w.running)
    && (w.running != [] && w.running[0] < |w.progress| && w.progress[w.running[0]].completed.None? ==>
          r.running != [] && r.running[0] == w.running[0])
  }

  /** Finishing one request. */
  lemma FinishLeft(w: World, i: nat)
    requires i < |w.progress| && i in w.running && w.progress[i].completed.Some? && Distinct(w.running)
    ensures Left(w, Finish(w, i)) && i !in Finish(w, i).running
    ensures Finish(w, i).progress == w.progress[i := w.progress[i].(blocks := [])]
  {
    FinishRecord(w, i);
    var at := IndexOf(w.running, i);
    RemoveAtDistinct(w.running, at);
    hide Finish;
    if w.running[0] != i { assert at > 0 && Finish(w, i).running[0] == w.running[0]; }
  }

  lemma LeftChain(w: World, a: World, r: World)
    requires Left(w, a) && Left(a, r)
    ensures Left(w, r)
  {}

  lemma {:induction false} FinishAllLeaves(inst: Instance, w: World, todo: seq<nat>)
    requires Leaving(inst, w)
    requires forall i :: i in w.running && i < |w.progress| && w.progress[i].completed.Some? ==> i in todo
    ensures var r := FinishAll(w, todo);
            && Leaving(inst, r) && Left(w, r)
            && forall i :: i in r.running && i < |r.progress| ==> r.progress[i].completed.None?
    decreases |todo|
  {
    hide Leaving, Finish, Listing;
    if todo != [] {
      var i := todo[0];
      if i < |w.progress| && w.progress[i].completed.Some? && i in w.running {
        var a := Finish(w, i);
        FinishLeaving(inst, w, i);
        LeavingListing(inst, w);
        FinishLeft(w, i);
        FinishAllLeaves(inst, a, todo[1..]);
        LeftChain(w, a, FinishAll(a, todo[1..]));
      } else {
        FinishAllLeaves(inst, w, todo[1..]);
      }
    }
  }

  lemma LeavingListing(inst: Instance, w: World)
    requires Leaving(inst, w)
    ensures Distinct(w.running) && Below(w.running, |w.progress|)
  {
    ListingParts(w);
  }

  /** With the completed requests gone the world is ready for the next iteration. */
  lemma LeftOpened(inst: Instance, w: World)
    requires Leaving(inst, w) && forall i :: i in w.running && i < |w.progress| ==> w.progress[i].completed.None?
    ensures Opened(inst, w)
  {
    hide PoolInv, Holding;
    ListingParts(w);
    forall i | 0 <= i < |w.progress| && i in Queue(w) ensures w.progress[i].completed.None? {
      assert i in w.running || i in w.waiting;
    }
  }
}
