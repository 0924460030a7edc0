/** transition and replay as they run: loops over local variables, equal to the functions they are proved about. */
module ToyStepper {
  import opened Common
  import opened ToyModel
  import opened ToyInvariant
  import opened ToyService
  import opened ToyTransition
  import opened ToyStep
  import opened ToyRuns
  import opened ToyLimits
  import opened ToyOrders

  // ---------------------------------------------------------------------------------------
  // Prefix lookup

  predicate IsFirst(s: set<nat>, b: nat) {
    b in s && forall c | c in s :: b <= c
  }

  lemma {:induction false} FirstExists(s: set<nat>)
    requires s != {}
    ensures exists b :: IsFirst(s, b)
    decreases |s|
  {
    var b :| b in s;
    var rest := s - {b};
    if rest == {} {
      assert s == {b};
      assert IsFirst(s, b);
    } else {
      FirstExists(rest);
      var d :| IsFirst(rest, d);
      assert forall c :: c in s ==> c == b || c in rest;
      assert IsFirst(s, if b < d then b else d);
    }
  }

  /** The dictionary of the lookup: for each identity the first computed block by id, among the blocks gone through. */
  ghost predicate Index(blocks: map<nat, Block>, rest: set<nat>, available: map<seq<int>, nat>) {
    && (forall v :: v in available ==>
          && IsHit(blocks, v, available[v]) && available[v] !in rest
          && forall c :: c in blocks && c !in rest && IsHit(blocks, v, c) ==> available[v] <= c)
    && (forall b :: b in blocks && b !in rest && blocks[b].computed && blocks[b].identity.Some? ==>
          blocks[b].identity.value in available)
    && forall b, c :: b in blocks && b !in rest && c in rest ==> b < c
  }

  lemma IndexHits(blocks: map<nat, Block>, available: map<seq<int>, nat>, v: seq<int>)
    requires Index(blocks, {}, available)
    ensures v in available ==> IsLeastHit(blocks, v, available[v])
    ensures v !in available ==> Missing(blocks, v)
  {}

  /** The dictionary filled from the blocks sorted by id, keeping the first block of each identity. */
  method IndexBlocks(blocks: map<nat, Block>) returns (available: map<seq<int>, nat>)
    ensures Index(blocks, {}, available)
  {
    available := map[];
    var rest := blocks.Keys;
    while rest != {}
      invariant rest <= blocks.Keys && Index(blocks, rest, available)
      decreases |rest|
    {
      FirstExists(rest);
      var b :| b in rest && IsFirst(rest, b);
      ghost var before := available;
      if blocks[b].computed && blocks[b].identity.Some? && blocks[b].identity.value !in available {
        available := available[blocks[b].identity.value := b];
      }
      IndexNext(blocks, rest, before, b);
      rest := rest - {b};
    }
  }

  lemma IndexNext(blocks: map<nat, Block>, rest: set<nat>, available: map<seq<int>, nat>, b: nat)
    requires rest <= blocks.Keys && Index(blocks, rest, available) && IsFirst(rest, b)
    ensures Index(blocks, rest - {b},
                  if blocks[b].computed && blocks[b].identity.Some? && blocks[b].identity.value !in available
                  then available[blocks[b].identity.value := b] else available)
  {}

  /** prefix_blocks. */
  method PrefixBlocks(prompt: seq<int>, blocks: map<nat, Block>) returns (hits: seq<nat>)
    ensures hits == Hits(prompt, blocks, 0)
  {
    hide Index, Hits;
    var available := IndexBlocks(blocks);
    hits := [];
    var end := 1;
    while end <= |prompt| && prompt[..end] in available
      invariant 1 <= end <= |prompt| + 1 && |hits| == end - 1
      invariant hits + Hits(prompt, blocks, end - 1) == Hits(prompt, blocks, 0)
      decreases |prompt| - end
    {
      IndexHits(blocks, available, prompt[..end]);
      HitsNext(prompt, blocks, end - 1, available[prompt[..end]]);
      hits := hits + [available[prompt[..end]]];
      end := end + 1;
    }
    if end <= |prompt| { IndexHits(blocks, available, prompt[..end]); }
    HitsEnd(prompt, blocks, end - 1);
  }

  lemma HitsEnd(prompt: seq<int>, blocks: map<nat, Block>, n: nat)
    requires n <= |prompt| && (n < |prompt| ==> Missing(blocks, prompt[..n + 1]))
    ensures Hits(prompt, blocks, n) == []
  {}

  lemma HitsNext(prompt: seq<int>, blocks: map<nat, Block>, n: nat, b: nat)
    requires n < |prompt| && IsLeastHit(blocks, prompt[..n + 1], b)
    ensures Hits(prompt, blocks, n) == [b] + Hits(prompt, blocks, n + 1)
  {
    var hits := Hits(prompt, blocks, n);
    assert hits != [];
    assert IsLeastHit(blocks, prompt[..n + 0 + 1], hits[0]);
    assert hits[0] <= b && b <= hits[0];
  }

  /** fit_snapshot. */
  method FitSnapshot(inst: Instance, i: nat, blocks: map<nat, Block>) returns (hits: seq<nat>, fits: bool)
    requires i < |inst.requests|
    ensures hits == Hits(inst.requests[i].prompt, blocks, 0) && fits == Fits(inst, i, blocks)
  {
    hits := PrefixBlocks(inst.requests[i].prompt, blocks);
    var active := Active(blocks);
    var protected := Elements(hits) - active;
    var available := inst.kvBlocks - |active| - |protected|;
    var promptNeeded := |inst.requests[i].prompt| - |hits|;
    fits := promptNeeded <= available && promptNeeded + |inst.requests[i].output| <= available;
  }

  // ---------------------------------------------------------------------------------------
  // Admission

  method TouchHits(blocks: map<nat, Block>, hits: seq<nat>, i: nat, clock: int) returns (r: map<nat, Block>, ticked: int)
    requires Distinct(hits) && forall k :: 0 <= k < |hits| ==> hits[k] in blocks
    ensures r == Touch(blocks, hits, i, clock) && ticked == clock + |hits|
  {
    r, ticked := blocks, clock;
    for k := 0 to |hits|
      invariant ticked == clock + k && r.Keys == blocks.Keys
      invariant forall m :: 0 <= m < k ==> r[hits[m]] == blocks[hits[m]].(refs := blocks[hits[m]].refs + {i}, touched := clock + 1 + m)
      invariant forall b :: b in blocks && b !in hits[..k] ==> r[b] == blocks[b]
    {
      ticked := ticked + 1;
      var b := hits[k];
      assert b !in hits[..k];
      r := r[b := r[b].(refs := r[b].refs + {i}, touched := ticked)];
    }
    assert hits[..|hits|] == hits;
    forall b | b in blocks ensures r[b] == Touch(blocks, hits, i, clock)[b] {
      if b in hits { assert hits[IndexOf(hits, b)] == b; }
    }
    assert r == Touch(blocks, hits, i, clock);
  }

  lemma VictimUnique(blocks: map<nat, Block>, b: nat, c: nat)
    requires IsVictim(blocks, b) && IsVictim(blocks, c)
    ensures b == c
  {}

  method EvictUntil(kv: int, blocks: map<nat, Block>, needed: int) returns (r: map<nat, Block>)
    requires needed <= kv - |Active(blocks)|
    ensures r == Evict(kv, blocks, needed)
  {
    r := blocks;
    while kv - |r| < needed
      invariant needed <= kv - |Active(r)| && Evict(kv, r, needed) == Evict(kv, blocks, needed)
      decreases |r|
    {
      VictimExists(r);
      var victim: nat :| victim in r && IsVictim(r, victim);
      VictimUnique(r, victim, Victim(r));
      VictimIdle(r, victim);
      SmallerMap(r, victim);
      r := r - {victim};
    }
  }

  lemma ReserveNext(blocks: map<nat, Block>, r: Request, i: nat, have: nat, k: nat, nextId: nat, clock: int)
    requires IdsBelow(blocks, nextId)
    ensures Reserve(blocks, r, i, have, k + 1, nextId, clock) ==
            Reserve(blocks, r, i, have, k, nextId, clock)[nextId + k := Reserved(r, i, have, k, clock)]
  {
    hide Reserved, Reserve;
    var one, two := Reserve(blocks, r, i, have, k, nextId, clock), Reserve(blocks, r, i, have, k + 1, nextId, clock);
    ReserveBlocks(blocks, r, i, have, k, nextId, clock);
    ReserveBlocks(blocks, r, i, have, k + 1, nextId, clock);
    var both := one[nextId + k := Reserved(r, i, have, k, clock)];
    assert forall b :: b in two <==> b in both;
    assert forall b :: b in two ==> two[b] == both[b];
  }

  lemma ReserveNone(blocks: map<nat, Block>, r: Request, i: nat, have: nat, nextId: nat, clock: int)
    requires IdsBelow(blocks, nextId)
    ensures Reserve(blocks, r, i, have, 0, nextId, clock) == blocks
  {
    ReserveBlocks(blocks, r, i, have, 0, nextId, clock);
  }

  method ReserveFresh(blocks: map<nat, Block>, r: Request, i: nat, hits: seq<nat>, needed: nat, nextId: nat, clock: int)
    returns (after: map<nat, Block>, ids: seq<nat>, following: nat, ticked: int)
    requires IdsBelow(blocks, nextId)
    ensures after == Reserve(blocks, r, i, |hits|, needed, nextId, clock) && ids == hits + FreshIds(nextId, needed)
    ensures following == nextId + needed && ticked == clock + needed
  {
    hide Reserve, FreshIds;
    after, ids, following, ticked := blocks, hits, nextId, clock;
    ReserveNone(blocks, r, i, |hits|, nextId, clock);
    for k := 0 to needed
      invariant after == Reserve(blocks, r, i, |hits|, k, nextId, clock) && ids == hits + FreshIds(nextId, k)
      invariant following == nextId + k && ticked == clock + k
    {
      var position := |ids|;
      var identity := if position < |r.prompt| then Some(r.prompt[..position + 1]) else None;
      ticked := ticked + 1;
      ReserveNext(blocks, r, i, |hits|, k, nextId, clock);
      assert hits + FreshIds(nextId, k + 1) == hits + FreshIds(nextId, k) + [nextId + k];
      after := after[following := Block(identity, false, {i}, ticked)];
      ids := ids + [following];
      following := following + 1;
    }
  }

  /** One admission: hits referenced, room made, the rest reserved. */
  method AdmitRequest(inst: Instance, time: int, w: Work, i: nat, hits: seq<nat>) returns (r: Work)
    requires i < |inst.requests| == |w.progress| && IdsBelow(w.blocks, w.nextId)
    requires hits == Hits(inst.requests[i].prompt, w.blocks, 0) && Fits(inst, i, w.blocks)
    ensures r == Admit(inst, time, w, i)
  {
    hide Hits, Active, Touch, Reserve, Fits, Evict;
    var request := inst.requests[i];
    var needed := Needed(request, hits);
    RoomFor(inst, w.blocks, i, w.clock);
    HitsDistinct(request.prompt, w.blocks);
    var touched, clock := TouchHits(w.blocks, hits, i, w.clock);
    var kept := EvictUntil(inst.kvBlocks, touched, needed);
    KeptIds(inst.kvBlocks, w.blocks, hits, i, w.clock, needed, w.nextId);
    var blocks, ids, nextId, ticked := ReserveFresh(kept, request, i, hits, needed, w.nextId, clock);
    r := w.(blocks := blocks, clock := ticked, nextId := nextId, running := w.running + [i],
            progress := w.progress[i := Progress(Some(time), |hits|, ids, [], None, |hits|)]);
  }

  lemma KeptIds(kv: int, blocks: map<nat, Block>, hits: seq<nat>, i: nat, clock: int, needed: int, nextId: nat)
    requires IdsBelow(blocks, nextId)
    ensures IdsBelow(Evict(kv, Touch(blocks, hits, i, clock), needed), nextId)
  {
    hide Evict;
    EvictKeeps(kv, Touch(blocks, hits, i, clock), needed);
    TouchedIds(blocks, hits, i, clock);
  }

  /** The two planning loops: running requests, then admissions until one does not fit. */
  method PlanBatch(inst: Instance, s: State, order: seq<nat>) returns (w: Work)
    requires StateInv(inst, s) && Legal(inst, s, order)
    ensures Below(s.running, |inst.requests|) && Below(order, |inst.requests|)
    ensures w == Batch(inst, s, order)
  {
    hide Core, Fits, Hits, Admit, Plan;
    StateScripts(inst, s);
    OpenedReady(inst, s);
    OpenedIds(inst, s);
    w := Opened(inst, s);
    for k := 0 to |s.running|
      invariant w == Opened(inst, s).(budget := w.budget, services := w.services)
      invariant PlanAll(inst, w, s.running[k..]) == PlanAll(inst, Opened(inst, s), s.running)
    {
      assert s.running[k..][0] == s.running[k] && s.running[k..][1..] == s.running[k + 1..];
      PlanFrame(inst, w, s.running[k]);
      w := Plan(inst, w, s.running[k]);
    }
    assert s.running[|s.running|..] == [];
    ghost var planned := w;
    var k := 0;
    while k < |order|
      invariant 0 <= k <= |order| && |w.progress| == |inst.requests| && IdsBelow(w.blocks, w.nextId)
      invariant AdmitAll(inst, s.time, w, order[k..]) == AdmitAll(inst, s.time, planned, order)
      decreases |order| - k
    {
      if |w.running| == inst.maxSequences || w.budget == 0 { return; }
      assert order[k..][0] == order[k] && order[k..][1..] == order[k + 1..];
      var hits, fits := FitSnapshot(inst, order[k], w.blocks);
      if !fits { return; }
      AdmitFrame(inst, s.time, w, order[k]);
      var admitted := AdmitRequest(inst, s.time, w, order[k], hits);
      PlanFrame(inst, admitted, order[k]);
      w := Plan(inst, admitted, order[k]);
      k := k + 1;
    }
    assert order[k..] == [];
  }

  lemma OpenedIds(inst: Instance, s: State)
    requires StateInv(inst, s)
    ensures IdsBelow(s.blocks, s.nextId)
  {}

  lemma PlanFrame(inst: Instance, w: Work, i: nat)
    requires inst.Valid() && i < |inst.requests| == |w.progress|
    ensures var r := Plan(inst, w, i); r == w.(budget := r.budget, services := r.services)
  {}

  lemma AdmitFrame(inst: Instance, time: int, w: Work, i: nat)
    requires inst.Valid() && i < |inst.requests| == |w.progress| && IdsBelow(w.blocks, w.nextId) && Fits(inst, i, w.blocks)
    ensures var r := Admit(inst, time, w, i); |r.progress| == |w.progress| && IdsBelow(r.blocks, r.nextId)
  {
    hide Hits, Evict, Reserve, Touch, Fits;
    AdmitBlocks(inst, time, w, i);
    AdmitIds(w.blocks, Admit(inst, time, w, i).blocks, inst.requests[i], i, w.nextId);
  }

  // ---------------------------------------------------------------------------------------
  // Service and release

  /** Every block of the tables of running requests exists. */
  lemma TableBlocks(inst: Instance, w: Work, i: nat)
    requires Core(inst, w) && i in w.running
    ensures i < |w.progress| && Distinct(w.progress[i].blockIds)
    ensures forall pos :: 0 <= pos < |w.progress[i].blockIds| ==> w.progress[i].blockIds[pos] in w.blocks
  {
    var k := IndexOf(w.running, i);
    assert w.progress[w.running[k]].admittedAt.Some?;
    assert Scripted(inst.requests[i], w.progress[i]);
    assert Holds(inst.requests[w.running[k]], w.running[k], w.progress[w.running[k]], w.blocks);
  }

  method ServeOne(inst: Instance, w: Work, v: Service, end: int) returns (r: Work)
    requires CanServe(inst, w, v)
    requires var ids := w.progress[v.index].blockIds; forall pos :: 0 <= pos < |ids| ==> ids[pos] in w.blocks
    ensures r == Serve(inst, w, v, end)
  {
    var request, p := inst.requests[v.index], w.progress[v.index];
    var blocks := w.blocks;
    if v.prefill {
      ghost var done := p.blockIds[p.prefillDone..p.prefillDone + v.count];
      for pos := p.prefillDone to p.prefillDone + v.count
        invariant blocks.Keys == w.blocks.Keys
        invariant forall b :: b in w.blocks ==>
          blocks[b] == if b in done[..pos - p.prefillDone] then w.blocks[b].(computed := true) else w.blocks[b]
      {
        assert done[..pos + 1 - p.prefillDone] == done[..pos - p.prefillDone] + [p.blockIds[pos]];
        blocks := blocks[p.blockIds[pos] := blocks[p.blockIds[pos]].(computed := true)];
      }
      assert done[..v.count] == done;
      r := w.(blocks := blocks, progress := w.progress[v.index := p.(prefillDone := p.prefillDone + v.count)]);
      assert r.blocks == Serve(inst, w, v, end).blocks;
    } else {
      var n := |p.outputTimes| + 1;
      var b := p.blockIds[|request.prompt| + n - 1];
      blocks := blocks[b := blocks[b].(computed := true, identity := Some(request.prompt + request.output[..n]))];
      var completed := if n == |request.output| then Some(end) else None;
      r := w.(blocks := blocks,
              progress := w.progress[v.index := p.(outputTimes := p.outputTimes + [end], completedAt := completed)]);
      assert r.blocks == Serve(inst, w, v, end).blocks;
    }
  }

  method ServeBatch(inst: Instance, w: Work, end: int) returns (r: Work)
    requires Core(inst, w) && AllDue(inst, w, w.services)
    ensures r == ServeAll(inst, w, w.services, end)
  {
    hide Core, Serve, AllDue, CanServe;
    r := w;
    for k := 0 to |w.services|
      invariant Core(inst, r) && AllDue(inst, r, w.services[k..])
      invariant ServeAll(inst, r, w.services[k..], end) == ServeAll(inst, w, w.services, end)
    {
      var todo := w.services[k..];
      assert todo[0] == w.services[k] && todo[1..] == w.services[k + 1..];
      ServeNext(inst, r, todo, end);
      DueRuns(inst, r, todo);
      TableBlocks(inst, r, todo[0].index);
      r := ServeOne(inst, r, w.services[k], end);
    }
    assert w.services[|w.services|..] == [];
  }

  lemma DueRuns(inst: Instance, w: Work, todo: seq<Service>)
    requires AllDue(inst, w, todo) && todo != []
    ensures todo[0].index in w.running
  {}

  method ReleaseOne(w: Work, i: nat) returns (r: Work)
    requires i < |w.progress| && i in w.running && Distinct(w.progress[i].blockIds)
    requires var ids := w.progress[i].blockIds; forall pos :: 0 <= pos < |ids| ==> ids[pos] in w.blocks
    ensures r == Release(w, i)
  {
    var ids := w.progress[i].blockIds;
    var blocks, clock := w.blocks, w.clock;
    for k := 0 to |ids|
      invariant clock == w.clock + k && blocks.Keys == w.blocks.Keys
      invariant forall m :: 0 <= m < k ==>
        blocks[ids[m]] == w.blocks[ids[m]].(refs := w.blocks[ids[m]].refs - {i}, touched := w.clock + 1 + m)
      invariant forall b :: b in w.blocks && b !in ids[..k] ==> blocks[b] == w.blocks[b]
    {
      clock := clock + 1;
      var b := ids[k];
      assert b !in ids[..k];
      blocks := blocks[b := blocks[b].(refs := blocks[b].refs - {i}, touched := clock)];
    }
    assert ids[..|ids|] == ids;
    ReleasedBlocks(w, i, blocks);
    r := w.(running := RemoveAt(w.running, IndexOf(w.running, i)), clock := clock, blocks := blocks);
  }

  lemma ReleasedBlocks(w: Work, i: nat, blocks: map<nat, Block>)
    requires i < |w.progress| && i in w.running && blocks.Keys == w.blocks.Keys
    requires var ids := w.progress[i].blockIds;
             && (forall m :: 0 <= m < |ids| ==>
                   && ids[m] in w.blocks
                   && blocks[ids[m]] == w.blocks[ids[m]].(refs := w.blocks[ids[m]].refs - {i}, touched := w.clock + 1 + m))
             && forall b :: b in w.blocks && b !in ids ==> blocks[b] == w.blocks[b]
    ensures blocks == Release(w, i).blocks
  {
    var ids := w.progress[i].blockIds;
    forall b | b in w.blocks ensures blocks[b] == Release(w, i).blocks[b] {
      if b in ids { assert ids[LastIndexOf(ids, b)] == b; }
    }
  }

  /** The release loop over a copy of the running list. */
  method ReleaseFinished(inst: Instance, w: Work) returns (r: Work)
    requires inst.Valid() && Core(inst, w)
    ensures r == ReleaseAll(w, w.running)
  {
    hide Core, Release, ReleaseAll, Distinct, RemoveAt, IndexOf;
    CoreSizes(inst, w);
    CoreDistinct(inst, w);
    r := w;
    var copy := w.running;
    for k := 0 to |copy|
      invariant Core(inst, r) && r.progress == w.progress
      invariant forall m :: k <= m < |copy| ==> copy[m] in r.running
      invariant ReleaseAll(r, copy[k..]) == ReleaseAll(w, w.running)
    {
      assert copy[k..] == [copy[k]] + copy[k + 1..];
      ReleaseTurn(r, copy[k], copy[k + 1..]);
      if r.progress[copy[k]].completedAt.Some? {
        ReleaseCore(inst, r, copy[k]);
        TableBlocks(inst, r, copy[k]);
        ReleaseOthers(inst, r, copy[k]);
        OtherPlaces(copy, k);
        r := ReleaseOne(r, copy[k]);
      }
    }
    assert copy[|copy|..] == [];
    ReleaseNone(r);
  }

  lemma ReleaseNone(w: Work)
    ensures ReleaseAll(w, []) == w
  {}

  lemma ReleaseTurn(w: Work, i: nat, rest: seq<nat>)
    requires i < |w.progress| && i in w.running
    ensures ReleaseAll(w, [i] + rest) ==
            ReleaseAll(if w.progress[i].completedAt.Some? then Release(w, i) else w, rest)
  {
    hide Release;
    assert ([i] + rest)[1..] == rest;
  }

  lemma OtherPlaces(copy: seq<nat>, k: nat)
    requires Distinct(copy) && k < |copy|
    ensures forall m :: k < m < |copy| ==> copy[m] != copy[k]
  {}

  /** Releasing one request takes only that one off the running list. */
  lemma ReleaseOthers(inst: Instance, w: Work, i: nat)
    requires Core(inst, w) && i < |w.progress| && i in w.running
    ensures Release(w, i).progress == w.progress && forall x :: x in w.running && x != i ==> x in Release(w, i).running
  {
    hide Core, Release;
    CoreDistinct(inst, w);
    RemoveAtDistinct(w.running, IndexOf(w.running, i));
    ReleaseRuns(w, i);
  }

  lemma CoreDistinct(inst: Instance, w: Work)
    requires Core(inst, w)
    ensures Distinct(w.running)
  {}

  lemma ReleaseRuns(w: Work, i: nat)
    requires i < |w.progress| && i in w.running
    ensures var r := Release(w, i); r.progress == w.progress && r.running == RemoveAt(w.running, IndexOf(w.running, i))
  {}

  // ---------------------------------------------------------------------------------------
  // transition

  /** A step, or one of the two refusals: not a permutation of the waiting requests, or nothing left to do. */
  datatype Outcome = NotWaitingOrder | AlreadyFinished | Stepped(state: State)

  method LeastArrival(inst: Instance, s: State) returns (t: int)
    requires |s.progress| == |inst.requests| && Future(inst, s) != {}
    ensures t == Least(Future(inst, s))
  {
    var future := Future(inst, s);
    LeastExists(future);
    t :| t in future && IsLeast(future, t);
  }

  /** max over the services of the batch. */
  method LargestCost(inst: Instance, services: seq<Service>) returns (c: int)
    requires services != []
    ensures c == MaxCost(inst, services)
  {
    c := Cost(inst, services[0]);
    for k := 1 to |services|
      invariant c == MaxCost(inst, services[..k])
    {
      assert services[..k + 1][..k] == services[..k];
      c := Max(c, Cost(inst, services[k]));
    }
    assert services[..|services|] == services;
  }

  /** The step itself: an idle jump, or a batch served and its finished requests released. */
  method Advance(inst: Instance, s: State, order: seq<nat>) returns (t: State)
    requires StateInv(inst, s) && Legal(inst, s, order) && !Finished(s)
    ensures Below(s.running, |inst.requests|) && Below(order, |inst.requests|) && |s.progress| == |inst.requests|
    ensures t == Next(inst, s, order)
  {
    hide Core, Batch, ServeAll, ReleaseAll, Future, AllDue, Planned, AllTimed, NoneComplete, AllEntered, AllAdvanced,
         Legal, Finished;
    StateScripts(inst, s);
    NeverStuck(inst, s, order);
    BatchServes(inst, s, order);
    var w := PlanBatch(inst, s, order);
    if w.services == [] {
      var time := LeastArrival(inst, s);
      return s.(time := time);
    }
    DueCounts(inst, w);
    var cost := LargestCost(inst, w.services);
    var end := s.time + inst.overhead + cost;
    var served := ServeBatch(inst, w, end);
    ServeAllKeeps(inst, w, w.services, end);
    var freed := ReleaseFinished(inst, served);
    t := State(end, freed.progress, freed.running, freed.blocks, freed.clock, freed.nextId);
  }

  method Transition(inst: Instance, s: State, order: seq<nat>) returns (r: Outcome)
    requires StateInv(inst, s)
    ensures |s.progress| == |inst.requests| && Below(s.running, |inst.requests|)
    ensures r.NotWaitingOrder? <==> !Legal(inst, s, order)
    ensures r.AlreadyFinished? <==> Legal(inst, s, order) && Finished(s)
    ensures r.Stepped? ==>
              && Below(order, |inst.requests|) && r.state == Next(inst, s, order)
              && StateInv(inst, r.state) && CheckState(inst, r.state)
  {
    hide Core, CheckState, AllTimed, NoneComplete, Next, Legal, Finished, Eligible;
    StateScripts(inst, s);
    OpenedReady(inst, s);
    var waiting := Eligible(inst, s);
    LegalByCount(inst, s, order);
    if |order| != |waiting| || Elements(order) != Elements(waiting) { return NotWaitingOrder; }
    if Finished(s) { return AlreadyFinished; }
    var t := Advance(inst, s, order);
    StepInv(inst, s, order);
    InvChecks(inst, t);
    r := Stepped(t);
  }

  // ---------------------------------------------------------------------------------------
  // replay

  /** Every action is the waiting list as it stands: first come, first served. */
  ghost predicate Stock(inst: Instance, s: State, actions: seq<seq<nat>>)
    requires StateInv(inst, s) && LegalRun(inst, s, actions)
    decreases |actions|
  {
    actions == [] ||
    (actions[0] == Eligible(inst, s) && (StepInv(inst, s, actions[0]); Stock(inst, Next(inst, s, actions[0]), actions[1..])))
  }

  lemma {:induction false} StockAppend(inst: Instance, s: State, path: seq<seq<nat>>)
    requires StateInv(inst, s) && LegalRun(inst, s, path) && Stock(inst, s, path)
    requires var t := Run(inst, s, path); |t.progress| == |inst.requests| && !Finished(t)
    ensures var order := Eligible(inst, Run(inst, s, path));
            LegalRun(inst, s, path + [order]) && Stock(inst, s, path + [order])
    decreases |path|
  {
    hide StateInv, Finished, Legal, Next, Eligible;
    var order := Eligible(inst, Run(inst, s, path));
    EligibleLegal(inst, Run(inst, s, path));
    RunAppend(inst, s, path, order);
    var all := path + [order];
    StateScripts(inst, s);
    if path == [] {
      assert all == [order] && all[1..] == [];
      StepInv(inst, s, order);
    } else {
      StepInv(inst, s, path[0]);
      StockAppend(inst, Next(inst, s, path[0]), path[1..]);
      assert all[0] == path[0] && all[1..] == path[1..] + [order];
    }
  }

  /** A legal run is legal up to each of its actions, and not finished before it. */
  lemma {:induction false} LegalPrefix(inst: Instance, s: State, path: seq<seq<nat>>, k: nat)
    requires StateInv(inst, s) && LegalRun(inst, s, path) && k < |path|
    ensures LegalRun(inst, s, path[..k])
    ensures var t := Run(inst, s, path[..k]); !Finished(t) && |t.progress| == |inst.requests| && Legal(inst, t, path[k])
    decreases |path|
  {
    hide StateInv, Finished, Legal, Next;
    if k == 0 {
      assert path[..0] == [];
    } else {
      StateScripts(inst, s);
      StepInv(inst, s, path[0]);
      LegalPrefix(inst, Next(inst, s, path[0]), path[1..], k - 1);
      assert path[..k][1..] == path[1..][..k - 1];
    }
  }

  /** The script is a legal run to the end. */
  ghost predicate Completes(inst: Instance, script: seq<seq<nat>>)
    requires StateInv(inst, InitialState(inst))
  {
    LegalRun(inst, InitialState(inst), script) && Finished(Run(inst, InitialState(inst), script))
  }

  lemma StartRun(inst: Instance)
    requires StateInv(inst, InitialState(inst))
    ensures LegalRun(inst, InitialState(inst), []) && Run(inst, InitialState(inst), []) == InitialState(inst)
    ensures Stock(inst, InitialState(inst), [])
  {}

  /** A script goes wrong where an action is not legal, or where it goes on after the end. */
  lemma GoesWrong(inst: Instance, script: seq<seq<nat>>, k: nat)
    requires StateInv(inst, InitialState(inst)) && k < |script| && LegalRun(inst, InitialState(inst), script[..k])
    requires var t := Run(inst, InitialState(inst), script[..k]);
             |t.progress| == |inst.requests| ==> Finished(t) || !Legal(inst, t, script[k])
    ensures !Completes(inst, script)
  {
    hide StateInv, Finished, Legal, Next, LegalRun, Run;
    if Completes(inst, script) { LegalPrefix(inst, InitialState(inst), script, k); }
  }

  /** replay: the scripted actions, or first come first served. A script fails unless it is a legal run to the end. */
  method Replay(inst: Instance, script: Option<seq<seq<nat>>>) returns (r: Option<State>, actions: seq<seq<nat>>)
    requires inst.Valid()
    ensures StateInv(inst, InitialState(inst)) && LegalRun(inst, InitialState(inst), actions)
    ensures r.Some? ==> r.value == Run(inst, InitialState(inst), actions) && Finished(r.value)
    ensures script.None? ==> r.Some? && Stock(inst, InitialState(inst), actions)
    ensures script.Some? ==> (r.Some? <==> Completes(inst, script.value))
    ensures script.Some? ==> actions <= script.value && (r.Some? ==> actions == script.value)
  {
    hide StateInv, Finished, Legal, Next, LegalRun, Run, Stock, Eligible;
    InitialInv(inst);
    StartRun(inst);
    var s0 := InitialState(inst);
    var s := s0;
    actions := [];
    var limit := TokensUpTo(inst, |inst.requests|) + |inst.requests|;
    StateScripts(inst, s0);
    while !Finished(s)
      invariant StateInv(inst, s) && |s.progress| == |inst.requests|
      invariant LegalRun(inst, s0, actions) && Run(inst, s0, actions) == s
      invariant script.Some? ==> actions <= script.value
      invariant script.None? ==> Stock(inst, s0, actions)
      decreases limit - |actions|
    {
      ReplayBound(inst, actions);
      assert |actions| < limit;
      if script.Some? && |actions| == |script.value| {
        assert script.value == actions;
        return None, actions;
      }
      assert script.Some? ==> script.value[..|actions|] == actions;
      var action := if script.None? then Eligible(inst, s) else script.value[|actions|];
      EligibleLegal(inst, s);
      var step := Transition(inst, s, action);
      if !step.Stepped? {
        GoesWrong(inst, script.value, |actions|);
        return None, actions;
      }
      if script.None? { StockAppend(inst, s0, actions); }
      RunAppend(inst, s0, actions, action);
      s, actions := step.state, actions + [action];
      ReplayBound(inst, actions);
      StateScripts(inst, s);
    }
    if script.Some? && |actions| != |script.value| {
      assert script.value[..|actions|] == actions;
      GoesWrong(inst, script.value, |actions|);
      return None, actions;
    }
    assert script.Some? ==> script.value == actions;
    r := Some(s);
  }
}
