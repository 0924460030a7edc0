/**
 The exact-search service model (toy_oracle.py): one token per block, full capacity reserved at admission, the
 waiting order chosen by the oracle. States are values, as in the source's frozen dataclasses; a request is
 named by its index and the sorted tuple of blocks is a map from block id.
 */
module ToyModel {
  import opened Common

  datatype Request = Request(prompt: seq<int>, output: seq<int>, arrival: int)

  datatype Instance = Instance(requests: seq<Request>, kvBlocks: int, maxSequences: int, tokenBudget: int,
                               prefillChunk: int, overhead: int, prefillTicks: int, decodeTicks: int,
                               slackPercent: int, epsilon: int)
  {
    /** Instance.validate, for any number of requests. */
    predicate Valid() {
      && |requests| >= 1
      && kvBlocks > 0 && maxSequences > 0 && tokenBudget > 0 && prefillChunk > 0
      && overhead > 0 && prefillTicks > 0 && decodeTicks > 0 && slackPercent >= 0 && epsilon >= 0
      && forall i :: 0 <= i < |requests| ==>
           && requests[i].arrival >= 0 && requests[i].prompt != [] && requests[i].output != []
           && |requests[i].prompt| + |requests[i].output| <= kvBlocks
    }
  }

  datatype Block = Block(identity: Option<seq<int>>, computed: bool, refs: set<nat>, touched: int)

  datatype Progress = Progress(admittedAt: Option<int>, prefillDone: nat, blockIds: seq<nat>, outputTimes: seq<int>,
                               completedAt: Option<int>, cachedTokens: nat)

  datatype State = State(time: int, progress: seq<Progress>, running: seq<nat>, blocks: map<nat, Block>,
                         clock: int, nextId: nat)

  const NotAdmitted := Progress(None, 0, [], [], None, 0)

  function InitialState(inst: Instance): State {
    State(0, seq(|inst.requests|, _ => NotAdmitted), [], map[], 0, 0)
  }

  // ---------------------------------------------------------------------------------------
  // Waiting requests

  /** Arrived and not yet admitted. */
  predicate Waits(inst: Instance, s: State, i: nat)
    requires |s.progress| == |inst.requests|
  {
    i < |inst.requests| && inst.requests[i].arrival <= s.time && s.progress[i].admittedAt.None?
  }

  predicate Finished(s: State) {
    forall i :: 0 <= i < |s.progress| ==> s.progress[i].completedAt.Some?
  }

  /** The action permutes exactly the waiting requests. */
  predicate Legal(inst: Instance, s: State, order: seq<nat>)
    requires |s.progress| == |inst.requests|
  {
    && (forall i, j :: 0 <= i < j < |order| ==> order[i] != order[j])
    && (forall k :: 0 <= k < |order| ==> Waits(inst, s, order[k]))
    && forall i :: 0 <= i < |inst.requests| && Waits(inst, s, i) ==> i in order
  }

  // ---------------------------------------------------------------------------------------
  // Prefix lookup and fit

  predicate IsHit(blocks: map<nat, Block>, identity: seq<int>, b: nat) {
    b in blocks && blocks[b].computed && blocks[b].identity == Some(identity)
  }

  ghost predicate Missing(blocks: map<nat, Block>, identity: seq<int>) {
    forall b :: b in blocks ==> !IsHit(blocks, identity, b)
  }

  /** The computed block of lowest id with this identity. */
  ghost predicate IsLeastHit(blocks: map<nat, Block>, identity: seq<int>, b: nat) {
    IsHit(blocks, identity, b) && forall c :: c in blocks && IsHit(blocks, identity, c) ==> b <= c
  }

  /** prefix_blocks, from prompt length `n` on: one block per prompt prefix, up to the first prefix without one. */
  ghost function Hits(prompt: seq<int>, blocks: map<nat, Block>, n: nat): (hits: seq<nat>)
    requires n <= |prompt|
    ensures |hits| <= |prompt| - n
    ensures forall k :: 0 <= k < |hits| ==> IsLeastHit(blocks, prompt[..n + k + 1], hits[k])
    ensures n + |hits| < |prompt| ==> Missing(blocks, prompt[..n + |hits| + 1])
    decreases |prompt| - n
  {
    if n == |prompt| || Missing(blocks, prompt[..n + 1]) then []
    else
      LeastHitExists(blocks, prompt[..n + 1]);
      var b: nat :| IsLeastHit(blocks, prompt[..n + 1], b);
      var rest := Hits(prompt, blocks, n + 1);
      [b] + rest
  }

  lemma LeastHitExists(blocks: map<nat, Block>, identity: seq<int>)
    requires !Missing(blocks, identity)
    ensures exists b: nat :: IsLeastHit(blocks, identity, b)
  {
    var b :| b in blocks && IsHit(blocks, identity, b);
    LeastHitBelow(blocks, identity, b);
  }

  lemma {:induction false} LeastHitBelow(blocks: map<nat, Block>, identity: seq<int>, b: nat)
    requires IsHit(blocks, identity, b)
    ensures exists c: nat :: IsLeastHit(blocks, identity, c)
    decreases b
  {
    if c: nat :| c < b && IsHit(blocks, identity, c) {
      LeastHitBelow(blocks, identity, c);
    } else {
      assert IsLeastHit(blocks, identity, b);
    }
  }

  /** Blocks some running request refers to. */
  function Active(blocks: map<nat, Block>): set<nat> {
    set b | b in blocks && blocks[b].refs != {}
  }

  /** Blocks that admitting a request with these hits may take: inactive hits are protected from eviction. */
  function Available(kv: int, blocks: map<nat, Block>, hits: seq<nat>): int {
    kv - |Active(blocks)| - |Elements(hits) - Active(blocks)|
  }

  /** New blocks the whole request needs, its output included. */
  function Needed(r: Request, hits: seq<nat>): int {
    |r.prompt| - |hits| + |r.output|
  }

  /** fit_snapshot: both the missing prompt and the output reservation find room. */
  ghost predicate Fits(inst: Instance, i: nat, blocks: map<nat, Block>)
    requires i < |inst.requests|
  {
    var hits := Hits(inst.requests[i].prompt, blocks, 0);
    && |inst.requests[i].prompt| - |hits| <= Available(inst.kvBlocks, blocks, hits)
    && Needed(inst.requests[i], hits) <= Available(inst.kvBlocks, blocks, hits)
  }

  // ---------------------------------------------------------------------------------------
  // The steps of transition

  datatype Service = Service(index: nat, prefill: bool, count: nat)

  /** The local variables of transition. */
  datatype Work = Work(progress: seq<Progress>, running: seq<nat>, blocks: map<nat, Block>, clock: int, nextId: nat,
                       budget: nat, services: seq<Service>)

  /** plan: one service for the request while tokens are left. */
  function Plan(inst: Instance, w: Work, i: nat): Work
    requires inst.Valid() && i < |inst.requests| == |w.progress|
  {
    var left := |inst.requests[i].prompt| - w.progress[i].prefillDone;
    if w.budget == 0 then w
    else if left > 0 then
      var count := Min(Min(inst.prefillChunk, w.budget), left);
      w.(services := w.services + [Service(i, true, count)], budget := w.budget - count)
    else w.(services := w.services + [Service(i, false, 1)], budget := w.budget - 1)
  }

  /** Running requests are served first, in admission order. */
  function PlanAll(inst: Instance, w: Work, todo: seq<nat>): (r: Work)
    requires inst.Valid() && |w.progress| == |inst.requests| && Below(todo, |inst.requests|)
    ensures r == w.(budget := r.budget, services := r.services)
    decreases |todo|
  {
    if todo == [] then w else PlanAll(inst, Plan(inst, w, todo[0]), todo[1..])
  }

  /** Hits get one more reference and are touched in order. */
  function Touch(blocks: map<nat, Block>, hits: seq<nat>, i: nat, clock: int): map<nat, Block> {
    map b | b in blocks ::
      if b in hits then blocks[b].(refs := blocks[b].refs + {i}, touched := clock + 1 + IndexOf(hits, b)) else blocks[b]
  }

  /** The unreferenced block touched least recently, ties by id. */
  predicate IsVictim(blocks: map<nat, Block>, b: nat) {
    && b in blocks && blocks[b].refs == {}
    && forall c | c in blocks && blocks[c].refs == {} ::
         blocks[b].touched < blocks[c].touched || (blocks[b].touched == blocks[c].touched && b <= c)
  }

  ghost predicate HasVictim(blocks: map<nat, Block>) {
    exists b: nat :: IsVictim(blocks, b)
  }

  ghost function Victim(blocks: map<nat, Block>): (b: nat)
    requires HasVictim(blocks)
    ensures IsVictim(blocks, b)
  {
    var b: nat :| IsVictim(blocks, b);
    b
  }

  /** The eviction loop: victims leave until `needed` blocks are free. */
  ghost function Evict(kv: int, blocks: map<nat, Block>, needed: int): (r: map<nat, Block>)
    decreases |blocks|
  {
    if kv - |blocks| >= needed || !HasVictim(blocks) then blocks
    else
      SmallerMap(blocks, Victim(blocks));
      Evict(kv, blocks - {Victim(blocks)}, needed)
  }

  lemma SmallerMap<V>(m: map<nat, V>, b: nat)
    requires b in m
    ensures |m - {b}| == |m| - 1
  {
    assert (m - {b}).Keys == m.Keys - {b};
    assert |(m - {b}).Keys| == |m - {b}| && |m.Keys| == |m|;
  }

  /** Identity of a newly reserved block at position `pos` of the request's table. */
  function NewIdentity(prompt: seq<int>, pos: int): Option<seq<int>> {
    if 0 <= pos < |prompt| then Some(prompt[..pos + 1]) else None
  }

  function FreshIds(nextId: nat, needed: nat): (ids: seq<nat>)
    ensures |ids| == needed && forall k :: 0 <= k < needed ==> ids[k] == nextId + k
  {
    seq(needed, k requires 0 <= k < needed => nextId + k)
  }

  /** The `k`-th block reserved for request `i`, whose table starts with `have` hits. */
  function Reserved(r: Request, i: nat, have: nat, k: int, clock: int): Block {
    Block(NewIdentity(r.prompt, have + k), false, {i}, clock + 1 + k)
  }

  /** `needed` fresh blocks with ids from `nextId` on. */
  function Reserve(blocks: map<nat, Block>, r: Request, i: nat, have: nat, needed: nat, nextId: nat,
                   clock: int): map<nat, Block> {
    map b | b in blocks.Keys + Elements(FreshIds(nextId, needed)) ::
      if b in blocks && !(nextId <= b < nextId + needed) then blocks[b] else Reserved(r, i, have, b - nextId, clock)
  }

  /** Admission of request `i`, whose fit has been checked. */
  ghost function Admit(inst: Instance, time: int, w: Work, i: nat): Work
    requires i < |inst.requests| == |w.progress|
  {
    var r := inst.requests[i];
    var hits := Hits(r.prompt, w.blocks, 0);
    var n, needed: nat := |hits|, Needed(r, hits);
    var blocks := Evict(inst.kvBlocks, Touch(w.blocks, hits, i, w.clock), needed);
    w.(blocks := Reserve(blocks, r, i, n, needed, w.nextId, w.clock + n), clock := w.clock + n + needed,
       nextId := w.nextId + needed, running := w.running + [i],
       progress := w.progress[i := Progress(Some(time), n, hits + FreshIds(w.nextId, needed), [], None, n)])
  }

  /** The admission loop: it stops at the first request that does not fit, or without slot or tokens. */
  ghost function AdmitAll(inst: Instance, time: int, w: Work, order: seq<nat>): (r: Work)
    requires inst.Valid() && |w.progress| == |inst.requests| && Below(order, |inst.requests|)
    decreases |order|
  {
    if order == [] || |w.running| == inst.maxSequences || w.budget == 0 || !Fits(inst, order[0], w.blocks) then w
    else AdmitAll(inst, time, Plan(inst, Admit(inst, time, w, order[0]), order[0]), order[1..])
  }

  /** The planned batch: running requests first, then admissions in the given order. */
  ghost function Batch(inst: Instance, s: State, order: seq<nat>): Work
    requires inst.Valid() && |s.progress| == |inst.requests|
    requires Below(s.running, |inst.requests|) && Below(order, |inst.requests|)
  {
    AdmitAll(inst, s.time,
             PlanAll(inst, Work(s.progress, s.running, s.blocks, s.clock, s.nextId, inst.tokenBudget, []), s.running), order)
  }

  function Cost(inst: Instance, v: Service): int {
    if v.prefill then v.count * inst.prefillTicks else inst.decodeTicks
  }

  /** Largest service cost of the batch. */
  function MaxCost(inst: Instance, services: seq<Service>): (c: int)
    requires services != []
    ensures forall k :: 0 <= k < |services| ==> Cost(inst, services[k]) <= c
    ensures exists k :: 0 <= k < |services| && Cost(inst, services[k]) == c
  {
    if |services| == 1 then
      assert Cost(inst, services[0]) == Cost(inst, services[|services| - 1]);
      Cost(inst, services[0])
    else
      var n := |services| - 1;
      var c := MaxCost(inst, services[..n]);
      assert forall k :: 0 <= k < n ==> services[k] == services[..n][k];
      assert Cost(inst, services[n]) <= Max(c, Cost(inst, services[n]));
      Max(c, Cost(inst, services[n]))
  }

  /** The batch asks only for work the request's table has room for. */
  predicate CanServe(inst: Instance, w: Work, v: Service) {
    && v.index < |inst.requests| == |w.progress|
    && var r, p := inst.requests[v.index], w.progress[v.index];
       && |p.blockIds| == |r.prompt| + |r.output|
       && if v.prefill then p.prefillDone + v.count <= |r.prompt| else |p.outputTimes| < |r.output|
  }

  /** One service of the batch that ends at `end`. */
  function Serve(inst: Instance, w: Work, v: Service, end: int): Work
    requires CanServe(inst, w, v)
  {
    var r, p := inst.requests[v.index], w.progress[v.index];
    if v.prefill then
      var done := p.blockIds[p.prefillDone..p.prefillDone + v.count];
      w.(blocks := map b | b in w.blocks :: if b in done then w.blocks[b].(computed := true) else w.blocks[b],
         progress := w.progress[v.index := p.(prefillDone := p.prefillDone + v.count)])
    else
      var n := |p.outputTimes| + 1;
      var id := p.blockIds[|r.prompt| + n - 1];
      w.(blocks := map b | b in w.blocks ::
           if b == id then w.blocks[b].(computed := true, identity := Some(r.prompt + r.output[..n])) else w.blocks[b],
         progress := w.progress[v.index := p.(outputTimes := p.outputTimes + [end],
                                              completedAt := if n == |r.output| then Some(end) else None)])
  }

  /** The whole batch; the proofs show that every service can be given. */
  function ServeAll(inst: Instance, w: Work, todo: seq<Service>, end: int): Work
    decreases |todo|
  {
    if todo == [] || !CanServe(inst, w, todo[0]) then w else ServeAll(inst, Serve(inst, w, todo[0], end), todo[1..], end)
  }

  /** The last position of `x` in `s`: the last touch of a block wins. */
  function LastIndexOf(s: seq<nat>, x: nat): (i: nat)
    requires x in s
    ensures i < |s| && s[i] == x && x !in s[i + 1..]
  {
    var n := |s| - 1;
    if s[n] == x then n else
      assert s == s[..n] + [s[n]];
      var i := LastIndexOf(s[..n], x);
      assert s[i + 1..] == s[..n][i + 1..] + [s[n]];
      i
  }

  /** Release of a completed request: its references go, its blocks are touched in table order. */
  function Release(w: Work, i: nat): Work
    requires i < |w.progress| && i in w.running
  {
    var ids := w.progress[i].blockIds;
    w.(running := RemoveAt(w.running, IndexOf(w.running, i)), clock := w.clock + |ids|,
       blocks := map b | b in w.blocks ::
         if b in ids then w.blocks[b].(refs := w.blocks[b].refs - {i}, touched := w.clock + 1 + LastIndexOf(ids, b))
         else w.blocks[b])
  }

  /** The release loop over a copy of the running list. */
  function ReleaseAll(w: Work, todo: seq<nat>): Work
    decreases |todo|
  {
    if todo == [] then w
    else if todo[0] < |w.progress| && w.progress[todo[0]].completedAt.Some? && todo[0] in w.running
    then ReleaseAll(Release(w, todo[0]), todo[1..])
    else ReleaseAll(w, todo[1..])
  }

  /** Arrival times still to come for requests not admitted. */
  function Future(inst: Instance, s: State): set<int>
    requires |s.progress| == |inst.requests|
  {
    set i | 0 <= i < |inst.requests| && s.progress[i].admittedAt.None? && inst.requests[i].arrival > s.time
          :: inst.requests[i].arrival
  }

  /** transition: the state after one engine step with this waiting order. */
  ghost function Next(inst: Instance, s: State, order: seq<nat>): State
    requires inst.Valid() && |s.progress| == |inst.requests|
    requires Below(s.running, |inst.requests|) && Below(order, |inst.requests|)
  {
    var w := Batch(inst, s, order);
    if w.services == [] then
      if Future(inst, s) == {} then s else s.(time := Least(Future(inst, s)))
    else
      var end := s.time + inst.overhead + MaxCost(inst, w.services);
      var served := ServeAll(inst, w, w.services, end);
      var freed := ReleaseAll(served, served.running);
      State(end, freed.progress, freed.running, freed.blocks, freed.clock, freed.nextId)
  }
}
