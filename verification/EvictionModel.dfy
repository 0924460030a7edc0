/**
 The eviction-only search model (eviction_oracle.py): first come first served, running-first chunked prefill, blocks
 allocated as they are needed, the tail preempted under pressure; the oracle controls which cached blocks are evicted.
 The mutable state of `replay` is one value here; the class that runs it is proved equal to these functions.
 */
module EvictionModel {
  import opened Common
  import opened OrderedChoices
  import opened Division
  import opened OutputGaps

  datatype Request = Request(arrival: int, input: nat, output: nat, hashes: seq<int>)

  /** What the calibrated cost of a batch depends on: kind, tokens and context of each service. */
  type Signature = seq<(bool, int, nat)>

  datatype Instance = Instance(requests: seq<Request>, capacity: nat, blockSize: int, maxSequences: int, tokenBudget: int,
                               prefillChunk: int, overhead: int, prefillCost: int, decodeCost: int, slackPercent: int,
                               epsilon: int, initialCache: seq<Option<seq<int>>>, initialFree: seq<nat>,
                               costTable: Option<map<Signature, int>>)
  {
    /** Instance.validate, for any number of requests. */
    predicate Valid() {
      && |requests| >= 1 && capacity > 0 && blockSize > 0 && maxSequences > 0 && tokenBudget > 0 && prefillChunk > 0
      && overhead > 0 && prefillCost > 0 && decodeCost > 0 && slackPercent >= 0 && epsilon >= 0
      && (forall i :: 0 <= i < |requests| ==>
            && requests[i].arrival >= 0 && requests[i].input > 0 && requests[i].output > 0
            && |requests[i].hashes| == Ceil(requests[i].input, blockSize)
            && Ceil(requests[i].input + requests[i].output - 1, blockSize) <= capacity)
      && (initialCache == [] || |initialCache| == capacity)
      && (initialFree == [] ||
          (|initialFree| == capacity && Elements(initialFree) == Elements(Range(capacity))))
      && (costTable.Some? ==> forall s :: s in costTable.value ==> costTable.value[s] > 0)
    }
  }

  datatype Progress = Progress(computed: nat, blocks: seq<nat>, outputs: seq<int>, completed: Option<int>,
                               cachedTokens: nat, preemptions: nat)

  datatype Service = Service(index: nat, prefill: bool, tokens: int, context: nat)

  /** The variables of replay; `used` holds the victim actions so far, its length is the action index. */
  datatype World = World(identity: seq<Option<seq<int>>>, refs: seq<int>, free: seq<nat>, progress: seq<Progress>,
                         running: seq<nat>, waiting: seq<nat>, released: set<nat>, time: int, used: seq<seq<nat>>)

  datatype Failure = IllegalVictims | Unfit | NoProgress | ZeroService | NoFuture | Deadline | MissingCost | UnusedActions | StepBound

  /** A value, a victim choice the script does not decide, or a failure. */
  datatype Result<T> = Ok(value: T) | Choose(candidates: seq<nat>, count: nat) | Fails(why: Failure)

  const Untouched := Progress(0, [], [], None, 0, 0)

  function Start(inst: Instance): World {
    World(if inst.initialCache == [] then seq(inst.capacity, _ => None) else inst.initialCache,
          seq(inst.capacity, _ => 0),
          if inst.initialFree == [] then Range(inst.capacity) else inst.initialFree,
          seq(|inst.requests|, _ => Untouched), [], [], {}, 0, [])
  }

  /** range(n). */
  function Range(n: nat): (r: seq<nat>)
    ensures |r| == n && forall k :: 0 <= k < n ==> r[k] == k
  {
    seq(n, k requires 0 <= k < n => k)
  }

  // ---------------------------------------------------------------------------------------
  // Lists

  /** The members of `s` that are in `which`, in order. */
  function Keep(s: seq<nat>, which: set<nat>): (r: seq<nat>)
    ensures |r| <= |s| && forall x :: x in r <==> x in s && x in which
  {
    if s == [] then []
    else
      assert s == [s[0]] + s[1..];
      (if s[0] in which then [s[0]] else []) + Keep(s[1..], which)
  }

  function Without(s: seq<nat>, gone: seq<nat>): seq<nat> {
    Keep(s, Elements(s) - Elements(gone))
  }

  function Reverse(s: seq<nat>): (r: seq<nat>)
    ensures |r| == |s| && forall x :: x in r <==> x in s
  {
    if s == [] then []
    else
      assert s == [s[0]] + s[1..];
      Reverse(s[1..]) + [s[0]]
  }

  // ---------------------------------------------------------------------------------------
  // Blocks

  /** Planning moves blocks and computed tokens, never outputs, completions, releases or the clock. */
  ghost predicate SameScript(w: World, r: World) {
    && |r.progress| == |w.progress| && r.released == w.released && r.time == w.time
    && forall i :: 0 <= i < |w.progress| ==>
         r.progress[i].outputs == w.progress[i].outputs && r.progress[i].completed == w.progress[i].completed
  }

  function CachedBlocks(identity: seq<Option<seq<int>>>): set<nat> {
    set b: nat | 0 <= b < |identity| && identity[b].Some?
  }

  function IdleBlocks(refs: seq<int>): set<nat> {
    set b: nat | 0 <= b < |refs| && refs[b] == 0
  }

  /** One reference more or less on each of `blocks`. */
  function Shift(refs: seq<int>, blocks: seq<nat>, step: int): (r: seq<int>)
    ensures |r| == |refs| && forall b :: 0 <= b < |refs| ==> r[b] == refs[b] + (if b in blocks then step else 0)
  {
    seq(|refs|, b requires 0 <= b < |refs| => refs[b] + (if b in blocks then step else 0))
  }

  /** release: blocks left idle go back to `free`, uncached ones to the front, cached ones to the end, last block first. */
  function Release(w: World, i: nat): World
    requires i < |w.progress|
  {
    var ids := Reverse(w.progress[i].blocks);
    var refs := Shift(w.refs, w.progress[i].blocks, -1);
    var idle := Keep(ids, IdleBlocks(refs));
    var cached := CachedBlocks(w.identity);
    w.(refs := refs, free := Without(idle, Keep(idle, cached)) + w.free + Keep(idle, cached),
       progress := w.progress[i := w.progress[i].(blocks := [])])
  }

  predicate LegalVictims(selected: seq<nat>, candidates: seq<nat>, count: nat) {
    |selected| == count && |Elements(selected)| == count && Elements(selected) <= Elements(candidates)
  }

  /** The stock blocks, each cached one replaced by the next victim. */
  function Mix(stock: seq<nat>, cached: set<nat>, victims: seq<nat>): seq<nat>
    requires |Keep(stock, cached)| == |victims|
    decreases |stock|
  {
    if stock == [] then []
    else if stock[0] in cached then [victims[0]] + Mix(stock[1..], cached, victims[1..])
    else [stock[0]] + Mix(stock[1..], cached, victims)
  }

  /** Blocks leave `free` for request `i`, losing their identity. */
  function Take(w: World, i: nat, blocks: seq<nat>): World
    requires i < |w.progress|
  {
    w.(free := Without(w.free, blocks),
       identity := seq(|w.identity|, b requires 0 <= b < |w.identity| => if b in blocks then None else w.identity[b]),
       refs := seq(|w.refs|, b requires 0 <= b < |w.refs| => if b in blocks then 1 else w.refs[b]),
       progress := w.progress[i := w.progress[i].(blocks := w.progress[i].blocks + blocks)])
  }

  /** allocate: `count` blocks from the front of `free`; which cached blocks go is a choice when there is more than one. */
  function Allocate(w: World, i: nat, count: int, script: Option<seq<seq<nat>>>): (r: Result<World>)
    requires i < |w.progress|
    ensures r.Ok? ==> |r.value.progress| == |w.progress| && r.value.running == w.running && r.value.waiting == w.waiting
    ensures r.Ok? ==> SameScript(w, r.value)
  {
    if count == 0 then Ok(w)
    else if count < 0 || count > |w.free| then Fails(Unfit)
    else
      var cached := CachedBlocks(w.identity);
      var stock := w.free[..count];
      var candidates := Keep(w.free, cached);
      var victims := Keep(stock, cached);
      if Choices(|candidates|, |victims|) <= 1 then Ok(Take(w, i, Mix(stock, cached, victims)))
      else if script.None? then Ok(Take(w.(used := w.used + [victims]), i, Mix(stock, cached, victims)))
      else if |w.used| >= |script.value| then Choose(candidates, |victims|)
      else
        var selected := script.value[|w.used|];
        if !LegalVictims(selected, candidates, |victims|) then Fails(IllegalVictims)
        else Ok(Take(w.(used := w.used + [selected]), i, Mix(stock, cached, selected)))
  }

  /** The first block with this identity. */
  function Find(identity: seq<Option<seq<int>>>, key: seq<int>): (r: Option<nat>)
    ensures r.Some? ==> r.value < |identity| && identity[r.value] == Some(key)
    ensures r.Some? ==> Some(key) !in identity[..r.value]
    ensures r.None? ==> Some(key) !in identity
  {
    if Some(key) in identity then Some(IndexOf(identity, Some(key))) else None
  }

  /** hashes[:n]. */
  function Lead(hashes: seq<int>, n: nat): seq<int> {
    if n <= |hashes| then hashes[..n] else hashes
  }

  /** hits: leading full blocks found, short of the block that holds the last prompt token. */
  function Hits(size: int, r: Request, identity: seq<Option<seq<int>>>, pos: nat): (hits: seq<nat>)
    requires size > 0
    decreases r.input - pos
  {
    if pos >= r.input || pos >= (r.input - 1) / size then []
    else
      var found := Find(identity, Lead(r.hashes, pos + 1));
      if found.None? then [] else [found.value] + Hits(size, r, identity, pos + 1)
  }

  // ---------------------------------------------------------------------------------------
  // One iteration

  /** The variables of one iteration. */
  datatype Round = Round(world: World, budget: int, services: seq<Service>, preempted: bool)

  function Target(inst: Instance, w: World, i: nat): int
    requires i < |inst.requests| && i < |w.progress|
  {
    inst.requests[i].input + |w.progress[i].outputs|
  }

  /** Running requests, then waiting ones: the order of service. */
  function Queue(w: World): seq<nat> {
    w.running + w.waiting
  }

  /** The queue names requests, none twice. */
  ghost predicate Listing(w: World) {
    Below(Queue(w), |w.progress|) && Distinct(Queue(w))
  }

  lemma ListingParts(w: World)
    requires Listing(w)
    ensures Below(w.running, |w.progress|) && Below(w.waiting, |w.progress|) && Distinct(w.running) && Distinct(w.waiting)
    ensures forall i :: i in w.running ==> i !in w.waiting
  {
    forall k | 0 <= k < |w.running| ensures Queue(w)[k] == w.running[k] {}
    forall k | 0 <= k < |w.waiting| ensures Queue(w)[|w.running| + k] == w.waiting[k] {}
    forall i, k | 0 <= i < |w.running| && 0 <= k < |w.waiting| ensures w.running[i] != w.waiting[k] {
      assert Queue(w)[i] != Queue(w)[|w.running| + k];
    }
  }

  ghost predicate Fitting(inst: Instance, w: World) {
    inst.Valid() && |w.progress| == |inst.requests| && Listing(w)
  }

  /** preempt: the request starts over at the front of the queue. */
  function Preempt(w: World, i: nat): World
    requires i < |w.progress| && i in w.running
  {
    var r := Release(w, i);
    r.(running := RemoveAt(w.running, IndexOf(w.running, i)), waiting := [i] + w.waiting,
       progress := r.progress[i := r.progress[i].(computed := 0, preemptions := r.progress[i].preemptions + 1)])
  }

  /** The first service planned for a request, if there is one. */
  function Planned(services: seq<Service>, i: nat): (r: Option<nat>)
    ensures r.Some? ==> r.value < |services| && services[r.value].index == i
    ensures r.None? ==> forall k :: 0 <= k < |services| ==> services[k].index != i
  {
    if services == [] then None
    else if services[0].index == i then Some(0)
    else
      var rest := Planned(services[1..], i);
      assert rest.None? ==> forall k :: 1 <= k < |services| ==> services[k] == services[1..][k - 1];
      if rest.None? then None else Some(rest.value + 1)
  }

  /** Preemption of the last running request, with the roll-back of a service already planned for it. */
  function PreemptLast(st: Round): (r: Round)
    requires st.world.running != [] && Listing(st.world)
    ensures |r.world.progress| == |st.world.progress| && r.world.running == st.world.running[..|st.world.running| - 1]
    ensures Queue(r.world) == Queue(st.world) && Listing(r.world) && SameScript(st.world, r.world)
  {
    ListingParts(st.world);
    var victim := st.world.running[|st.world.running| - 1];
    var at := Planned(st.services, victim);
    PreemptQueue(st.world);
    hide Preempt, Queue, Distinct;
    Round(Preempt(st.world, victim),
          st.budget + (if at.Some? then st.services[at.value].tokens else 0),
          if at.Some? then RemoveAt(st.services, at.value) else st.services, true)
  }

  /** Preempting the last running request moves nobody in the queue. */
  lemma PreemptQueue(w: World)
    requires w.running != [] && Listing(w) && Distinct(w.running) && Below(w.running, |w.progress|)
    ensures var r := Preempt(w, w.running[|w.running| - 1]);
            && |r.progress| == |w.progress| && r.running == w.running[..|w.running| - 1]
            && Queue(r) == Queue(w) && SameScript(w, r)
  {
    hide Distinct;
    LastIndex(w.running);
  }

  lemma LastIndex(s: seq<nat>)
    requires s != [] && Distinct(s)
    ensures RemoveAt(s, IndexOf(s, s[|s| - 1])) == s[..|s| - 1]
  {}

  /** The preemption loop: until `need` blocks are free or `i` itself is gone. */
  function MakeRoom(st: Round, i: nat, need: int): (r: Round)
    requires Listing(st.world)
    ensures |r.world.progress| == |st.world.progress| && r.world.running <= st.world.running
    ensures Queue(r.world) == Queue(st.world) && Listing(r.world) && SameScript(st.world, r.world)
    decreases |st.world.running|
  {
    if need <= |st.world.free| || st.world.running == [] then st
    else
      var next := PreemptLast(st);
      if st.world.running[|st.world.running| - 1] == i then next else MakeRoom(next, i, need)
  }

  /** One running request: its tokens for this iteration, room for them, and the blocks. */
  function RunOne(inst: Instance, st: Round, i: nat, script: Option<seq<seq<nat>>>): (r: Result<Round>)
    requires Fitting(inst, st.world) && i < |inst.requests|
    ensures r.Ok? ==> Fitting(inst, r.value.world) && r.value.world.running <= st.world.running
    ensures r.Ok? ==> Queue(r.value.world) == Queue(st.world) && SameScript(st.world, r.value.world)
  {
    if i !in st.world.running || st.budget == 0 then Ok(st)
    else
      var n := Tokens(inst, st, i);
      var room := MakeRoom(st, i, Growth(inst, st.world, i, n));
      if i !in room.world.running then Ok(room)
      else Grow(room, i, n, Growth(inst, st.world, i, n), st.world.progress[i].computed < inst.requests[i].input, script)
  }

  /** Tokens a running request gets: a prefill chunk or one decode token, within the budget and what is left of its target. */
  function Tokens(inst: Instance, st: Round, i: nat): int
    requires i < |inst.requests| && i < |st.world.progress|
  {
    var p := st.world.progress[i];
    Min(Min(st.budget, if p.computed < inst.requests[i].input then inst.prefillChunk else 1), Target(inst, st.world, i) - p.computed)
  }

  /** Blocks missing for `n` more tokens. */
  function Growth(inst: Instance, w: World, i: nat, n: int): int
    requires inst.blockSize > 0 && i < |w.progress|
  {
    Ceil(w.progress[i].computed + n, inst.blockSize) - |w.progress[i].blocks|
  }

  /** Allocation, and the service that needs it. */
  function Grow(st: Round, i: nat, n: int, need: int, prefill: bool, script: Option<seq<seq<nat>>>): (r: Result<Round>)
    requires i < |st.world.progress|
    ensures r.Ok? ==> |r.value.world.progress| == |st.world.progress| && r.value.world.running == st.world.running
    ensures r.Ok? ==> r.value.world.waiting == st.world.waiting && SameScript(st.world, r.value.world)
  {
    match Allocate(st.world, i, need, script)
    case Ok(w) =>
      Ok(Round(w, st.budget - n, st.services + [Service(i, prefill, n, st.world.progress[i].computed)], st.preempted))
    case Choose(c, k) => Choose(c, k)
    case Fails(f) => Fails(f)
  }

  /** The running list as it was when the loop began. */
  function RunAll(inst: Instance, st: Round, todo: seq<nat>, script: Option<seq<seq<nat>>>): (r: Result<Round>)
    requires Fitting(inst, st.world) && Below(todo, |inst.requests|)
    ensures r.Ok? ==> Fitting(inst, r.value.world) && r.value.world.running <= st.world.running
    ensures r.Ok? ==> Queue(r.value.world) == Queue(st.world) && SameScript(st.world, r.value.world)
    decreases |todo|
  {
    if todo == [] then Ok(st)
    else
      match RunOne(inst, st, todo[0], script)
      case Ok(next) => RunAll(inst, next, todo[1..], script)
      case Choose(c, k) => Choose(c, k)
      case Fails(f) => Fails(f)
  }

  /** The blocks found for an admission lose their place in `free` and gain a reference. */
  function Hold(inst: Instance, w: World, i: nat, hits: seq<nat>): World
    requires i < |w.progress| && inst.blockSize > 0
  {
    var p := w.progress[i];
    w.(free := Without(w.free, Keep(hits, IdleBlocks(w.refs))), refs := Shift(w.refs, hits, 1),
       progress := w.progress[i := p.(blocks := hits, computed := |hits| * inst.blockSize,
                                      cachedTokens := p.cachedTokens + |hits| * inst.blockSize)])
  }

  /** Tokens of an admitted request's first service. */
  function FirstChunk(inst: Instance, budget: int, held: World, i: nat): int
    requires i < |held.progress| && i < |inst.requests|
  {
    Min(Min(budget, inst.prefillChunk), Target(inst, held, i) - held.progress[i].computed)
  }

  /** The first waiting request, its prefix found: hits held, blocks for its first chunk allocated, moved to the tail. */
  function AdmitOne(inst: Instance, st: Round, hits: seq<nat>, script: Option<seq<seq<nat>>>): (r: Result<Round>)
    requires Fitting(inst, st.world) && st.world.waiting != []
    ensures r.Ok? ==> Fitting(inst, r.value.world) && Queue(r.value.world) == Queue(st.world)
    ensures r.Ok? ==> r.value.world.waiting == st.world.waiting[1..] && SameScript(st.world, r.value.world)
  {
    ListingParts(st.world);
    var i := st.world.waiting[0];
    var held := Hold(inst, st.world, i, hits);
    var n := FirstChunk(inst, st.budget, held, i);
    match Grow(st.(world := held), i, n, Growth(inst, held, i, n), true, script)
    case Ok(next) =>
      var w := next.world.(waiting := next.world.waiting[1..], running := next.world.running + [i]);
      assert Queue(w) == Queue(st.world);
      Ok(next.(world := w))
    case Choose(c, k) => Choose(c, k)
    case Fails(f) => Fails(f)
  }

  /** The whole target and the protected hits must fit before the first waiting request is admitted. */
  predicate PromptFits(inst: Instance, w: World)
    requires inst.blockSize > 0 && w.waiting != [] && w.waiting[0] < |inst.requests| && w.waiting[0] < |w.progress|
  {
    var hits := Hits(inst.blockSize, inst.requests[w.waiting[0]], w.identity, 0);
    Ceil(Target(inst, w, w.waiting[0]), inst.blockSize) - |hits| + |Keep(hits, IdleBlocks(w.refs))| <= |w.free|
  }

  /** Admission in order, while budget and sequence slots last, up to the first request whose prompt does not fit. */
  function AdmitAll(inst: Instance, st: Round, script: Option<seq<seq<nat>>>): (r: Result<Round>)
    requires Fitting(inst, st.world)
    ensures r.Ok? ==> Fitting(inst, r.value.world) && Queue(r.value.world) == Queue(st.world)
    ensures r.Ok? ==> SameScript(st.world, r.value.world)
    decreases |st.world.waiting|
  {
    ListingParts(st.world);
    if st.world.waiting == [] || st.budget == 0 || |st.world.running| >= inst.maxSequences || !PromptFits(inst, st.world) then Ok(st)
    else
      match AdmitOne(inst, st, Hits(inst.blockSize, inst.requests[st.world.waiting[0]], st.world.identity, 0), script)
      case Ok(next) => AdmitAll(inst, next, script)
      case Choose(c, k) => Choose(c, k)
      case Fails(f) => Fails(f)
  }

  // ---------------------------------------------------------------------------------------
  // The end of an iteration

  function SignatureOf(services: seq<Service>): Signature {
    seq(|services|, k requires 0 <= k < |services| => (services[k].prefill, services[k].tokens, services[k].context))
  }

  function AffineCost(inst: Instance, services: seq<Service>): int {
    if services == [] then 0
    else
      var s := services[|services| - 1];
      AffineCost(inst, services[..|services| - 1]) + s.tokens * (if s.prefill then inst.prefillCost else inst.decodeCost)
  }

  function Duration(inst: Instance, services: seq<Service>): Option<int> {
    if inst.costTable.None? then Some(inst.overhead + AffineCost(inst, services))
    else if SignatureOf(services) in inst.costTable.value then Some(inst.costTable.value[SignatureOf(services)])
    else None
  }

  /** The first `k` blocks of a table get their prompt identities. */
  function Stamp(identity: seq<Option<seq<int>>>, blocks: seq<nat>, hashes: seq<int>, k: nat): (r: seq<Option<seq<int>>>)
    ensures |r| == |identity|
  {
    if k == 0 then identity
    else
      var rest := Stamp(identity, blocks, hashes, k - 1);
      if k - 1 < |blocks| && blocks[k - 1] < |rest| then rest[blocks[k - 1] := Some(Lead(hashes, k))] else rest
  }

  /** One service of the batch that ends at `end`. */
  function Serve(inst: Instance, w: World, s: Service, end: int): World
    requires s.index < |inst.requests| == |w.progress| && inst.blockSize > 0 && s.tokens >= 0
  {
    var r, p := inst.requests[s.index], w.progress[s.index];
    var computed: nat := p.computed + s.tokens;
    var outputs := if computed >= Target(inst, w, s.index) then p.outputs + [end] else p.outputs;
    var full: nat := Min(computed, r.input) / inst.blockSize;
    w.(identity := Stamp(w.identity, p.blocks, r.hashes, full),
       progress := w.progress[s.index := p.(computed := computed, outputs := outputs,
         completed := if outputs != p.outputs && |outputs| == r.output then Some(end) else p.completed)])
  }

  function ServeAll(inst: Instance, w: World, services: seq<Service>, end: int): (r: World)
    requires |w.progress| == |inst.requests| && inst.blockSize > 0
    requires forall k :: 0 <= k < |services| ==> services[k].index < |inst.requests| && services[k].tokens >= 0
    ensures |r.progress| == |w.progress| && r.running == w.running && r.waiting == w.waiting
    decreases |services|
  {
    if services == [] then w else ServeAll(inst, Serve(inst, w, services[0], end), services[1..], end)
  }

  /** Completed requests leave: their blocks go back, most recent block first. */
  function Finish(w: World, i: nat): World
    requires i < |w.progress| && i in w.running
  {
    var r := Release(w, i);
    r.(running := RemoveAt(w.running, IndexOf(w.running, i)))
  }

  function FinishAll(w: World, todo: seq<nat>): (r: World)
    ensures |r.progress| == |w.progress|
    decreases |todo|
  {
    if todo == [] then w
    else if todo[0] < |w.progress| && w.progress[todo[0]].completed.Some? && todo[0] in w.running
    then FinishAll(Finish(w, todo[0]), todo[1..])
    else FinishAll(w, todo[1..])
  }

  // ---------------------------------------------------------------------------------------
  // Arrivals

  predicate Before(inst: Instance, i: nat, j: nat)
    requires i < |inst.requests| && j < |inst.requests|
  {
    inst.requests[i].arrival < inst.requests[j].arrival || (inst.requests[i].arrival == inst.requests[j].arrival && i < j)
  }

  function Insert(inst: Instance, s: seq<nat>, i: nat): (r: seq<nat>)
    requires Below(s, |inst.requests|) && i < |inst.requests|
    ensures |r| == |s| + 1 && Below(r, |inst.requests|) && forall x :: x in r <==> x == i || x in s
  {
    if s == [] || Before(inst, i, s[0]) then [i] + s
    else
      assert s == [s[0]] + s[1..];
      [s[0]] + Insert(inst, s[1..], i)
  }

  predicate Arrives(inst: Instance, w: World, i: nat)
    requires i < |inst.requests|
  {
    i !in w.released && inst.requests[i].arrival <= w.time
  }

  /** The arrivals of this iteration among the first `n` requests, by arrival and index. */
  function Arrivals(inst: Instance, w: World, n: nat): (r: seq<nat>)
    requires n <= |inst.requests|
    ensures Below(r, n) && forall i: nat :: i in r <==> i < n && Arrives(inst, w, i)
  {
    if n == 0 then []
    else
      var r := Arrivals(inst, w, n - 1);
      if Arrives(inst, w, n - 1) then
        var s := Insert(inst, r, n - 1);
        assert forall k :: 0 <= k < |s| ==> s[k] in s;
        s
      else r
  }

  function Enqueue(inst: Instance, w: World): World {
    var arrived := Arrivals(inst, w, |inst.requests|);
    w.(waiting := w.waiting + arrived, released := w.released + Elements(arrived))
  }

  function Future(inst: Instance, w: World): set<int> {
    set i: nat | 0 <= i < |inst.requests| && i !in w.released :: inst.requests[i].arrival
  }

  predicate Finished(w: World) {
    forall i :: 0 <= i < |w.progress| ==> w.progress[i].completed.Some?
  }

  // ---------------------------------------------------------------------------------------
  // Limits

  datatype Limit = Limit(completion: int, duration: int, gap: int)

  /** The rational tolerance, rounded down. */
  function Allowed(inst: Instance, n: int): int {
    n + Max(n * inst.slackPercent / 100, inst.epsilon)
  }

  predicate Breaks(r: Request, p: Progress, time: int, l: Limit) {
    || Completion(p.completed, time) > l.completion
    || (r.output > 1 && p.outputs != [] &&
        (Completion(p.completed, time) - p.outputs[0] > l.duration || Largest(OpenGaps(p.outputs, p.completed, time)) > l.gap))
  }

  predicate Late(inst: Instance, w: World, limits: seq<Limit>)
    requires |limits| == |w.progress| == |inst.requests|
  {
    exists i | 0 <= i < |limits| :: Breaks(inst.requests[i], w.progress[i], w.time, limits[i])
  }

  // ---------------------------------------------------------------------------------------
  // The iteration

  /** Planning: running requests first; admissions only when nothing was preempted. */
  function Schedule(inst: Instance, w: World, script: Option<seq<seq<nat>>>): (r: Result<Round>)
    requires Fitting(inst, w)
    ensures r.Ok? ==> Fitting(inst, r.value.world) && Queue(r.value.world) == Queue(w) && SameScript(w, r.value.world)
  {
    ListingParts(w);
    match RunAll(inst, Round(w, inst.tokenBudget, [], false), w.running, script)
    case Ok(st) => if st.preempted then Ok(st) else AdmitAll(inst, st, script)
    case Choose(c, k) => Choose(c, k)
    case Fails(f) => Fails(f)
  }

  /** The services can be given: each names a request. */
  predicate Servable(inst: Instance, services: seq<Service>) {
    forall k :: 0 <= k < |services| ==> services[k].index < |inst.requests| && services[k].tokens >= 0
  }

  /** The batch is served and completed requests leave. */
  function Settled(inst: Instance, st: Round, end: int): (r: World)
    requires inst.blockSize > 0 && |st.world.progress| == |inst.requests| && Servable(inst, st.services)
    ensures |r.progress| == |inst.requests|
  {
    var served := ServeAll(inst, st.world, st.services, end);
    FinishAll(served, served.running).(time := end)
  }

  /** The rest of the iteration: an idle jump, or service, release and the deadline check. */
  ghost function Settle(inst: Instance, st: Round, limits: Option<seq<Limit>>): Result<World>
    requires inst.blockSize > 0 && |st.world.progress| == |inst.requests| && (limits.Some? ==> |limits.value| == |inst.requests|)
  {
    if st.services == [] then
      if st.world.running != [] || st.world.waiting != [] then Fails(if st.preempted then ZeroService else NoProgress)
      else if Future(inst, st.world) == {} then Fails(NoFuture)
      else Ok(st.world.(time := Least(Future(inst, st.world))))
    else
      var cost := Duration(inst, st.services);
      if cost.None? then Fails(MissingCost)
      else if !Servable(inst, st.services) then Fails(NoProgress)
      else
        var next := Settled(inst, st, st.world.time + cost.value);
        if limits.Some? && Late(inst, next, limits.value) then Fails(Deadline) else Ok(next)
  }

  ghost function Iterate(inst: Instance, w: World, script: Option<seq<seq<nat>>>, limits: Option<seq<Limit>>): Result<World>
    requires Fitting(inst, Enqueue(inst, w)) && (limits.Some? ==> |limits.value| == |inst.requests|)
  {
    match Schedule(inst, Enqueue(inst, w), script)
    case Ok(st) => Settle(inst, st, limits)
    case Choose(c, k) => Choose(c, k)
    case Fails(f) => Fails(f)
  }
}
