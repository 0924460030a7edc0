/**
 The scheduler of one simulated engine (routing_sim.py, Engine.schedule and Engine.finish_step) as functions
 on engine states, with the invariant that holds at every step boundary and inside every loop.
 A request is named by its position in the trace.
 */
module Scheduling {
  import opened Common
  import opened BlockPool

  datatype Config = Config(numBlocks: nat, tokenBudget: nat, maxSeqs: nat)

  /** The fixed part of a SimRequest. */
  datatype Request = Request(arrival: int, keys: seq<nat>, inputLen: nat, outputLen: nat)

  /** The engine's part of a SimRequest. */
  datatype Progress = Progress(computed: nat, generated: nat, table: seq<nat>, engineHit: Option<nat>,
                               firstAt: Option<int>, doneAt: Option<int>, preempted: nat)

  /** One entry of a step's plan: `tokens` new tokens for request `rid`. */
  datatype Chunk = Chunk(rid: nat, tokens: nat)

  /** The calls finish_step makes back into the router. */
  datatype Callback = First(rid: nat) | Done(rid: nat)

  /**
   An engine. The last three fields are history: the requests in the order they were dispatched to this
   engine, first admitted (engine_hit set) and given their first token (first_ms set).
   */
  datatype EngineState = EngineState(pool: Pool, waiting: seq<nat>, running: seq<nat>, prog: map<nat, Progress>,
                           dispatched: seq<nat>, admitted: seq<nat>, firsts: seq<nat>)

  const NotStarted := Progress(0, 0, [], None, None, None, 0)

  function NewEngine(cfg: Config): EngineState {
    EngineState(BlockPool.Fresh(cfg.numBlocks), [], [], map[], [], [], [])
  }

  /** A scheduling step or an admission needs tokens and a sequence slot to hand out. */
  predicate Usable(trace: seq<Request>, cfg: Config) {
    && cfg.tokenBudget >= 1 && cfg.maxSeqs >= 1
    && forall r :: 0 <= r < |trace| ==> trace[r].inputLen >= 1 && trace[r].outputLen >= 1
  }

  /** Tokens whose keys and values a request needs before its last output: the last one is never cached. */
  function Total(q: Request): (n: nat)
    requires q.inputLen >= 1
  {
    q.inputLen + q.outputLen - 1
  }

  /** Every request fits into the pool alone. */
  predicate FitAlone(trace: seq<Request>, cfg: Config)
    requires Usable(trace, cfg)
  {
    forall r :: 0 <= r < |trace| ==> CeilBlocks(Total(trace[r])) <= cfg.numBlocks
  }

  /** SimRequest.key: block `i` of the request's current sequence. */
  function KeyOf(trace: seq<Request>, r: nat, i: nat): Key
    requires r < |trace|
  {
    if i < |trace[r].keys| then Trace(trace[r].keys[i]) else Out(r, i - |trace[r].keys|)
  }

  function Keys(trace: seq<Request>, r: nat, n: nat): (ks: seq<Key>)
    requires r < |trace|
    ensures |ks| == n && forall i :: 0 <= i < n ==> ks[i] == KeyOf(trace, r, i)
  {
    seq(n, i requires 0 <= i < n => KeyOf(trace, r, i))
  }

  /** Running requests, then waiting ones: first come, first served. */
  function Order(s: EngineState): seq<nat> {
    s.running + s.waiting
  }

  /** What the operations need to be defined at all. */
  predicate Defined(trace: seq<Request>, s: EngineState) {
    && Shape(s.pool)
    && (forall r :: r in s.prog ==> r < |trace| && Below(s.prog[r].table, |s.pool.ref|))
    && (forall i :: 0 <= i < |s.running| ==> s.running[i] in s.prog)
    && (forall i :: 0 <= i < |s.waiting| ==> s.waiting[i] in s.prog)
  }

  /** SimRequest.length: prompt plus generated tokens. */
  function Length(trace: seq<Request>, s: EngineState, r: nat): nat
    requires Defined(trace, s) && r in s.prog
  {
    trace[r].inputLen + s.prog[r].generated
  }

  // ---------------------------------------------------------------------------------------
  // The steps of schedule

  /** Blocks `_grow` still needs for `tokens` tokens; not positive when the table already covers them. */
  function Need(s: EngineState, r: nat, tokens: nat): int
    requires r in s.prog
  {
    CeilBlocks(tokens) - |s.prog[r].table|
  }

  /** `_grow` when it succeeds. */
  function Grow(trace: seq<Request>, s: EngineState, r: nat, tokens: nat): EngineState
    requires Defined(trace, s) && r in s.prog && Need(s, r, tokens) <= |s.pool.free|
  {
    var (pool, bs) := Take(s.pool, Max(0, Need(s, r, tokens)));
    s.(pool := pool, prog := s.prog[r := s.prog[r].(table := s.prog[r].table + bs)])
  }

  /** Recompute preemption: the last running request loses its blocks and goes to the head of the queue. */
  function PreemptTail(trace: seq<Request>, s: EngineState): EngineState
    requires Defined(trace, s) && s.running != []
  {
    var n := |s.running| - 1;
    var victim := s.running[n];
    var p := s.prog[victim];
    s.(pool := Release(s.pool, p.table), running := s.running[..n], waiting := [victim] + s.waiting,
       prog := s.prog[victim := p.(computed := 0, table := [], preempted := p.preempted + 1)])
  }

  /** What schedule does with the head of the queue. */
  datatype Offer = Offer(blocks: seq<nat>, tokens: nat, fits: bool)

  function Consider(trace: seq<Request>, s: EngineState, budget: nat): (o: Offer)
    requires Defined(trace, s) && s.waiting != [] && CacheInverse(s.pool)
    requires Length(trace, s, s.waiting[0]) >= 1
    ensures Below(o.blocks, |s.pool.ref|)
    ensures |o.blocks| * BLOCK + o.tokens <= Length(trace, s, s.waiting[0])
    ensures |o.blocks| * BLOCK < Length(trace, s, s.waiting[0])
    ensures o.tokens <= budget && (budget > 0 ==> o.tokens >= 1)
    ensures o.tokens < budget ==> |o.blocks| * BLOCK + o.tokens == Length(trace, s, s.waiting[0])
  {
    var r := s.waiting[0];
    var length := Length(trace, s, r);
    var keys := Keys(trace, r, length / BLOCK);
    var hit: nat := Min(HitBlocks(s.pool.cached, keys), (length - 1) / BLOCK);
    var tokens: nat := Min(length - hit * BLOCK, budget);
    var blocks := seq(hit, j requires 0 <= j < hit => s.pool.cached[keys[j]]);
    var need := CeilBlocks(hit * BLOCK + tokens) - hit;
    assert forall j :: 0 <= j < hit ==> blocks[j] == s.pool.cached[keys[j]];
    Offer(blocks, tokens, need + Evictable(s.pool, blocks) <= |s.pool.free|)
  }

  /** Admission, first half: the head of the queue takes over the cached blocks of its prefix. */
  function AdoptHits(trace: seq<Request>, s: EngineState, blocks: seq<nat>): EngineState
    requires Defined(trace, s) && s.waiting != [] && Below(blocks, |s.pool.ref|)
    requires Counted(s.pool)
  {
    var r := s.waiting[0];
    var p := s.prog[r];
    var hit := |blocks| * BLOCK;
    s.(pool := Adopt(s.pool, blocks), running := s.running + [r], waiting := s.waiting[1..],
       prog := s.prog[r := p.(table := blocks, computed := hit,
                              engineHit := if p.engineHit.None? then Some(hit) else p.engineHit)],
       admitted := if p.engineHit.None? then s.admitted + [r] else s.admitted)
  }

  // ---------------------------------------------------------------------------------------
  // The invariant

  /** All table entries of the running requests. */
  ghost function Held(running: seq<nat>, prog: map<nat, Progress>): multiset<nat>
    requires forall i :: 0 <= i < |running| ==> running[i] in prog
  {
    if running == [] then multiset{}
    else Held(running[..|running| - 1], prog) + multiset(prog[running[|running| - 1]].table)
  }

  /** Every block reference is a table entry of a running request, and the pool accounts for all of them. */
  ghost predicate Owned(trace: seq<Request>, cfg: Config, s: EngineState)
    requires Defined(trace, s)
  {
    && |s.pool.ref| == cfg.numBlocks
    && Valid(s.pool, Held(s.running, s.prog)) && Unshared(s.pool)
  }

  /** Outputs, first token and completion agree with each other. */
  predicate Sound(q: Request, p: Progress) {
    && (p.firstAt.Some? <==> p.generated > 0) && (p.generated > 0 ==> p.engineHit.Some?)
    && if p.doneAt.None? then p.generated < q.outputLen else p.generated == q.outputLen && p.engineHit.Some?
  }

  /** Every request waits or runs at most once. */
  ghost predicate Queues(cfg: Config, s: EngineState) {
    Distinct(Order(s)) && |s.running| <= cfg.maxSeqs
  }

  ghost predicate Records(trace: seq<Request>, s: EngineState)
    requires Defined(trace, s)
  {
    && (forall r :: r in s.prog ==> Sound(trace[r], s.prog[r]))
    && (forall i :: 0 <= i < |s.running| ==>
          var p := s.prog[s.running[i]];
          p.doneAt.None? && p.engineHit.Some? && p.computed < Length(trace, s, s.running[i]))
    && (forall i :: 0 <= i < |s.waiting| ==>
          var p := s.prog[s.waiting[i]]; p.doneAt.None? && p.computed == 0 && p.table == [])
  }

  /** Tokens the plan gives to running position `i`; the plan serves the positions from `off` on. */
  function Planned(off: nat, plan: seq<Chunk>, i: nat): nat {
    if off <= i < off + |plan| then plan[i - off].tokens else 0
  }

  /**
   The plan serves a contiguous run of the running queue, only its last chunk may leave a request short, and
   every table covers exactly the computed and planned tokens.
   */
  ghost predicate Plans(trace: seq<Request>, s: EngineState, off: nat, plan: seq<Chunk>)
    requires Defined(trace, s)
  {
    && off + |plan| <= |s.running|
    && (forall j :: 0 <= j < |plan| ==>
          && plan[j].rid == s.running[off + j] && plan[j].tokens >= 1
          && s.prog[plan[j].rid].computed + plan[j].tokens <= Length(trace, s, plan[j].rid)
          && (j + 1 < |plan| ==> s.prog[plan[j].rid].computed + plan[j].tokens == Length(trace, s, plan[j].rid)))
    && (forall i :: 0 <= i < |s.running| ==>
          |s.prog[s.running[i]].table| == CeilBlocks(s.prog[s.running[i]].computed + Planned(off, plan, i)))
  }

  /** Every chunk completes its request's current sequence. */
  ghost predicate AllComplete(trace: seq<Request>, s: EngineState, plan: seq<Chunk>)
    requires Defined(trace, s) && forall j :: 0 <= j < |plan| ==> plan[j].rid in s.prog
  {
    forall j :: 0 <= j < |plan| ==>
      s.prog[plan[j].rid].computed + plan[j].tokens == Length(trace, s, plan[j].rid)
  }

  /** Computed full blocks are cached under the request's own key or not at all; later blocks never are. */
  ghost predicate KeysFit(trace: seq<Request>, pool: Pool, r: nat, computed: nat, table: seq<nat>)
    requires r < |trace| && Shape(pool) && Below(table, |pool.ref|)
  {
    forall i :: 0 <= i < |table| ==>
      || pool.key[table[i]] == None
      || (i < computed / BLOCK && pool.key[table[i]] == Some(KeyOf(trace, r, i)))
  }

  ghost predicate OwnKeys(trace: seq<Request>, s: EngineState)
    requires Defined(trace, s)
  {
    forall i :: 0 <= i < |s.running| ==>
      KeysFit(trace, s.pool, s.running[i], s.prog[s.running[i]].computed, s.prog[s.running[i]].table)
  }

  ghost predicate Inv(trace: seq<Request>, cfg: Config, s: EngineState, off: nat, plan: seq<Chunk>) {
    && Defined(trace, s) && Owned(trace, cfg, s) && Queues(cfg, s) && Records(trace, s)
    && Plans(trace, s, off, plan) && OwnKeys(trace, s)
  }

  /** What duplicate-freedom of the order says of the two queues. */
  ghost predicate Apart(s: EngineState) {
    && Distinct(s.running) && Distinct(s.waiting)
    && forall i, j :: 0 <= i < |s.running| && 0 <= j < |s.waiting| ==> s.running[i] != s.waiting[j]
  }

  lemma QueuesApart(s: EngineState)
    requires Distinct(Order(s))
    ensures Apart(s)
  {
    assert forall i :: 0 <= i < |s.running| ==> Order(s)[i] == s.running[i];
    assert forall j :: 0 <= j < |s.waiting| ==> Order(s)[|s.running| + j] == s.waiting[j];
  }

  // ---------------------------------------------------------------------------------------
  // Held tables

  lemma {:induction false} HeldFrame(running: seq<nat>, p: map<nat, Progress>, q: map<nat, Progress>)
    requires forall i :: 0 <= i < |running| ==> running[i] in p && running[i] in q
    requires forall i :: 0 <= i < |running| ==> p[running[i]].table == q[running[i]].table
    ensures Held(running, p) == Held(running, q)
  {
    if running != [] { HeldFrame(running[..|running| - 1], p, q); }
  }

  lemma HeldAppend(a: seq<nat>, x: nat, p: map<nat, Progress>)
    requires x in p && forall i :: 0 <= i < |a| ==> a[i] in p
    ensures forall i :: 0 <= i < |a + [x]| ==> (a + [x])[i] in p
    ensures Held(a + [x], p) == Held(a, p) + multiset(p[x].table)
  {
    assert (a + [x])[..|a|] == a;
  }

  lemma {:induction false} HeldConcat(a: seq<nat>, b: seq<nat>, p: map<nat, Progress>)
    requires forall i :: 0 <= i < |a| ==> a[i] in p
    requires forall i :: 0 <= i < |b| ==> b[i] in p
    ensures forall i :: 0 <= i < |a + b| ==> (a + b)[i] in p
    ensures Held(a + b, p) == Held(a, p) + Held(b, p)
  {
    assert Held([], p) == multiset{};
    hide Held;
    if b == [] {
      assert a + b == a;
    } else {
      var c, x := b[..|b| - 1], b[|b| - 1];
      assert b == c + [x];
      assert a + b == (a + c) + [x];
      HeldConcat(a, c, p);
      HeldAppend(a + c, x, p);
      HeldAppend(c, x, p);
    }
  }

  /** The tables held around running position `i`. */
  lemma HeldSplit(running: seq<nat>, i: nat, p: map<nat, Progress>)
    requires forall j :: 0 <= j < |running| ==> running[j] in p
    requires i < |running|
    ensures forall j :: 0 <= j < |RemoveAt(running, i)| ==> RemoveAt(running, i)[j] in p
    ensures Held(running, p) == Held(RemoveAt(running, i), p) + multiset(p[running[i]].table)
  {
    var a, b := running[..i], running[i + 1..];
    assert running == a + [running[i]] + b;
    HeldConcat(a, [running[i]], p);
    HeldConcat(a + [running[i]], b, p);
    HeldConcat(a, b, p);
    assert Held([running[i]], p) == multiset(p[running[i]].table) by {
      assert [running[i]][..0] == [];
    }
  }

  /** Changing one running request's table changes what is held by just that. */
  lemma HeldUpdate(running: seq<nat>, i: nat, p: map<nat, Progress>, x: Progress)
    requires forall j :: 0 <= j < |running| ==> running[j] in p
    requires i < |running| && Distinct(running)
    ensures forall j :: 0 <= j < |RemoveAt(running, i)| ==> RemoveAt(running, i)[j] in p
    ensures Held(running, p) == Held(RemoveAt(running, i), p) + multiset(p[running[i]].table)
    ensures Held(running, p[running[i] := x]) == Held(RemoveAt(running, i), p) + multiset(x.table)
  {
    var q := p[running[i] := x];
    HeldSplit(running, i, p);
    HeldSplit(running, i, q);
    RemoveAtDistinct(running, i);
    HeldFrame(RemoveAt(running, i), p, q);
  }

  /** Extending one running request's table adds exactly the new entries. */
  lemma HeldGrow(running: seq<nat>, i: nat, p: map<nat, Progress>, bs: seq<nat>)
    requires forall j :: 0 <= j < |running| ==> running[j] in p
    requires i < |running| && Distinct(running)
    ensures var x := p[running[i]];
            Held(running, p[running[i] := x.(table := x.table + bs)]) == Held(running, p) + multiset(bs)
  {
    var x := p[running[i]];
    HeldUpdate(running, i, p, x.(table := x.table + bs));
    assert multiset(x.table + bs) == multiset(x.table) + multiset(bs);
  }

  lemma HeldOther(running: seq<nat>, p: map<nat, Progress>, i: nat, j: nat, b: nat)
    requires forall k :: 0 <= k < |running| ==> running[k] in p
    requires i < |running| && j < |running| && i != j
    requires b in p[running[i]].table && b in p[running[j]].table
    ensures Held(running, p)[b] >= 2
  {
    hide Held;
    HeldSplit(running, i, p);
    var rest, k := RemoveAt(running, i), if j < i then j else j - 1;
    assert rest[k] == running[j];
    HeldSplit(rest, k, p);
    assert b in multiset(p[running[i]].table) && b in multiset(p[rest[k]].table);
  }

  /** A block held only once sits at one place of one table. */
  lemma HeldOnce(running: seq<nat>, p: map<nat, Progress>, i: nat, b: nat)
    requires forall j :: 0 <= j < |running| ==> running[j] in p
    requires i < |running| && b in p[running[i]].table
    ensures Held(running, p)[b] >= 1
    ensures forall j :: 0 <= j < |running| && j != i && b in p[running[j]].table ==> Held(running, p)[b] >= 2
  {
    hide Held;
    HeldSplit(running, i, p);
    assert b in multiset(p[running[i]].table);
    forall j | 0 <= j < |running| && j != i && b in p[running[j]].table
      ensures Held(running, p)[b] >= 2
    {
      HeldOther(running, p, i, j, b);
    }
  }
}
