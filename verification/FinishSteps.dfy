/** finish_step: computed tokens are booked, full blocks enter the cache, outputs appear, finished requests leave. */
module FinishSteps {
  import opened Common
  import opened BlockPool
  import opened Scheduling
  import opened ScheduleSteps

  /** One round of `_cache_full`: block `i` gets its key unless it has one or another block holds the key. */
  function CacheOne(trace: seq<Request>, pool: Pool, r: nat, table: seq<nat>, i: nat): (q: Pool)
    requires r < |trace| && Shape(pool) && Below(table, |pool.ref|) && i < |table|
    ensures Shape(q) && q.ref == pool.ref && q.free == pool.free && |q.key| == |pool.key|
  {
    var b, k := table[i], KeyOf(trace, r, i);
    if pool.key[b].None? && k !in pool.cached
    then pool.(key := pool.key[b := Some(k)], cached := pool.cached[k := b])
    else pool
  }

  /** `_cache_full` for the blocks from `i` up to `n`. */
  function CacheFull(trace: seq<Request>, pool: Pool, r: nat, table: seq<nat>, i: nat, n: nat): (q: Pool)
    requires r < |trace| && Shape(pool) && Below(table, |pool.ref|) && n <= |table|
    ensures Shape(q) && q.ref == pool.ref && q.free == pool.free && |q.key| == |pool.key|
    decreases n - i
  {
    if i >= n then pool else CacheFull(trace, CacheOne(trace, pool, r, table, i), r, table, i + 1, n)
  }

  /** What one chunk's completion calls back and does to the engine. */
  datatype Outcome = Outcome(s: EngineState, calls: seq<Callback>)

  /** The tokens of a chunk are computed and its full blocks cached; a completed sequence yields an output. */
  function Book(trace: seq<Request>, s: EngineState, c: Chunk): (t: EngineState)
    requires Defined(trace, s) && c.rid in s.prog
    requires (s.prog[c.rid].computed + c.tokens) / BLOCK <= |s.prog[c.rid].table|
    ensures Defined(trace, t)
  {
    var p := s.prog[c.rid];
    var computed := p.computed + c.tokens;
    var pool := CacheFull(trace, s.pool, c.rid, p.table, 0, computed / BLOCK);
    var generated := if computed < Length(trace, s, c.rid) then p.generated else p.generated + 1;
    s.(pool := pool, prog := s.prog[c.rid := p.(computed := computed, generated := generated)])
  }

  /** First token: first_ms is set and the router told. */
  function MarkFirst(s: EngineState, x: nat, now: int): EngineState
    requires x in s.prog
  {
    if s.prog[x].firstAt.Some? then s
    else s.(prog := s.prog[x := s.prog[x].(firstAt := Some(now))], firsts := s.firsts + [x])
  }

  /** Completion: the request leaves the running list and gives its blocks back. */
  function Leave(trace: seq<Request>, s: EngineState, x: nat, now: int): EngineState
    requires Defined(trace, s) && x in s.running
  {
    var p := s.prog[x];
    s.(running := RemoveAt(s.running, IndexOf(s.running, x)), pool := Release(s.pool, p.table),
       prog := s.prog[x := p.(doneAt := Some(now), table := [])])
  }

  /** One round of finish_step's loop. */
  function FinishOne(trace: seq<Request>, s: EngineState, c: Chunk, now: int): Outcome
    requires Defined(trace, s) && c.rid in s.running
    requires c.rid in s.prog && (s.prog[c.rid].computed + c.tokens) / BLOCK <= |s.prog[c.rid].table|
  {
    var x := c.rid;
    var t := Book(trace, s, c);
    if s.prog[x].computed + c.tokens < Length(trace, s, x) then Outcome(t, []) else
      var u := MarkFirst(t, x, now);
      var first := if t.prog[x].firstAt.Some? then [] else [First(x)];
      if u.prog[x].generated >= trace[x].outputLen
      then Outcome(Leave(trace, u, x, now), first + [Done(x)])
      else Outcome(u, first)
  }

  // ---------------------------------------------------------------------------------------
  // Caching keeps the invariant

  /** Where running request `i` stands in the pool. */
  ghost predicate CacheReady(trace: seq<Request>, s: EngineState, pool: Pool, n: nat, i: nat)
    requires Defined(trace, s)
  {
    && Shape(pool) && pool.ref == s.pool.ref && Valid(pool, Held(s.running, s.prog)) && Unshared(pool)
    && i < |s.running|
    && (forall j :: 0 <= j < |s.running| && j != i ==>
          KeysFit(trace, pool, s.running[j], s.prog[s.running[j]].computed, s.prog[s.running[j]].table))
    && KeysFit(trace, pool, s.running[i], n * BLOCK, s.prog[s.running[i]].table)
  }

  lemma CacheOneValid(trace: seq<Request>, pool: Pool, held: multiset<nat>, r: nat, table: seq<nat>, k: nat)
    requires r < |trace| && Valid(pool, held) && Unshared(pool) && Below(table, |pool.ref|) && k < |table|
    ensures var q := CacheOne(trace, pool, r, table, k); Valid(q, held) && Unshared(q)
    ensures CacheOne(trace, pool, r, table, k).key ==
              if pool.key[table[k]].None? && KeyOf(trace, r, k) !in pool.cached
              then pool.key[table[k] := Some(KeyOf(trace, r, k))] else pool.key
  {
  }

  lemma CacheOneReady(trace: seq<Request>, s: EngineState, pool: Pool, n: nat, i: nat, k: nat)
    requires Defined(trace, s) && Distinct(s.running) && CacheReady(trace, s, pool, n, i)
    requires k < n && k < |s.prog[s.running[i]].table|
    ensures CacheReady(trace, s, CacheOne(trace, pool, s.running[i], s.prog[s.running[i]].table, k), n, i)
  {
    var x := s.running[i];
    var table := s.prog[x].table;
    var held := Held(s.running, s.prog);
    CacheOneValid(trace, pool, held, x, table, k);
    if pool.key[table[k]].None? && KeyOf(trace, x, k) !in pool.cached {
      HeldOnce(s.running, s.prog, i, table[k]);
      TableOnce(s.running, s.prog, i, k);
      assert held[table[k]] <= 1;
      hide Held, Valid, Unshared, CacheOne;
      NewKeyFits(trace, s, pool, CacheOne(trace, pool, x, table, k), n, i, k);
    }
  }

  /** A new key on a block that no other table position holds. */
  lemma NewKeyFits(trace: seq<Request>, s: EngineState, pool: Pool, q: Pool, n: nat, i: nat, k: nat)
    requires Defined(trace, s) && i < |s.running| && k < n && k < |s.prog[s.running[i]].table|
    requires Shape(pool) && Shape(q) && pool.ref == q.ref == s.pool.ref
    requires q.key == pool.key[s.prog[s.running[i]].table[k] := Some(KeyOf(trace, s.running[i], k))]
    requires forall j :: 0 <= j < |s.running| && j != i ==>
               s.prog[s.running[i]].table[k] !in s.prog[s.running[j]].table
               && KeysFit(trace, pool, s.running[j], s.prog[s.running[j]].computed, s.prog[s.running[j]].table)
    requires KeysFit(trace, pool, s.running[i], n * BLOCK, s.prog[s.running[i]].table)
    requires forall j :: 0 <= j < |s.prog[s.running[i]].table| && j != k ==>
               s.prog[s.running[i]].table[j] != s.prog[s.running[i]].table[k]
    ensures forall j :: 0 <= j < |s.running| && j != i ==>
              KeysFit(trace, q, s.running[j], s.prog[s.running[j]].computed, s.prog[s.running[j]].table)
    ensures KeysFit(trace, q, s.running[i], n * BLOCK, s.prog[s.running[i]].table)
  {
  }

  /** A block held once occupies one position of the table. */
  lemma TableOnce(running: seq<nat>, prog: map<nat, Progress>, i: nat, k: nat)
    requires forall j :: 0 <= j < |running| ==> running[j] in prog
    requires i < |running| && k < |prog[running[i]].table|
    ensures forall j :: 0 <= j < |prog[running[i]].table| && j != k && prog[running[i]].table[j] == prog[running[i]].table[k]
              ==> Held(running, prog)[prog[running[i]].table[k]] >= 2
  {
    var table := prog[running[i]].table;
    HeldSplit(running, i, prog);
    forall j | 0 <= j < |table| && j != k && table[j] == table[k]
      ensures multiset(table)[table[k]] >= 2
    {
      var rest := RemoveAt(table, k);
      assert rest[if j < k then j else j - 1] == table[k];
      assert table == table[..k] + [table[k]] + table[k + 1..];
      assert multiset(table) == multiset(rest) + multiset{table[k]};
    }
  }

  lemma {:induction false} CacheFullReady(trace: seq<Request>, s: EngineState, pool: Pool, i: nat, k: nat, n: nat)
    requires Defined(trace, s) && Distinct(s.running) && CacheReady(trace, s, pool, n, i)
    requires n <= |s.prog[s.running[i]].table|
    ensures CacheReady(trace, s, CacheFull(trace, pool, s.running[i], s.prog[s.running[i]].table, k, n), n, i)
    decreases n - k
  {
    hide Valid, Unshared, Held, KeysFit, CacheOne, Distinct;
    if k < n {
      CacheOneReady(trace, s, pool, n, i, k);
      hide CacheReady;
      CacheFullReady(trace, s, CacheOne(trace, pool, s.running[i], s.prog[s.running[i]].table, k), i, k + 1, n);
    }
  }

  // ---------------------------------------------------------------------------------------
  // Booking, first token and completion keep the invariant

  /** The next chunk of the plan is for running position `off`. */
  ghost predicate Pending(trace: seq<Request>, cfg: Config, s: EngineState, off: nat, plan: seq<Chunk>) {
    Usable(trace, cfg) && Inv(trace, cfg, s, off, plan) && plan != []
  }

  lemma PendingChunk(trace: seq<Request>, cfg: Config, s: EngineState, off: nat, plan: seq<Chunk>)
    requires Pending(trace, cfg, s, off, plan)
    ensures var c := plan[0];
            && Defined(trace, s) && Apart(s) && off < |s.running| && c.rid == s.running[off] && c.rid in s.prog
            && 1 <= c.tokens && s.prog[c.rid].computed + c.tokens <= Length(trace, s, c.rid)
            && (|plan| > 1 ==> s.prog[c.rid].computed + c.tokens == Length(trace, s, c.rid))
            && |s.prog[c.rid].table| == CeilBlocks(s.prog[c.rid].computed + c.tokens)
            && (s.prog[c.rid].computed + c.tokens) / BLOCK <= |s.prog[c.rid].table|
            && s.prog[c.rid].generated < trace[c.rid].outputLen && s.prog[c.rid].doneAt.None?
            && s.prog[c.rid].engineHit.Some?
            && (s.prog[c.rid].firstAt.Some? <==> s.prog[c.rid].generated > 0)
  {
    hide Owned, OwnKeys;
    QueuesApart(s);
  }

  lemma BookReady(trace: seq<Request>, cfg: Config, s: EngineState, off: nat, n: nat)
    requires Defined(trace, s) && Owned(trace, cfg, s) && OwnKeys(trace, s) && off < |s.running|
    requires s.prog[s.running[off]].computed / BLOCK <= n
    ensures CacheReady(trace, s, s.pool, n, off)
  {
    hide Held, Valid, Unshared;
  }

  lemma BookOwned(trace: seq<Request>, cfg: Config, s: EngineState, off: nat, c: Chunk)
    requires Defined(trace, s) && Owned(trace, cfg, s) && OwnKeys(trace, s) && Distinct(s.running)
    requires off < |s.running| && c.rid == s.running[off]
    requires (s.prog[c.rid].computed + c.tokens) / BLOCK <= |s.prog[c.rid].table|
    ensures var t := Book(trace, s, c); Owned(trace, cfg, t) && OwnKeys(trace, t)
  {
    hide Valid, Unshared, CacheFull, KeysFit, Book, Below;
    var n := (s.prog[c.rid].computed + c.tokens) / BLOCK;
    BookReady(trace, cfg, s, off, n);
    CacheFullReady(trace, s, s.pool, off, 0, n);
    BookEffect(trace, s, c);
    var t := Book(trace, s, c);
    HeldFrame(s.running, s.prog, t.prog);
    ReadyKeys(trace, s, t, n, off);
  }

  lemma BookEffect(trace: seq<Request>, s: EngineState, c: Chunk)
    requires Defined(trace, s) && c.rid in s.prog
    requires (s.prog[c.rid].computed + c.tokens) / BLOCK <= |s.prog[c.rid].table|
    ensures var t, p := Book(trace, s, c), s.prog[c.rid];
            && t.running == s.running && t.waiting == s.waiting && t.prog.Keys == s.prog.Keys
            && t.dispatched == s.dispatched && t.admitted == s.admitted && t.firsts == s.firsts
            && t.pool == CacheFull(trace, s.pool, c.rid, p.table, 0, (p.computed + c.tokens) / BLOCK)
            && (forall x :: x in s.prog && x != c.rid ==> t.prog[x] == s.prog[x])
            && t.prog[c.rid] == p.(computed := p.computed + c.tokens,
                 generated := if p.computed + c.tokens < Length(trace, s, c.rid) then p.generated else p.generated + 1)
  {
    hide CacheFull;
    assert Book(trace, s, c).prog.Keys == s.prog.Keys;
  }

  lemma ReadyKeys(trace: seq<Request>, s: EngineState, t: EngineState, n: nat, i: nat)
    requires Defined(trace, s) && Defined(trace, t) && CacheReady(trace, s, t.pool, n, i) && Distinct(s.running)
    requires t.running == s.running
    requires forall j :: 0 <= j < |s.running| ==> t.prog[s.running[j]].table == s.prog[s.running[j]].table
    requires forall j :: 0 <= j < |s.running| && j != i ==>
               t.prog[s.running[j]].computed == s.prog[s.running[j]].computed
    requires t.prog[s.running[i]].computed / BLOCK == n
    ensures OwnKeys(trace, t)
  {
    hide Valid, Unshared, Held;
  }

  /** `t` is `s` after the request of the next chunk has been served and stays. */
  ghost predicate StayedAt(s: EngineState, t: EngineState, off: nat, c: Chunk) {
    && off < |s.running| && c.rid == s.running[off] && c.rid in s.prog && Apart(s)
    && t.running == s.running && t.waiting == s.waiting && t.prog.Keys == s.prog.Keys
    && (forall y :: y in s.prog && y != c.rid ==> t.prog[y] == s.prog[y])
    && t.prog[c.rid].computed == s.prog[c.rid].computed + c.tokens && t.prog[c.rid].table == s.prog[c.rid].table
  }

  /** A served request that stays. */
  lemma StayRecords(trace: seq<Request>, s: EngineState, t: EngineState, off: nat, plan: seq<Chunk>)
    requires Defined(trace, s) && Defined(trace, t) && Records(trace, s) && Plans(trace, s, off, plan) && plan != []
    requires Apart(s) && t.running == s.running && t.waiting == s.waiting && t.prog.Keys == s.prog.Keys
    requires forall y :: y in s.prog && y != plan[0].rid ==> t.prog[y] == s.prog[y]
    requires var x := plan[0].rid;
             && t.prog[x].computed == s.prog[x].computed + plan[0].tokens && t.prog[x].table == s.prog[x].table
             && t.prog[x].doneAt.None? && t.prog[x].engineHit.Some? && Sound(trace[x], t.prog[x])
             && t.prog[x].computed < Length(trace, t, x)
    ensures Records(trace, t) && Plans(trace, t, off + 1, plan[1..])
  {
    assert StayedAt(s, t, off, plan[0]);
    StayPlans(trace, s, t, off, plan);
    hide Plans, Shape, Below;
    assert forall j :: 0 <= j < |t.waiting| ==> t.prog[t.waiting[j]] == s.prog[s.waiting[j]];
    assert forall j :: 0 <= j < |t.running| && j != off ==> t.prog[t.running[j]] == s.prog[s.running[j]];
  }

  lemma StayPlans(trace: seq<Request>, s: EngineState, t: EngineState, off: nat, plan: seq<Chunk>)
    requires Defined(trace, s) && Defined(trace, t) && Plans(trace, s, off, plan) && plan != []
    requires StayedAt(s, t, off, plan[0])
    ensures Plans(trace, t, off + 1, plan[1..])
  {
    hide CeilBlocks, Shape, Below;
    forall j | 0 <= j < |t.running|
      ensures (j != off ==> t.prog[t.running[j]] == s.prog[s.running[j]])
      ensures |t.prog[t.running[j]].table| == CeilBlocks(t.prog[t.running[j]].computed + Planned(off + 1, plan[1..], j))
    {
      assert |s.prog[s.running[j]].table| == CeilBlocks(s.prog[s.running[j]].computed + Planned(off, plan, j));
    }
    hide Planned;
    var rest := plan[1..];
    forall j | 0 <= j < |rest| ensures rest[j] == plan[j + 1] && rest[j].rid == t.running[off + 1 + j] {}
  }

  /** `t` is `s` after the request at running position `off` left. */
  ghost predicate LeftAt(s: EngineState, t: EngineState, off: nat) {
    && off < |s.running| && t.running == RemoveAt(s.running, off) && t.waiting == s.waiting
    && t.prog.Keys == s.prog.Keys && Distinct(s.running)
    && forall y :: y in s.prog && y != s.running[off] ==> t.prog[y] == s.prog[y]
  }

  lemma LeavePositions(trace: seq<Request>, s: EngineState, t: EngineState, off: nat)
    requires Defined(trace, s) && LeftAt(s, t, off)
    ensures forall j :: 0 <= j < |t.running| ==>
              var k := if j < off then j else j + 1;
              t.running[j] == s.running[k] && t.running[j] != s.running[off] && t.prog[t.running[j]] == s.prog[s.running[k]]
  {
    hide Shape, Below;
  }

  /** A served request that has finished. */
  lemma LeaveRecords(trace: seq<Request>, s: EngineState, t: EngineState, off: nat)
    requires Defined(trace, s) && Defined(trace, t) && Records(trace, s) && Apart(s) && LeftAt(s, t, off)
    requires Sound(trace[s.running[off]], t.prog[s.running[off]])
    ensures Records(trace, t)
  {
    LeavePositions(trace, s, t, off);
    hide Shape, Below, RemoveAt;
  }

  lemma LeaveShifts(off: nat, plan: seq<Chunk>, j: nat)
    requires plan != []
    ensures Planned(off, plan[1..], j) == Planned(off, plan, if j < off then j else j + 1)
  {
  }

  lemma LeavePlans(trace: seq<Request>, s: EngineState, t: EngineState, off: nat, plan: seq<Chunk>)
    requires Defined(trace, s) && Defined(trace, t) && Plans(trace, s, off, plan) && plan != [] && LeftAt(s, t, off)
    ensures Plans(trace, t, off, plan[1..])
  {
    LeavePositions(trace, s, t, off);
    assert |t.running| == |s.running| - 1;
    hide CeilBlocks, Shape, Below, LeftAt, RemoveAt, Distinct, Planned;
    var rest := plan[1..];
    forall j | 0 <= j < |rest| ensures rest[j] == plan[j + 1] && rest[j].rid == t.running[off + j] {
    }
    forall j | 0 <= j < |t.running|
      ensures |t.prog[t.running[j]].table| == CeilBlocks(t.prog[t.running[j]].computed + Planned(off, rest, j))
    {
      LeaveShifts(off, plan, j);
    }
  }

  lemma LeaveOrder(s: EngineState, t: EngineState, off: nat)
    requires Distinct(Order(s)) && off < |s.running|
    requires t.running == RemoveAt(s.running, off) && t.waiting == s.waiting
    ensures Order(t) == RemoveAt(Order(s), off) && Distinct(Order(t))
  {
    assert Order(t) == RemoveAt(Order(s), off);
    RemoveAtDistinct(Order(s), off);
  }

  /** Marking a first token touches no table. */
  lemma MarkFirstOwned(trace: seq<Request>, cfg: Config, s: EngineState, x: nat, now: int)
    requires Defined(trace, s) && Owned(trace, cfg, s) && OwnKeys(trace, s) && x in s.prog
    ensures var t := MarkFirst(s, x, now); Defined(trace, t) && Owned(trace, cfg, t) && OwnKeys(trace, t)
    ensures var t := MarkFirst(s, x, now); t.prog.Keys == s.prog.Keys
  {
    hide Valid, Unshared, Below, Shape;
    var t := MarkFirst(s, x, now);
    assert t.prog.Keys == s.prog.Keys;
    HeldFrame(s.running, s.prog, t.prog);
    hide Held, KeysFit;
  }

  lemma IndexUnique(s: seq<nat>, i: nat)
    requires Distinct(s) && i < |s|
    ensures IndexOf(s, s[i]) == i
  {
  }

  lemma LeaveOwned(trace: seq<Request>, cfg: Config, s: EngineState, off: nat, now: int)
    requires Defined(trace, s) && Owned(trace, cfg, s) && Distinct(s.running) && off < |s.running|
    ensures s.running[off] in s.running
    ensures var t, x := Leave(trace, s, s.running[off], now), s.running[off];
            && Defined(trace, t) && Owned(trace, cfg, t)
            && t.running == RemoveAt(s.running, off) && t.waiting == s.waiting && t.prog.Keys == s.prog.Keys
            && t.pool.key == s.pool.key && t.pool.cached == s.pool.cached && s.pool.free <= t.pool.free
            && (forall y :: y in s.prog && y != x ==> t.prog[y] == s.prog[y])
            && t.prog[x] == s.prog[x].(doneAt := Some(now), table := [])
            && t.dispatched == s.dispatched && t.admitted == s.admitted && t.firsts == s.firsts
  {
    hide Valid, Unshared, Below, Release, Held;
    var x := s.running[off];
    IndexUnique(s.running, off);
    var t := Leave(trace, s, x, now);
    HeldUpdate(s.running, off, s.prog, s.prog[x]);
    ReleaseValid(s.pool, Held(s.running, s.prog), s.prog[x].table);
    assert t.running == RemoveAt(s.running, off);
    RemoveAtDistinct(s.running, off);
    assert x !in t.running;
    assert t.prog.Keys == s.prog.Keys;
    LeaveDefined(trace, s, t, off);
    HeldFrame(t.running, s.prog, t.prog);
    assert Held(s.running, s.prog) - multiset(s.prog[x].table) == Held(t.running, t.prog);
  }

  lemma LeaveDefined(trace: seq<Request>, s: EngineState, t: EngineState, off: nat)
    requires Defined(trace, s) && off < |s.running| && t.running == RemoveAt(s.running, off) && t.waiting == s.waiting
    requires t.prog.Keys == s.prog.Keys && Shape(t.pool) && |t.pool.ref| == |s.pool.ref|
    requires forall y :: y in s.prog ==> t.prog[y].table == s.prog[y].table || t.prog[y].table == []
    ensures Defined(trace, t)
  {
    hide Shape;
  }

  lemma LeaveKeys(trace: seq<Request>, s: EngineState, t: EngineState, off: nat)
    requires Defined(trace, s) && Defined(trace, t) && OwnKeys(trace, s) && Distinct(s.running) && off < |s.running|
    requires t.running == RemoveAt(s.running, off) && t.pool.key == s.pool.key && |t.pool.ref| == |s.pool.ref|
    requires forall y :: y in s.prog && y != s.running[off] ==> y in t.prog && t.prog[y] == s.prog[y]
    ensures OwnKeys(trace, t)
  {
    forall j | 0 <= j < |t.running|
      ensures KeysFit(trace, t.pool, t.running[j], t.prog[t.running[j]].computed, t.prog[t.running[j]].table)
    {
      assert t.running[j] == s.running[if j < off then j else j + 1];
    }
  }
}
