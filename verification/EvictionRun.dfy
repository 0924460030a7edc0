/** replay as it runs: one object with the variables its closures share, each closure a method equal to its function. */
module EvictionRun {
  import opened Common
  import opened Division
  import opened OrderedChoices
  import opened OutputGaps
  import opened EvictionModel
  import opened EvictionPool
  import opened EvictionRound
  import opened EvictionStep
  import opened EvictionIterate
  import opened EvictionReplay

  // ---------------------------------------------------------------------------------------
  // Lists

  lemma {:induction false} KeepAppend(s: seq<nat>, x: nat, which: set<nat>)
    ensures Keep(s + [x], which) == Keep(s, which) + if x in which then [x] else []
  {
    if s == [] {
      assert s + [x] == [x] && [x][1..] == [];
    } else {
      var head := if s[0] in which then [s[0]] else [];
      var last := if x in which then [x] else [];
      assert (s + [x])[1..] == s[1..] + [x];
      KeepAppend(s[1..], x, which);
      assert head + (Keep(s[1..], which) + last) == (head + Keep(s[1..], which)) + last;
    }
  }

  lemma {:induction false} KeepSame(s: seq<nat>, a: set<nat>, b: set<nat>)
    requires forall x :: x in s ==> (x in a <==> x in b)
    ensures Keep(s, a) == Keep(s, b)
  {
    if s != [] { KeepSame(s[1..], a, b); }
  }

  lemma {:induction false} KeepKeep(s: seq<nat>, a: set<nat>, b: set<nat>)
    ensures Keep(Keep(s, a), b) == Keep(s, a * b)
  {
    if s != [] {
      KeepKeep(s[1..], a, b);
      var rest := Keep(s[1..], a);
      if s[0] in a { assert ([s[0]] + rest)[1..] == rest; }
      else { assert [] + rest == rest; }
    }
  }

  lemma HeadOnce(s: seq<nat>)
    requires Distinct(s) && s != []
    ensures s[0] !in s[1..] && Distinct(s[1..])
  {
    assert forall k :: 0 <= k < |s[1..]| ==> s[1..][k] == s[k + 1];
  }

  /** Removing one member of a list without duplicates. */
  lemma {:induction false} RemoveIsKeep(s: seq<nat>, x: nat)
    requires Distinct(s) && x in s
    ensures RemoveAt(s, IndexOf(s, x)) == Keep(s, Elements(s) - {x})
    decreases |s|
  {
    hide Distinct;
    HeadOnce(s);
    var rest := s[1..];
    assert s == [s[0]] + rest;
    var which := Elements(s) - {x};
    if s[0] == x {
      KeepAll(rest, which);
    } else {
      RemoveIsKeep(rest, x);
      KeepSame(rest, Elements(rest) - {x}, which);
      RemoveTail(s[0], rest, x);
    }
  }

  lemma RemoveTail(y: nat, rest: seq<nat>, x: nat)
    requires x in rest && x != y
    ensures var s := [y] + rest; x in s && RemoveAt(s, IndexOf(s, x)) == [y] + RemoveAt(rest, IndexOf(rest, x))
  {
    IndexShift(y, rest, x);
  }

  lemma RemoveOne(s: seq<nat>, which: set<nat>, x: nat)
    requires Distinct(s) && x in s && x in which
    ensures x in Keep(s, which)
    ensures RemoveAt(Keep(s, which), IndexOf(Keep(s, which), x)) == Keep(s, which - {x})
  {
    hide Keep;
    var kept := Keep(s, which);
    KeepDistinct(s, which);
    RemoveIsKeep(kept, x);
    KeepKeep(s, which, Elements(kept) - {x});
    KeepSame(s, which * (Elements(kept) - {x}), which - {x});
  }

  lemma IndexShift(y: nat, rest: seq<nat>, x: nat)
    requires x in rest && x != y
    ensures x in [y] + rest && IndexOf([y] + rest, x) == IndexOf(rest, x) + 1
  {
    assert ([y] + rest)[1..] == rest;
  }

  /** What is left of a list after taking out the first `k` of `gone`. */
  lemma WithoutNext(s: seq<nat>, gone: seq<nat>, k: nat)
    requires Distinct(s) && Distinct(gone) && k < |gone| && forall x :: x in gone ==> x in s
    ensures gone[k] in Without(s, gone[..k])
    ensures RemoveAt(Without(s, gone[..k]), IndexOf(Without(s, gone[..k]), gone[k])) == Without(s, gone[..k + 1])
  {
    hide Keep;
    var x := gone[k];
    assert gone[..k + 1] == gone[..k] + [x];
    assert x !in gone[..k];
    assert x in s && x in Elements(s) - Elements(gone[..k]);
    RemoveOne(s, Elements(s) - Elements(gone[..k]), x);
    assert Elements(s) - Elements(gone[..k + 1]) == (Elements(s) - Elements(gone[..k])) - {x};
  }

  lemma WithoutNone(s: seq<nat>)
    ensures Without(s, []) == s
  {
    assert Elements(s) - Elements([]) == Elements(s);
    KeepAll(s, Elements(s));
  }

  lemma {:induction false} KeepAll(s: seq<nat>, which: set<nat>)
    requires forall x :: x in s ==> x in which
    ensures Keep(s, which) == s
  {
    if s != [] { KeepAll(s[1..], which); }
  }

  /** The two lists `release` builds. */
  lemma ReleasedLists(ids: seq<nat>, idle: set<nat>, cached: set<nat>)
    ensures Keep(Keep(ids, idle), cached) == Keep(ids, idle * cached)
    ensures Without(Keep(ids, idle), Keep(Keep(ids, idle), cached)) == Keep(ids, idle - cached)
  {
    hide Keep;
    KeepKeep(ids, idle, cached);
    var kept := Keep(ids, idle);
    var gone := Elements(kept) - Elements(Keep(kept, cached));
    KeepKeep(ids, idle, gone);
    KeepSame(ids, idle * gone, idle - cached);
  }

  // ---------------------------------------------------------------------------------------
  // The object

  /** How a closure ends: normally, at an open choice, or with an error. */
  datatype Signal = Proceed | Open(candidates: seq<nat>, count: nat) | Failed(why: Failure)

  /** The signal and the state match the function's result. */
  ghost predicate Matches<T>(signal: Signal, now: T, r: Result<T>) {
    match r
    case Ok(v) => signal == Proceed && now == v
    case Choose(c, k) => signal == Open(c, k)
    case Fails(f) => signal == Failed(f)
  }

  class Replayer {
    const inst: Instance
    var identity: seq<Option<seq<int>>>
    var refs: seq<int>
    var free: seq<nat>
    var progress: seq<Progress>
    var running: seq<nat>
    var waiting: seq<nat>
    var released: set<nat>
    var time: int
    var used: seq<seq<nat>>

    ghost function Now(): World
      reads this
    {
      World(identity, refs, free, progress, running, waiting, released, time, used)
    }

    constructor (inst: Instance)
      requires inst.Valid()
      ensures this.inst == inst && Now() == Start(inst)
    {
      this.inst := inst;
      identity := if inst.initialCache == [] then seq(inst.capacity, _ => None) else inst.initialCache;
      refs := seq(inst.capacity, _ => 0);
      free := if inst.initialFree == [] then Range(inst.capacity) else inst.initialFree;
      progress := seq(|inst.requests|, _ => Untouched);
      running, waiting, released, time, used := [], [], {}, 0, [];
      new;
      assert identity == Start(inst).identity && refs == Start(inst).refs && progress == Start(inst).progress;
    }

    /** release. */
    method ReleaseBlocks(i: nat)
      requires i < |progress| && PoolInv(Now(), |refs|)
      modifies this`refs, this`free, this`progress
      ensures Now() == Release(old(Now()), i)
    {
      hide Keep, PoolInv, Release, Reverse;
      var table := progress[i].blocks;
      var ids := Reverse(table);
      TableSound(Now(), |refs|, i);
      ReverseDistinct(table);
      ghost var after := Shift(refs, table, -1);
      ghost var idle := IdleBlocks(after);
      ghost var kept := CachedBlocks(identity);
      var cached, uncached: seq<nat> := [], [];
      var counts := refs;
      for k := 0 to |ids|
        invariant Now() == old(Now()) && counts == Shift(refs, ids[..k], -1)
        invariant cached == Keep(ids[..k], idle * kept) && uncached == Keep(ids[..k], idle - kept)
      {
        var b := ids[k];
        assert b in table && b < |refs| == |identity|;
        counts := counts[b := counts[b] - 1];
        ShiftNext(refs, ids, k);
        assert counts[b] == after[b] by { assert b !in ids[..k]; }
        KeepAppend(ids[..k], b, idle * kept);
        KeepAppend(ids[..k], b, idle - kept);
        assert ids[..k + 1] == ids[..k] + [b];
        if counts[b] == 0 {
          if identity[b].Some? { cached := cached + [b]; } else { uncached := uncached + [b]; }
        }
      }
      assert ids[..|ids|] == ids;
      assert counts == after;
      ReleasedLists(ids, idle, kept);
      ReleaseIs(Now(), i);
      refs, free := counts, uncached + free + cached;
      progress := progress[i := progress[i].(blocks := [])];
    }

    /** The last loop of allocate: the chosen blocks lose their identity and join the table. */
    method TakeBlocks(i: nat, blocks: seq<nat>)
      requires i < |progress| && |identity| == |refs| && Distinct(free) && Distinct(blocks)
      requires forall b :: b in blocks ==> b in free && b < |refs|
      modifies this`refs, this`free, this`progress, this`identity
      ensures Now() == Take(old(Now()), i, blocks)
    {
      hide Without;
      ghost var w := Now();
      WithoutNone(free);
      ghost var table := progress[i].blocks;
      assert table + blocks[..0] == table;
      for k := 0 to |blocks|
        invariant Now() == w.(free := free, identity := identity, refs := refs, progress := progress)
        invariant free == Without(w.free, blocks[..k]) && |identity| == |refs| == |w.refs| && |progress| == |w.progress|
        invariant forall b :: 0 <= b < |refs| ==> identity[b] == if b in blocks[..k] then None else w.identity[b]
        invariant forall b :: 0 <= b < |refs| ==> refs[b] == if b in blocks[..k] then 1 else w.refs[b]
        invariant progress == w.progress[i := w.progress[i].(blocks := table + blocks[..k])]
      {
        var b := blocks[k];
        assert blocks[..k + 1] == blocks[..k] + [b];
        assert (table + blocks[..k]) + [b] == table + blocks[..k + 1];
        assert b in w.free && b < |refs|;
        WithoutNext(w.free, blocks, k);
        free := RemoveAt(free, IndexOf(free, b));
        identity, refs := identity[b := None], refs[b := 1];
        progress := progress[i := progress[i].(blocks := progress[i].blocks + [b])];
      }
      assert blocks[..|blocks|] == blocks;
      TakeIs(w, i, blocks, Now());
    }

    /** allocate. */
    method AllocateBlocks(i: nat, count: int, script: Option<seq<seq<nat>>>) returns (signal: Signal)
      requires i < |progress| && PoolInv(Now(), |refs|)
      modifies this`refs, this`free, this`progress, this`identity, this`used
      ensures Matches(signal, Now(), Allocate(old(Now()), i, count, script))
    {
      hide Keep, Choices, LegalVictims, Mix, Take, PoolInv;
      if count == 0 { return Proceed; }
      if count < 0 || count > |free| { return Failed(Unfit); }
      ghost var w := Now();
      PoolDistinct(w, |refs|);
      var cached := CachedBlocks(identity);
      var stock := free[..count];
      var candidates := Keep(free, cached);
      var selected := Keep(stock, cached);
      var victims := |selected|;
      StockLegal(w, count);
      if Choices(|candidates|, victims) > 1 {
        if script.Some? {
          if |used| >= |script.value| { return Open(candidates, victims); }
          selected := script.value[|used|];
          if !LegalVictims(selected, candidates, victims) { return Failed(IllegalVictims); }
        }
        used := used + [selected];
      }
      MixFree(w, |refs|, count, selected);
      TakeBlocks(i, Mix(stock, cached, selected));
      signal := Proceed;
    }

    /** hits. */
    method FindHits(i: nat) returns (found: seq<nat>)
      requires i < |inst.requests| && inst.blockSize > 0
      ensures found == Hits(inst.blockSize, inst.requests[i], identity, 0)
    {
      found := [];
      var r := inst.requests[i];
      var pos: nat := 0;
      while pos < r.input && pos < (r.input - 1) / inst.blockSize
        invariant found + Hits(inst.blockSize, r, identity, pos) == Hits(inst.blockSize, r, identity, 0)
        decreases r.input - pos
      {
        var block := Find(identity, Lead(r.hashes, pos + 1));
        if block.None? { return; }
        found := found + [block.value];
        pos := pos + 1;
      }
    }

    /** preempt. */
    method PreemptRequest(i: nat)
      requires i < |progress| && i in running && PoolInv(Now(), |refs|)
      modifies this`refs, this`free, this`progress, this`running, this`waiting
      ensures Now() == Preempt(old(Now()), i)
    {
      hide Release, PoolInv;
      ReleaseBlocks(i);
      ReleaseShape(old(Now()), i);
      progress := progress[i := progress[i].(computed := 0, preemptions := progress[i].preemptions + 1)];
      running := RemoveAt(running, IndexOf(running, i));
      waiting := [i] + waiting;
    }

    /** The last running request gives way, and a service already planned for it is rolled back. */
    method PreemptTail(budget: int, services: seq<Service>, preempted: bool) returns (left: int, kept: seq<Service>)
      requires PoolInv(Now(), |refs|) && Listing(Now()) && running != []
      modifies this`refs, this`free, this`progress, this`running, this`waiting
      ensures Round(Now(), left, kept, true) == PreemptLast(Round(old(Now()), budget, services, preempted))
      ensures PoolInv(Now(), |refs|) && |refs| == old(|refs|)
    {
      hide PoolInv, Preempt;
      ghost var w := Now();
      ListingParts(w);
      var victim := running[|running| - 1];
      var previous := Planned(services, victim);
      left, kept := budget, services;
      if previous.Some? {
        left := left + kept[previous.value].tokens;
        kept := RemoveAt(kept, previous.value);
      }
      PreemptPool(w, |refs|, victim);
      PreemptRefs(w, victim);
      PreemptRequest(victim);
    }

    /** The preemption loop for one running request. */
    method FreeUp(i: nat, need: int, budget: int, services: seq<Service>, preempted: bool)
      returns (left: int, kept: seq<Service>, had: bool)
      requires PoolInv(Now(), |refs|) && Listing(Now()) && i in running
      modifies this`refs, this`free, this`progress, this`running, this`waiting
      ensures Round(Now(), left, kept, had) == MakeRoom(Round(old(Now()), budget, services, preempted), i, need)
      ensures PoolInv(Now(), |refs|) && |refs| == old(|refs|)
    {
      hide PoolInv, Preempt, Listing, PreemptLast;
      left, kept, had := budget, services, preempted;
      while need > |free|
        invariant PoolInv(Now(), |refs|) && Listing(Now()) && i in running && |refs| == old(|refs|)
        invariant MakeRoom(Round(Now(), left, kept, had), i, need) == MakeRoom(Round(old(Now()), budget, services, preempted), i, need)
        decreases |running|
      {
        ghost var w := Now();
        var victim := running[|running| - 1];
        left, kept := PreemptTail(left, kept, had);
        had := true;
        if victim == i { return; }
        StillRuns(w, Now(), i, victim);
      }
    }

    // -------------------------------------------------------------------------------------
    // The planning loops

    /** Allocation for one request, and its service. */
    method GrowOne(i: nat, n: int, need: int, prefill: bool, budget: int, services: seq<Service>, preempted: bool,
                   script: Option<seq<seq<nat>>>) returns (signal: Signal, left: int, planned: seq<Service>)
      requires i < |progress| && PoolInv(Now(), |refs|)
      modifies this`refs, this`free, this`progress, this`identity, this`used
      ensures Matches(signal, Round(Now(), left, planned, preempted),
                      Grow(Round(old(Now()), budget, services, preempted), i, n, need, prefill, script))
    {
      hide Allocate, PoolInv;
      left, planned := budget, services;
      var context := progress[i].computed;
      signal := AllocateBlocks(i, need, script);
      if signal.Proceed? {
        planned := planned + [Service(i, prefill, n, context)];
        left := left - n;
      }
    }

    /** One turn of the running loop. */
    method RunTurn(i: nat, budget: int, services: seq<Service>, preempted: bool, script: Option<seq<seq<nat>>>)
      returns (signal: Signal, left: int, planned: seq<Service>, had: bool)
      requires Fitting(inst, Now()) && i < |inst.requests| && PoolInv(Now(), |refs|)
      modifies this
      ensures Matches(signal, Round(Now(), left, planned, had), RunOne(inst, Round(old(Now()), budget, services, preempted), i, script))
    {
      hide Grow, MakeRoom, PoolInv, Ceil;
      signal, left, planned, had := Proceed, budget, services, preempted;
      if i !in running || budget == 0 { return; }
      var p, request := progress[i], inst.requests[i];
      var target := request.input + |p.outputs|;
      var n := Min(Min(budget, if p.computed < request.input then inst.prefillChunk else 1), target - p.computed);
      var need := Ceil(p.computed + n, inst.blockSize) - |p.blocks|;
      assert n == Tokens(inst, Round(Now(), budget, services, preempted), i) && need == Growth(inst, Now(), i, n);
      left, planned, had := FreeUp(i, need, budget, services, preempted);
      if i !in running { return; }
      signal, left, planned := GrowOne(i, n, need, p.computed < request.input, left, planned, had, script);
    }

    /** The running loop over a copy of the list. */
    method RunLoop(script: Option<seq<seq<nat>>>) returns (signal: Signal, left: int, planned: seq<Service>, had: bool)
      requires Opened(inst, Now())
      modifies this
      ensures Fitting(inst, old(Now())) && Below(old(running), |inst.requests|)
      ensures Matches(signal, Round(Now(), left, planned, had),
                      RunAll(inst, Round(old(Now()), inst.tokenBudget, [], false), old(running), script))
      ensures signal == Proceed ==> RoundInv(inst, Round(Now(), left, planned, had))
    {
      hide RunOne, RoundInv, PoolInv, Queued, OthersIdle, AllHolding, Batched, KeepsComputed, SameScript, Queue;
      signal, left, planned, had := Proceed, inst.tokenBudget, [], false;
      ghost var start := Round(Now(), left, planned, had);
      var all := running;
      assert RoundInv(inst, start) by { StartRound(inst, start); }
      RoundListing(inst, start);
      assert all[0..] == all;
      for k := 0 to |all|
        invariant signal == Proceed && Passing(inst, Round(Now(), left, planned, had), all, k)
        invariant Fitting(inst, Now()) && RunAll(inst, Round(Now(), left, planned, had), all[k..], script) == RunAll(inst, start, all, script)
      {
        ghost var st := Round(Now(), left, planned, had);
        RoundPoolRefs(inst, st);
        RunOneKeeps(inst, st, all, k, script);
        assert all[k..][0] == all[k] && all[k..][1..] == all[k + 1..];
        signal, left, planned, had := RunTurn(all[k], left, planned, had, script);
        if signal != Proceed { return; }
      }
      assert all[|all|..] == [];
      RunNone(inst, Round(Now(), left, planned, had), script);
    }

    /** Admission of the first waiting request. */
    method AdmitFirst(hits: seq<nat>, budget: int, services: seq<Service>, preempted: bool, script: Option<seq<seq<nat>>>)
      returns (signal: Signal, left: int, planned: seq<Service>)
      requires RoundInv(inst, Round(Now(), budget, services, preempted)) && waiting != [] && budget > 0
      requires waiting[0] < |progress| == |inst.requests| && hits == Hits(inst.blockSize, inst.requests[waiting[0]], identity, 0)
      modifies this
      ensures Fitting(inst, old(Now()))
      ensures Matches(signal, Round(Now(), left, planned, preempted),
                      AdmitOne(inst, Round(old(Now()), budget, services, preempted), hits, script))
    {
      hide Grow, PoolInv, Queued, OthersIdle, AllHolding, Batched, Hits, Keep, Ceil, Shift;
      ghost var st := Round(Now(), budget, services, preempted);
      RoundListing(inst, st);
      WaitingFresh(inst, st);
      RoundPoolRefs(inst, st);
      HitsFound(inst, st.world, waiting[0]);
      var i := waiting[0];
      HoldKeeps(inst, Now(), i, hits);
      HoldLoop(i, hits);
      var p := progress[i];
      var n := Min(Min(budget, inst.prefillChunk), inst.requests[i].input + |p.outputs| - p.computed);
      assert n == FirstChunk(inst, budget, Now(), i);
      var need := Ceil(p.computed + n, inst.blockSize) - |p.blocks|;
      ghost var held := Now();
      signal, left, planned := GrowOne(i, n, need, true, budget, services, preempted, script);
      AdmitOneIs(inst, st, hits, script, held, n);
      if signal == Proceed {
        waiting := waiting[1..];
        running := running + [i];
      }
    }

    /** The hits leave `free` if they are idle, and gain a reference. */
    method HoldBlocks(hits: seq<nat>)
      requires Distinct(hits) && Below(hits, |refs|) && FreeIsIdle(free, refs)
      modifies this`refs, this`free
      ensures refs == Shift(old(refs), hits, 1) && free == Without(old(free), Keep(hits, IdleBlocks(old(refs))))
    {
      hide Keep, Without, IdleBlocks;
      ghost var w := Now();
      ghost var idle := IdleBlocks(refs);
      WithoutNone(free);
      for k := 0 to |hits|
        invariant refs == Shift(w.refs, hits[..k], 1) && free == Without(w.free, Keep(hits[..k], idle))
      {
        var b := hits[k];
        assert hits[..k + 1] == hits[..k] + [b] && b !in hits[..k];
        KeepAppend(hits[..k], b, idle);
        IdleAt(w.refs, b);
        assert refs[b] == w.refs[b];
        assert Keep(hits[..k], idle) + [] == Keep(hits[..k], idle);
        if refs[b] == 0 {
          HoldNext(w, hits, k);
          free := RemoveAt(free, IndexOf(free, b));
        }
        HitNext(w.refs, hits, k);
        refs := refs[b := refs[b] + 1];
      }
      assert hits[..|hits|] == hits;
    }

    /** The request takes over the cached blocks of its prompt. */
    method HoldLoop(i: nat, hits: seq<nat>)
      requires i < |progress| && inst.blockSize > 0 && Distinct(hits) && Below(hits, |refs|) && FreeIsIdle(free, refs)
      modifies this`refs, this`free, this`progress
      ensures Now() == Hold(inst, old(Now()), i, hits)
    {
      hide Keep, Without, IdleBlocks, Shift;
      HoldBlocks(hits);
      progress := progress[i := progress[i].(blocks := hits)];
      progress := progress[i := progress[i].(computed := |hits| * inst.blockSize)];
      progress := progress[i := progress[i].(cachedTokens := progress[i].cachedTokens + progress[i].computed)];
    }

    /** The gate before the first waiting request: its whole target, its idle hits protected. */
    method Gate(hits: seq<nat>) returns (fits: bool)
      requires Fitting(inst, Now()) && waiting != [] && waiting[0] < |inst.requests|
      requires hits == Hits(inst.blockSize, inst.requests[waiting[0]], identity, 0)
      ensures fits == PromptFits(inst, Now())
    {
      hide Hits, Keep, Ceil;
      var i := waiting[0];
      var target := inst.requests[i].input + |progress[i].outputs|;
      var protected := |Keep(hits, IdleBlocks(refs))|;
      fits := Ceil(target, inst.blockSize) - |hits| + protected <= |free|;
    }

    /** The admission loop. */
    method AdmitLoop(budget: int, services: seq<Service>, preempted: bool, script: Option<seq<seq<nat>>>)
      returns (signal: Signal, left: int, planned: seq<Service>)
      requires RoundInv(inst, Round(Now(), budget, services, preempted))
      modifies this
      ensures Fitting(inst, old(Now()))
      ensures Matches(signal, Round(Now(), left, planned, preempted), AdmitAll(inst, Round(old(Now()), budget, services, preempted), script))
    {
      hide RoundInv, AdmitOne, PromptFits, Hits;
      signal, left, planned := Proceed, budget, services;
      ghost var start := Round(Now(), left, planned, preempted);
      RoundListing(inst, start);
      while waiting != [] && left != 0 && |running| < inst.maxSequences
        invariant signal == Proceed && RoundInv(inst, Round(Now(), left, planned, preempted)) && Fitting(inst, Now())
        invariant AdmitAll(inst, Round(Now(), left, planned, preempted), script) == AdmitAll(inst, start, script)
        decreases |waiting|
      {
        ghost var st := Round(Now(), left, planned, preempted);
        RoundListing(inst, st);
        ListingParts(st.world);
        BudgetOK(inst, st);
        var hits := FindHits(waiting[0]);
        var fits := Gate(hits);
        if !fits { return; }
        AdmitOneKeeps(inst, st, script);
        signal, left, planned := AdmitFirst(hits, left, planned, preempted, script);
        if signal != Proceed { return; }
        RoundListing(inst, Round(Now(), left, planned, preempted));
      }
    }

    /** Both planning loops: admissions only when nothing was preempted. */
    method Plan(script: Option<seq<seq<nat>>>) returns (signal: Signal, left: int, planned: seq<Service>, had: bool)
      requires Opened(inst, Now())
      modifies this
      ensures Fitting(inst, old(Now()))
      ensures Matches(signal, Round(Now(), left, planned, had), Schedule(inst, old(Now()), script))
    {
      hide RunAll, AdmitAll, Opened, RoundInv;
      signal, left, planned, had := RunLoop(script);
      if signal == Proceed && !had {
        signal, left, planned := AdmitLoop(left, planned, had, script);
      }
    }

    // -------------------------------------------------------------------------------------
    // The rest of the iteration

    /** Arrivals join the queue in order. */
    method Arrive()
      modifies this`waiting, this`released
      ensures Now() == Enqueue(inst, old(Now()))
    {
      var arrived := ArrivalList();
      waiting := waiting + arrived;
      released := released + Elements(arrived);
    }

    method ArrivalList() returns (arrived: seq<nat>)
      ensures arrived == Arrivals(inst, Now(), |inst.requests|)
    {
      arrived := [];
      for n := 0 to |inst.requests|
        invariant arrived == Arrivals(inst, Now(), n)
      {
        if n !in released && inst.requests[n].arrival <= time { arrived := Insert(inst, arrived, n); }
      }
    }

    /** One service: tokens computed, full prompt blocks named, an output if the target is reached. */
    method ServeOne(s: Service, end: int)
      requires s.index < |inst.requests| == |progress| && inst.blockSize > 0 && s.tokens >= 0
      modifies this`identity, this`progress
      ensures Now() == Serve(inst, old(Now()), s, end)
    {
      var r, p := inst.requests[s.index], progress[s.index];
      var computed: nat := p.computed + s.tokens;
      var full := Min(computed, r.input) / inst.blockSize;
      ghost var before := identity;
      var pos := 0;
      while pos < full
        invariant 0 <= pos <= full && identity == Stamp(before, p.blocks, r.hashes, pos)
        invariant progress == old(progress)
      {
        if pos < |p.blocks| && p.blocks[pos] < |identity| {
          identity := identity[p.blocks[pos] := Some(Lead(r.hashes, pos + 1))];
        }
        pos := pos + 1;
      }
      var target := r.input + |p.outputs|;
      p := p.(computed := computed);
      if p.computed >= target {
        p := p.(outputs := p.outputs + [end]);
        if |p.outputs| == r.output { p := p.(completed := Some(end)); }
      }
      progress := progress[s.index := p];
    }

    method ServeBatch(services: seq<Service>, end: int)
      requires |progress| == |inst.requests| && inst.blockSize > 0 && Servable(inst, services)
      modifies this`identity, this`progress
      ensures Now() == ServeAll(inst, old(Now()), services, end)
    {
      hide Serve;
      ghost var start := Now();
      for k := 0 to |services|
        invariant |progress| == |inst.requests| && Now() == start.(identity := identity, progress := progress)
        invariant ServeAll(inst, Now(), services[k..], end) == ServeAll(inst, start, services, end)
      {
        assert services[k..][0] == services[k] && services[k..][1..] == services[k + 1..];
        ServeRecord(inst, Now(), services[k], end);
        ServeOne(services[k], end);
      }
      assert services[|services|..] == [];
    }

    /** Completed requests give their blocks back and leave. */
    method FinishBatch()
      requires Leaving(inst, Now())
      modifies this`refs, this`free, this`progress, this`running
      ensures Now() == FinishAll(old(Now()), old(running))
    {
      hide Leaving, Finish, Release;
      ghost var start := Now();
      var all := running;
      LeavingListing(inst, start);
      for k := 0 to |all|
        invariant Leaving(inst, Now()) && |progress| == |start.progress|
        invariant forall m :: k <= m < |all| ==> all[m] in running
        invariant Now() == start.(refs := refs, free := free, progress := progress, running := running)
        invariant FinishAll(Now(), all[k..]) == FinishAll(start, all)
      {
        ghost var w := Now();
        assert all[k..][0] == all[k] && all[k..][1..] == all[k + 1..];
        if progress[all[k]].completed.Some? {
          LeavingPool(inst, w);
          FinishLeaving(inst, w, all[k]);
          FinishRecord(w, all[k]);
          LeavingListing(inst, w);
          RemoveAtDistinct(running, IndexOf(running, all[k]));
          ReleaseShape(w, all[k]);
          FinishIs(w, all[k]);
          ReleaseBlocks(all[k]);
          running := RemoveAt(running, IndexOf(running, all[k]));
        }
      }
      assert all[|all|..] == [];
    }

    /** After planning: idle jump, or service, release and the deadline check. */
    method Close(services: seq<Service>, budget: int, had: bool, limits: Option<seq<Limit>>) returns (signal: Signal)
      requires RoundInv(inst, Round(Now(), budget, services, had)) && (limits.Some? ==> |limits.value| == |inst.requests|)
      modifies this
      ensures inst.blockSize > 0 && |old(progress)| == |inst.requests|
      ensures Matches(signal, Now(), Settle(inst, Round(old(Now()), budget, services, had), limits))
    {
      hide RoundInv, FinishAll, ServeAll, Late, Leaving, Future, Servable;
      ghost var st := Round(Now(), budget, services, had);
      ServableRound(inst, st);
      if services == [] {
        if running != [] || waiting != [] { return Failed(if had then ZeroService else NoProgress); }
        var future := Future(inst, World(identity, refs, free, progress, running, waiting, released, time, used));
        if future == {} { return Failed(NoFuture); }
        LeastExists(future);
        var next :| next in future && IsLeast(future, next);
        time := next;
        return Proceed;
      }
      var cost := Duration(inst, services);
      if cost.None? { return Failed(MissingCost); }
      var end := time + cost.value;
      ServeLeaving(inst, st, end);
      ServeBatch(services, end);
      FinishBatch();
      time := end;
      if limits.Some? {
        var late := CheckLimits(limits.value);
        if late { return Failed(Deadline); }
      }
      signal := Proceed;
    }

    method CheckLimits(limits: seq<Limit>) returns (late: bool)
      requires |limits| == |progress| == |inst.requests|
      ensures late == Late(inst, Now(), limits)
    {
      hide Breaks;
      late := false;
      for i := 0 to |limits|
        invariant forall k :: 0 <= k < i ==> !Breaks(inst.requests[k], progress[k], time, limits[k])
      {
        if Breaks(inst.requests[i], progress[i], time, limits[i]) { return true; }
      }
    }

    /** One turn of the main loop. */
    method Turn(script: Option<seq<seq<nat>>>, limits: Option<seq<Limit>>) returns (signal: Signal)
      requires Inv(inst, Now()) && (limits.Some? ==> |limits.value| == |inst.requests|)
      modifies this
      ensures Fitting(inst, Enqueue(inst, old(Now())))
      ensures Matches(signal, Now(), Iterate(inst, old(Now()), script, limits))
    {
      hide Inv, Schedule, Settle, Opened, Enqueue, RoundInv;
      ghost var w := Now();
      EnqueueOpened(inst, w);
      Arrive();
      ScheduleKeeps(inst, Now(), script);
      ghost var q := Now();
      var left, planned, had;
      signal, left, planned, had := Plan(script);
      if signal == Proceed {
        signal := Close(planned, left, had, limits);
      }
    }

    /** replay: the main loop until every request is complete. */
    method Run(script: Option<seq<seq<nat>>>, limits: Option<seq<Limit>>) returns (r: Result<World>)
      requires inst.Valid() && Now() == Start(inst) && (limits.Some? ==> |limits.value| == |inst.requests|)
      modifies this
      ensures r == FullReplay(inst, script, limits)
    {
      hide Inv, Iterate, Start, Progressed, Replay, Finished, Enqueue;
      ghost var start := Now();
      StartInv(inst);
      var steps := 0;
      var bound := StepLimit();
      while !AllComplete()
        invariant Inv(inst, Now()) && steps >= 0
        invariant Replay(inst, Now(), script, limits, steps) == Replay(inst, start, script, limits, 0)
        decreases Measure(inst, Now())
      {
        ghost var w := Now();
        ReplayNext(inst, w, script, limits, steps);
        if limits.None? && steps + 1 > bound { return Fails(StepBound); }
        steps := steps + 1;
        var signal := Turn(script, limits);
        match signal
        case Open(candidates, count) => return Choose(candidates, count);
        case Failed(why) => return Fails(why);
        case Proceed => MeasureDrops(inst, w, Now());
      }
      ReplayDone(inst, Now(), script, limits, steps);
      if script.Some? && |used| != |script.value| { return Fails(UnusedActions); }
      r := Ok(World(identity, refs, free, progress, running, waiting, released, time, used));
    }

    function AllComplete(): (b: bool)
      reads this
      ensures b == Finished(Now())
    {
      forall i | 0 <= i < |progress| :: progress[i].completed.Some?
    }

    method StepLimit() returns (bound: nat)
      ensures bound == 100 * TokensUpTo(inst, |inst.requests|)
    {
      var tokens := 0;
      for i := 0 to |inst.requests|
        invariant tokens == TokensUpTo(inst, i)
      {
        tokens := tokens + inst.requests[i].input + inst.requests[i].output;
      }
      bound := 100 * tokens;
    }
  }

  lemma LeavingPool(inst: Instance, w: World)
    requires Leaving(inst, w)
    ensures PoolInv(w, |w.refs|)
  {}

  lemma FinishIs(w: World, i: nat)
    requires i < |w.progress| && i in w.running
    ensures Finish(w, i) == Release(w, i).(running := RemoveAt(w.running, IndexOf(w.running, i)))
  {
    ReleaseShape(w, i);
  }

  lemma HoldNext(w: World, hits: seq<nat>, k: nat)
    requires Distinct(hits) && k < |hits| && Below(hits, |w.refs|) && FreeIsIdle(w.free, w.refs) && w.refs[hits[k]] == 0
    ensures var idle := IdleBlocks(w.refs);
            var free := Without(w.free, Keep(hits[..k], idle));
            && hits[k] in free
            && RemoveAt(free, IndexOf(free, hits[k])) == Without(w.free, Keep(hits[..k], idle) + [hits[k]])
  {
    hide Keep;
    var idle := IdleBlocks(w.refs);
    var gone := Keep(hits[..k], idle) + [hits[k]];
    KeepDistinct(hits[..k], idle);
    assert hits[k] !in hits[..k];
    DistinctConcat(Keep(hits[..k], idle), [hits[k]]);
    assert gone[..|gone| - 1] == Keep(hits[..k], idle) && gone[..|gone|] == gone;
    WithoutNext(w.free, gone, |gone| - 1);
  }

  lemma IdleAt(refs: seq<int>, b: nat)
    requires b < |refs|
    ensures b in IdleBlocks(refs) <==> refs[b] == 0
  {}

  lemma HitNext(refs: seq<int>, hits: seq<nat>, k: nat)
    requires k < |hits| && hits[k] < |refs| && Distinct(hits)
    ensures Shift(refs, hits[..k], 1)[hits[k] := Shift(refs, hits[..k], 1)[hits[k]] + 1] == Shift(refs, hits[..k + 1], 1)
  {
    assert hits[k] !in hits[..k];
    assert hits[..k + 1] == hits[..k] + [hits[k]];
  }

  lemma StartRound(inst: Instance, st: Round)
    requires Opened(inst, st.world) && st.services == [] && st.budget == inst.tokenBudget && !st.preempted
    ensures RoundInv(inst, st)
  {
    NoServices(st.world);
  }

  lemma RoundPoolRefs(inst: Instance, st: Round)
    requires RoundInv(inst, st)
    ensures PoolInv(st.world, |st.world.refs|) && |st.world.refs| == inst.capacity && FreeIsIdle(st.world.free, st.world.refs)
  {}

  lemma AdmitOneIs(inst: Instance, st: Round, hits: seq<nat>, script: Option<seq<seq<nat>>>, held: World, n: int)
    requires Fitting(inst, st.world) && st.world.waiting != [] && st.world.waiting[0] < |st.world.progress|
    requires held == Hold(inst, st.world, st.world.waiting[0], hits) && n == FirstChunk(inst, st.budget, held, st.world.waiting[0])
    ensures st.world.waiting[0] < |held.progress|
    ensures var i := st.world.waiting[0];
            var r := AdmitOne(inst, st, hits, script);
            match Grow(st.(world := held), i, n, Growth(inst, held, i, n), true, script)
            case Ok(next) => r == Ok(next.(world := next.world.(waiting := next.world.waiting[1..], running := next.world.running + [i])))
            case Choose(c, k) => r == Choose(c, k)
            case Fails(f) => r == Fails(f)
  {
    hide Grow, Growth, FirstChunk;
  }

  lemma StillRuns(w: World, r: World, i: nat, victim: nat)
    requires i in w.running && w.running != [] && victim == w.running[|w.running| - 1] != i
    requires r.running == w.running[..|w.running| - 1]
    ensures i in r.running
  {
    assert r.running[IndexOf(w.running, i)] == i;
  }

  lemma PreemptRefs(w: World, i: nat)
    requires i < |w.progress| && i in w.running
    ensures |Preempt(w, i).refs| == |w.refs|
  {}

  lemma TakeIs(w: World, i: nat, blocks: seq<nat>, r: World)
    requires i < |w.progress| && |w.identity| == |w.refs| == |r.identity| == |r.refs|
    requires r == w.(free := Without(w.free, blocks), identity := r.identity, refs := r.refs,
                     progress := w.progress[i := w.progress[i].(blocks := w.progress[i].blocks + blocks)])
    requires forall b :: 0 <= b < |r.refs| ==> r.identity[b] == if b in blocks then None else w.identity[b]
    requires forall b :: 0 <= b < |r.refs| ==> r.refs[b] == if b in blocks then 1 else w.refs[b]
    ensures r == Take(w, i, blocks)
  {
    assert r.identity == Take(w, i, blocks).identity;
    assert r.refs == Take(w, i, blocks).refs;
  }

  lemma MixFree(w: World, capacity: nat, count: nat, selected: seq<nat>)
    requires PoolInv(w, capacity) && count <= |w.free|
    requires var cached := CachedBlocks(w.identity); LegalVictims(selected, Keep(w.free, cached), |Keep(w.free[..count], cached)|)
    ensures |Keep(w.free[..count], CachedBlocks(w.identity))| == |selected| && |w.identity| == |w.refs|
    ensures var m := Mix(w.free[..count], CachedBlocks(w.identity), selected);
            Distinct(m) && forall b :: b in m ==> b in w.free && b < |w.refs|
  {
    hide Keep, Holders;
    var cached := CachedBlocks(w.identity);
    DistinctByCount(selected);
    forall v | v in selected ensures v in cached && v in w.free {
      assert v in Elements(selected);
      assert v in Elements(Keep(w.free, cached));
    }
    MixOK(w.free[..count], cached, selected);
    forall b | b in Mix(w.free[..count], cached, selected) ensures b in w.free {
      if b in w.free[..count] { assert w.free[IndexOf(w.free[..count], b)] == b; }
    }
  }

  lemma ReleaseShape(w: World, i: nat)
    requires i < |w.progress|
    ensures var r := Release(w, i);
            |r.progress| == |w.progress| && r.running == w.running && r.waiting == w.waiting && |r.refs| == |w.refs|
  {}

  lemma TableSound(w: World, capacity: nat, i: nat)
    requires PoolInv(w, capacity) && i < |w.progress|
    ensures Distinct(w.progress[i].blocks) && |w.identity| == |w.refs| == capacity
    ensures forall b :: b in w.progress[i].blocks ==> b < capacity
  {}

  lemma ShiftNext(refs: seq<int>, ids: seq<nat>, k: nat)
    requires k < |ids| && ids[k] < |refs| && Distinct(ids)
    ensures Shift(refs, ids[..k], -1)[ids[k] := Shift(refs, ids[..k], -1)[ids[k]] - 1] == Shift(refs, ids[..k + 1], -1)
  {
    assert ids[k] !in ids[..k];
    assert ids[..k + 1] == ids[..k] + [ids[k]];
  }

  lemma ReleaseIs(w: World, i: nat)
    requires i < |w.progress|
    ensures var idle := Keep(Reverse(w.progress[i].blocks), IdleBlocks(Shift(w.refs, w.progress[i].blocks, -1)));
            var cached := CachedBlocks(w.identity);
            Release(w, i) == w.(refs := Shift(w.refs, w.progress[i].blocks, -1),
                                free := Without(idle, Keep(idle, cached)) + w.free + Keep(idle, cached),
                                progress := w.progress[i := w.progress[i].(blocks := [])])
  {}
}
