/** finish_step as a whole. */
module FinishLoops {
  import opened Common
  import opened BlockPool
  import opened Scheduling
  import opened ScheduleSteps
  import opened FinishSteps

  /** The next chunk, booked and marked. */
  function Served(trace: seq<Request>, cfg: Config, s: EngineState, off: nat, plan: seq<Chunk>, now: int): (o: Outcome)
    requires Pending(trace, cfg, s, off, plan)
  {
    PendingChunk(trace, cfg, s, off, plan);
    assert plan[0].rid in s.running;
    FinishOne(trace, s, plan[0], now)
  }

  /** Whether the next chunk completes its request's current sequence, and its output. */
  predicate Completes(trace: seq<Request>, cfg: Config, s: EngineState, off: nat, plan: seq<Chunk>)
    requires Pending(trace, cfg, s, off, plan)
  {
    PendingChunk(trace, cfg, s, off, plan);
    s.prog[plan[0].rid].computed + plan[0].tokens == Length(trace, s, plan[0].rid)
  }

  predicate Leaves(trace: seq<Request>, cfg: Config, s: EngineState, off: nat, plan: seq<Chunk>)
    requires Pending(trace, cfg, s, off, plan)
  {
    PendingChunk(trace, cfg, s, off, plan);
    Completes(trace, cfg, s, off, plan) && s.prog[plan[0].rid].generated + 1 == trace[plan[0].rid].outputLen
  }

  /** What the next chunk does to the engine's records. */
  ghost predicate ServedRecord(s: EngineState, o: Outcome, c: Chunk, completes: bool, leaves: bool, now: int) {
    && c.rid in s.prog && o.s.prog.Keys == s.prog.Keys
    && (forall y :: y in s.prog && y != c.rid ==> o.s.prog[y] == s.prog[y])
    && o.s.waiting == s.waiting && o.s.dispatched == s.dispatched && o.s.admitted == s.admitted
    && var p, q := s.prog[c.rid], o.s.prog[c.rid];
    && q.computed == p.computed + c.tokens && q.engineHit == p.engineHit && q.preempted == p.preempted
    && q.generated == p.generated + (if completes then 1 else 0)
    && (leaves ==> completes)
    && q.doneAt == (if leaves then Some(now) else p.doneAt)
    && (if completes && p.firstAt.None?
        then q.firstAt == Some(now) && o.s.firsts == s.firsts + [c.rid]
             && o.calls == [First(c.rid)] + (if leaves then [Done(c.rid)] else [])
        else q.firstAt == p.firstAt && o.s.firsts == s.firsts
             && o.calls == (if leaves then [Done(c.rid)] else []))
  }

  /** The state after a completed sequence has been booked and its first token marked. */
  function Marked(trace: seq<Request>, cfg: Config, s: EngineState, off: nat, plan: seq<Chunk>, now: int): (u: EngineState)
    requires Pending(trace, cfg, s, off, plan)
    ensures Defined(trace, u)
  {
    PendingChunk(trace, cfg, s, off, plan);
    var t := Book(trace, s, plan[0]);
    MarkedDefined(trace, t, plan[0].rid, now);
    MarkFirst(t, plan[0].rid, now)
  }

  lemma MarkedDefined(trace: seq<Request>, t: EngineState, x: nat, now: int)
    requires Defined(trace, t) && x in t.prog
    ensures Defined(trace, MarkFirst(t, x, now))
  {
  }

  lemma MarkedOwned(trace: seq<Request>, cfg: Config, s: EngineState, off: nat, plan: seq<Chunk>, now: int)
    requires Pending(trace, cfg, s, off, plan) && Completes(trace, cfg, s, off, plan)
    ensures var u := Marked(trace, cfg, s, off, plan, now); Owned(trace, cfg, u) && OwnKeys(trace, u)
  {
    PendingChunk(trace, cfg, s, off, plan);
    PendingParts(trace, cfg, s, off, plan);
    hide Owned, OwnKeys, Book, Inv, Pending, Distinct, Below, Shape, CeilBlocks, MarkFirst;
    BookOwned(trace, cfg, s, off, plan[0]);
    BookEffect(trace, s, plan[0]);
    MarkFirstOwned(trace, cfg, Book(trace, s, plan[0]), plan[0].rid, now);
  }

  lemma MarkedEffect(trace: seq<Request>, cfg: Config, s: EngineState, off: nat, plan: seq<Chunk>, now: int)
    requires Pending(trace, cfg, s, off, plan) && Completes(trace, cfg, s, off, plan)
    ensures var u, x := Marked(trace, cfg, s, off, plan, now), plan[0].rid;
            && x in s.prog && u.running == s.running && u.waiting == s.waiting && u.prog.Keys == s.prog.Keys
            && u.dispatched == s.dispatched && u.admitted == s.admitted
            && (forall y :: y in s.prog && y != x ==> u.prog[y] == s.prog[y])
            && u.prog[x] == s.prog[x].(computed := s.prog[x].computed + plan[0].tokens,
                 generated := s.prog[x].generated + 1,
                 firstAt := if s.prog[x].firstAt.None? then Some(now) else s.prog[x].firstAt)
            && u.firsts == if s.prog[x].firstAt.None? then s.firsts + [x] else s.firsts
  {
    PendingChunk(trace, cfg, s, off, plan);
    hide Book, Inv, Pending, MarkFirst, Usable, CeilBlocks;
    BookEffect(trace, s, plan[0]);
    MarkFirstEffect(Book(trace, s, plan[0]), plan[0].rid, now);
  }

  lemma MarkFirstEffect(s: EngineState, x: nat, now: int)
    requires x in s.prog
    ensures var u := MarkFirst(s, x, now);
            && u.running == s.running && u.waiting == s.waiting && u.prog.Keys == s.prog.Keys && u.pool == s.pool
            && u.dispatched == s.dispatched && u.admitted == s.admitted
            && (forall y :: y in s.prog && y != x ==> u.prog[y] == s.prog[y])
            && u.prog[x] == s.prog[x].(firstAt := if s.prog[x].firstAt.None? then Some(now) else s.prog[x].firstAt)
            && u.firsts == if s.prog[x].firstAt.None? then s.firsts + [x] else s.firsts
  {
    assert MarkFirst(s, x, now).prog.Keys == s.prog.Keys;
  }

  lemma MarkedInv(trace: seq<Request>, cfg: Config, s: EngineState, off: nat, plan: seq<Chunk>, now: int)
    requires Pending(trace, cfg, s, off, plan) && Completes(trace, cfg, s, off, plan)
    ensures var u, x := Marked(trace, cfg, s, off, plan, now), plan[0].rid;
            && x in s.prog && Owned(trace, cfg, u) && OwnKeys(trace, u)
            && u.running == s.running && u.waiting == s.waiting && u.prog.Keys == s.prog.Keys
            && u.dispatched == s.dispatched && u.admitted == s.admitted
            && (forall y :: y in s.prog && y != x ==> u.prog[y] == s.prog[y])
            && u.prog[x] == s.prog[x].(computed := s.prog[x].computed + plan[0].tokens,
                 generated := s.prog[x].generated + 1,
                 firstAt := if s.prog[x].firstAt.None? then Some(now) else s.prog[x].firstAt)
            && u.firsts == if s.prog[x].firstAt.None? then s.firsts + [x] else s.firsts
  {
    hide *;
    MarkedOwned(trace, cfg, s, off, plan, now);
    MarkedEffect(trace, cfg, s, off, plan, now);
  }

  lemma PendingParts(trace: seq<Request>, cfg: Config, s: EngineState, off: nat, plan: seq<Chunk>)
    requires Pending(trace, cfg, s, off, plan)
    ensures Defined(trace, s) && Owned(trace, cfg, s) && OwnKeys(trace, s)
  {
    hide Owned, OwnKeys, Queues, Records, Plans;
  }

  /** A chunk that leaves its request short is only booked. */
  lemma ServedBook(trace: seq<Request>, cfg: Config, s: EngineState, off: nat, plan: seq<Chunk>, now: int)
    requires Pending(trace, cfg, s, off, plan) && !Completes(trace, cfg, s, off, plan)
    ensures plan[0].rid in s.prog && Defined(trace, s)
    ensures (s.prog[plan[0].rid].computed + plan[0].tokens) / BLOCK <= |s.prog[plan[0].rid].table|
    ensures Served(trace, cfg, s, off, plan, now) == Outcome(Book(trace, s, plan[0]), [])
  {
    PendingChunk(trace, cfg, s, off, plan);
    hide Book, Inv, Usable, MarkFirst, Leave;
  }

  lemma IncompleteRecord(trace: seq<Request>, cfg: Config, s: EngineState, off: nat, plan: seq<Chunk>, now: int)
    requires Pending(trace, cfg, s, off, plan) && !Completes(trace, cfg, s, off, plan)
    ensures ServedRecord(s, Served(trace, cfg, s, off, plan, now), plan[0], false, false, now)
  {
    PendingChunk(trace, cfg, s, off, plan);
    ServedBook(trace, cfg, s, off, plan, now);
    hide Book, Inv, Served, Usable, Defined, Pending;
    BookEffect(trace, s, plan[0]);
  }

  lemma IncompleteInv(trace: seq<Request>, cfg: Config, s: EngineState, off: nat, plan: seq<Chunk>, now: int)
    requires Pending(trace, cfg, s, off, plan) && !Completes(trace, cfg, s, off, plan)
    ensures var t := Served(trace, cfg, s, off, plan, now).s;
            Inv(trace, cfg, t, off + 1, plan[1..]) && |plan| == 1 && t.running == s.running
  {
    PendingChunk(trace, cfg, s, off, plan);
    ServedBook(trace, cfg, s, off, plan, now);
    BookedSound(trace, cfg, s, off, plan);
    hide Owned, OwnKeys, Book, Records, Plans, Distinct, Served, Shape, Below, Usable, Completes;
    BookOwned(trace, cfg, s, off, plan[0]);
    BookEffect(trace, s, plan[0]);
    StayRecords(trace, s, Book(trace, s, plan[0]), off, plan);
  }

  lemma ServedIncomplete(trace: seq<Request>, cfg: Config, s: EngineState, off: nat, plan: seq<Chunk>, now: int)
    requires Pending(trace, cfg, s, off, plan) && !Completes(trace, cfg, s, off, plan)
    ensures var o := Served(trace, cfg, s, off, plan, now);
            && Inv(trace, cfg, o.s, off + 1, plan[1..]) && |plan| == 1 && o.s.running == s.running
            && ServedRecord(s, o, plan[0], false, false, now)
  {
    hide *;
    IncompleteInv(trace, cfg, s, off, plan, now);
    IncompleteRecord(trace, cfg, s, off, plan, now);
  }

  lemma BookedSound(trace: seq<Request>, cfg: Config, s: EngineState, off: nat, plan: seq<Chunk>)
    requires Pending(trace, cfg, s, off, plan)
    ensures plan[0].rid in s.prog && plan[0].rid < |trace| && Sound(trace[plan[0].rid], s.prog[plan[0].rid])
  {
    hide Owned, OwnKeys;
  }

  lemma ServedStays(trace: seq<Request>, cfg: Config, s: EngineState, off: nat, plan: seq<Chunk>, now: int)
    requires Pending(trace, cfg, s, off, plan)
    requires Completes(trace, cfg, s, off, plan) && !Leaves(trace, cfg, s, off, plan)
    ensures var o := Served(trace, cfg, s, off, plan, now);
            && Inv(trace, cfg, o.s, off + 1, plan[1..]) && o.s.running == s.running
            && ServedRecord(s, o, plan[0], true, false, now)
  {
    hide Owned, OwnKeys, Records, Plans, Distinct, Below, Shape;
    PendingChunk(trace, cfg, s, off, plan);
    MarkedInv(trace, cfg, s, off, plan, now);
    BookedSound(trace, cfg, s, off, plan);
    BookEffect(trace, s, plan[0]);
    var u := Marked(trace, cfg, s, off, plan, now);
    hide Book, MarkFirst;
    assert Served(trace, cfg, s, off, plan, now).s == u;
    StayRecords(trace, s, u, off, plan);
  }

  /** The records after the last output of a request. */
  lemma LeaveRecord(trace: seq<Request>, cfg: Config, s: EngineState, off: nat, plan: seq<Chunk>, now: int)
    requires Pending(trace, cfg, s, off, plan) && Leaves(trace, cfg, s, off, plan)
    ensures off < |s.running| && plan[0].rid == s.running[off] && s.running[off] in s.prog
    ensures var o := Served(trace, cfg, s, off, plan, now);
            var t, p := o.s, s.prog[plan[0].rid];
            && plan[0].rid in t.prog
            && t.dispatched == s.dispatched && t.admitted == s.admitted
            && t.prog[plan[0].rid] == p.(computed := p.computed + plan[0].tokens, generated := p.generated + 1,
                 firstAt := if p.firstAt.None? then Some(now) else p.firstAt, doneAt := Some(now), table := [])
            && t.firsts == (if p.firstAt.None? then s.firsts + [plan[0].rid] else s.firsts)
            && o.calls == (if p.firstAt.None? then [First(plan[0].rid)] else []) + [Done(plan[0].rid)]
  {
    PendingChunk(trace, cfg, s, off, plan);
    BookEffect(trace, s, plan[0]);
    hide Owned, OwnKeys, Book, Inv, Distinct, RemoveAt, Below, Shape;
  }

  lemma LeaveEffect(trace: seq<Request>, cfg: Config, s: EngineState, off: nat, plan: seq<Chunk>, now: int)
    requires Pending(trace, cfg, s, off, plan) && Leaves(trace, cfg, s, off, plan)
    ensures off < |s.running| && plan[0].rid == s.running[off] && s.running[off] in s.prog
    ensures var o := Served(trace, cfg, s, off, plan, now);
            var t, p := o.s, s.prog[plan[0].rid];
            && Defined(trace, t) && Owned(trace, cfg, t) && OwnKeys(trace, t) && LeftAt(s, t, off)
            && t.dispatched == s.dispatched && t.admitted == s.admitted
            && t.prog[plan[0].rid] == p.(computed := p.computed + plan[0].tokens, generated := p.generated + 1,
                 firstAt := if p.firstAt.None? then Some(now) else p.firstAt, doneAt := Some(now), table := [])
            && t.firsts == (if p.firstAt.None? then s.firsts + [plan[0].rid] else s.firsts)
            && o.calls == (if p.firstAt.None? then [First(plan[0].rid)] else []) + [Done(plan[0].rid)]
  {
    PendingChunk(trace, cfg, s, off, plan);
    MarkedInv(trace, cfg, s, off, plan, now);
    LeaveRecord(trace, cfg, s, off, plan, now);
    ServedLeave(trace, cfg, s, off, plan, now);
    hide Owned, OwnKeys, Inv, Distinct, Leave, RemoveAt, Below, Shape, Served, Marked, Pending, Leaves, Completes;
    var u := Marked(trace, cfg, s, off, plan, now);
    LeaveOwned(trace, cfg, u, off, now);
    LeaveKeys(trace, u, Leave(trace, u, plan[0].rid, now), off);
  }

  /** The last output is booked and marked, and then the request leaves. */
  lemma ServedLeave(trace: seq<Request>, cfg: Config, s: EngineState, off: nat, plan: seq<Chunk>, now: int)
    requires Pending(trace, cfg, s, off, plan) && Leaves(trace, cfg, s, off, plan)
    ensures var u := Marked(trace, cfg, s, off, plan, now);
            plan[0].rid in u.running && Served(trace, cfg, s, off, plan, now).s == Leave(trace, u, plan[0].rid, now)
  {
    hide Inv, Usable, Book, Leave, MarkFirst;
    PendingChunk(trace, cfg, s, off, plan);
    BookEffect(trace, s, plan[0]);
    MarkedEffect(trace, cfg, s, off, plan, now);
  }

  lemma LeavesInv(trace: seq<Request>, cfg: Config, s: EngineState, off: nat, plan: seq<Chunk>, now: int)
    requires Pending(trace, cfg, s, off, plan) && Leaves(trace, cfg, s, off, plan)
    ensures var t := Served(trace, cfg, s, off, plan, now).s;
            && Inv(trace, cfg, t, off, plan[1..]) && off < |s.running| && t.running == RemoveAt(s.running, off)
            && Order(t) == RemoveAt(Order(s), off)
  {
    LeaveEffect(trace, cfg, s, off, plan, now);
    LeftSound(trace, cfg, s, off, plan, now);
    assert Inv(trace, cfg, s, off, plan);
    hide Served, Pending, Leaves;
    LeftInv(trace, cfg, s, Served(trace, cfg, s, off, plan, now).s, off, plan);
  }

  /** Its last output makes a request's record that of a finished one. */
  lemma LeftSound(trace: seq<Request>, cfg: Config, s: EngineState, off: nat, plan: seq<Chunk>, now: int)
    requires Pending(trace, cfg, s, off, plan) && Leaves(trace, cfg, s, off, plan)
    ensures var t := Served(trace, cfg, s, off, plan, now).s;
            && off < |s.running| && s.running[off] in t.prog && s.running[off] < |trace|
            && Sound(trace[s.running[off]], t.prog[s.running[off]])
  {
    PendingChunk(trace, cfg, s, off, plan);
    BookedSound(trace, cfg, s, off, plan);
    LeaveRecord(trace, cfg, s, off, plan, now);
    hide Served, Inv, Usable;
  }

  lemma LeftInv(trace: seq<Request>, cfg: Config, s: EngineState, t: EngineState, off: nat, plan: seq<Chunk>)
    requires Inv(trace, cfg, s, off, plan) && plan != [] && LeftAt(s, t, off)
    requires Defined(trace, t) && Owned(trace, cfg, t) && OwnKeys(trace, t)
    requires Sound(trace[s.running[off]], t.prog[s.running[off]])
    ensures Inv(trace, cfg, t, off, plan[1..]) && Order(t) == RemoveAt(Order(s), off)
  {
    hide Owned, OwnKeys, Records, Plans, Distinct, RemoveAt, Shape, Below;
    RemoveAtLength(s.running, off);
    QueuesApart(s);
    LeaveRecords(trace, s, t, off);
    LeavePlans(trace, s, t, off, plan);
    LeaveOrder(s, t, off);
  }

  lemma RemoveAtLength<T>(s: seq<T>, i: nat)
    requires i < |s|
    ensures |RemoveAt(s, i)| == |s| - 1
  {
  }

  lemma LeavesRecord(trace: seq<Request>, cfg: Config, s: EngineState, off: nat, plan: seq<Chunk>, now: int)
    requires Pending(trace, cfg, s, off, plan) && Leaves(trace, cfg, s, off, plan)
    ensures ServedRecord(s, Served(trace, cfg, s, off, plan, now), plan[0], true, true, now)
  {
    LeaveEffect(trace, cfg, s, off, plan, now);
    hide Inv, Served, Pending;
  }

  lemma ServedLeaves(trace: seq<Request>, cfg: Config, s: EngineState, off: nat, plan: seq<Chunk>, now: int)
    requires Pending(trace, cfg, s, off, plan) && Leaves(trace, cfg, s, off, plan)
    ensures var o := Served(trace, cfg, s, off, plan, now);
            && Inv(trace, cfg, o.s, off, plan[1..]) && off < |s.running| && o.s.running == RemoveAt(s.running, off)
            && Order(o.s) == RemoveAt(Order(s), off) && ServedRecord(s, o, plan[0], true, true, now)
  {
    hide *;
    LeavesInv(trace, cfg, s, off, plan, now);
    LeavesRecord(trace, cfg, s, off, plan, now);
  }

  // ---------------------------------------------------------------------------------------
  // The loop

  /** Running position of the chunk after the next one. */
  function NextOff(trace: seq<Request>, cfg: Config, s: EngineState, off: nat, plan: seq<Chunk>): nat
    requires Pending(trace, cfg, s, off, plan)
  {
    if Leaves(trace, cfg, s, off, plan) then off else off + 1
  }

  lemma ServedInv(trace: seq<Request>, cfg: Config, s: EngineState, off: nat, plan: seq<Chunk>, now: int)
    requires Pending(trace, cfg, s, off, plan)
    ensures Inv(trace, cfg, Served(trace, cfg, s, off, plan, now).s, NextOff(trace, cfg, s, off, plan), plan[1..])
  {
    hide Inv, Served, Completes;
    if Leaves(trace, cfg, s, off, plan) { ServedLeaves(trace, cfg, s, off, plan, now); }
    else if Completes(trace, cfg, s, off, plan) { ServedStays(trace, cfg, s, off, plan, now); }
    else { ServedIncomplete(trace, cfg, s, off, plan, now); }
  }

  /** finish_step: serve the plan chunk by chunk, collecting the calls back to the router in order. */
  function FinishLoop(trace: seq<Request>, cfg: Config, s: EngineState, off: nat, plan: seq<Chunk>, now: int): (o: Outcome)
    requires Usable(trace, cfg) && Inv(trace, cfg, s, off, plan)
    ensures Inv(trace, cfg, o.s, 0, [])
    decreases |plan|
  {
    hide Owned, OwnKeys, Records, Served, Queues, NextOff;
    if plan == [] then Outcome(s, [])
    else
      ServedInv(trace, cfg, s, off, plan, now);
      var o := Served(trace, cfg, s, off, plan, now);
      var rest := FinishLoop(trace, cfg, o.s, NextOff(trace, cfg, s, off, plan), plan[1..], now);
      Outcome(rest.s, o.calls + rest.calls)
  }

  lemma FinishLoopStep(trace: seq<Request>, cfg: Config, s: EngineState, off: nat, plan: seq<Chunk>, now: int)
    requires Pending(trace, cfg, s, off, plan)
    ensures Usable(trace, cfg) && Inv(trace, cfg, s, off, plan)
    ensures var o := Served(trace, cfg, s, off, plan, now);
            var next := NextOff(trace, cfg, s, off, plan);
            && Inv(trace, cfg, o.s, next, plan[1..])
            && FinishLoop(trace, cfg, s, off, plan, now) ==
                 Outcome(FinishLoop(trace, cfg, o.s, next, plan[1..], now).s,
                         o.calls + FinishLoop(trace, cfg, o.s, next, plan[1..], now).calls)
  {
    hide Inv, Served, NextOff;
    ServedInv(trace, cfg, s, off, plan, now);
  }

  /** finish_step at a step boundary. */
  function FinishStep(trace: seq<Request>, cfg: Config, s: EngineState, plan: seq<Chunk>, now: int): (o: Outcome)
    requires Usable(trace, cfg) && Inv(trace, cfg, s, 0, plan)
    ensures Inv(trace, cfg, o.s, 0, [])
  {
    FinishLoop(trace, cfg, s, 0, plan, now)
  }
}
