/** First come, first served, over whole runs: admissions and first tokens follow the dispatch order. */
module DispatchOrder {
  import opened Common
  import opened BlockPool
  import opened Scheduling
  import opened ScheduleSteps
  import opened ScheduleLoops
  import opened ScheduleTheorems
  import opened FinishSteps
  import opened FinishLoops
  import opened ProgressBound

  /** The router appends a request to the engine's queue. */
  function Submit(s: EngineState, r: nat): EngineState {
    s.(waiting := s.waiting + [r], prog := s.prog[r := NotStarted], dispatched := s.dispatched + [r])
  }

  /** The dispatched requests that have not finished, in dispatch order. */
  ghost function Live(dispatched: seq<nat>, prog: map<nat, Progress>): seq<nat>
    requires forall i :: 0 <= i < |dispatched| ==> dispatched[i] in prog
  {
    if dispatched == [] then []
    else
      var n := |dispatched| - 1;
      Live(dispatched[..n], prog) + (if prog[dispatched[n]].doneAt.None? then [dispatched[n]] else [])
  }

  /** The engine knows exactly the requests dispatched to it, once each. */
  ghost predicate Known(s: EngineState) {
    && Distinct(s.dispatched)
    && (forall r :: r in s.prog <==> r in s.dispatched)
    && (forall i :: 0 <= i < |s.dispatched| ==> s.dispatched[i] in s.prog)
  }

  /** The requests admitted so far, and those with a first token, are each an initial run of the dispatched ones. */
  ghost predicate Marks(s: EngineState) {
    && s.admitted <= s.dispatched && s.firsts <= s.dispatched
    && (forall r :: r in s.prog ==> (r in s.admitted <==> s.prog[r].engineHit.Some?))
    && (forall r :: r in s.prog ==> (r in s.firsts <==> s.prog[r].firstAt.Some?))
  }

  /** First come, first served: the queues are the unfinished requests in dispatch order. */
  ghost predicate History(s: EngineState) {
    Known(s) && Order(s) == Live(s.dispatched, s.prog) && Marks(s)
  }

  lemma {:induction false} LiveFrame(d: seq<nat>, p: map<nat, Progress>, q: map<nat, Progress>)
    requires forall i :: 0 <= i < |d| ==> d[i] in p && d[i] in q && p[d[i]].doneAt.None? == q[d[i]].doneAt.None?
    ensures Live(d, p) == Live(d, q)
  {
    if d != [] { LiveFrame(d[..|d| - 1], p, q); }
  }

  lemma {:induction false} LiveConcat(a: seq<nat>, b: seq<nat>, p: map<nat, Progress>)
    requires forall i :: 0 <= i < |a| ==> a[i] in p
    requires forall i :: 0 <= i < |b| ==> b[i] in p
    ensures forall i :: 0 <= i < |a + b| ==> (a + b)[i] in p
    ensures Live(a + b, p) == Live(a, p) + Live(b, p)
  {
    if b == [] {
      assert a + b == a;
    } else {
      var n := |b| - 1;
      LiveConcat(a, b[..n], p);
      assert (a + b)[..|a + b| - 1] == a + b[..n];
    }
  }

  lemma {:induction false} LiveMembers(d: seq<nat>, p: map<nat, Progress>)
    requires forall i :: 0 <= i < |d| ==> d[i] in p
    ensures forall i :: 0 <= i < |Live(d, p)| ==> Live(d, p)[i] in d && p[Live(d, p)[i]].doneAt.None?
  {
    if d != [] {
      LiveMembers(d[..|d| - 1], p);
    }
  }

  lemma PrefixFresh(d: seq<nat>, m: nat)
    requires Distinct(d) && m < |d|
    ensures d[m] !in d[..m]
  {
  }

  /** Cutting the dispatch order at one live request cuts the live ones there. */
  lemma LiveCut(d: seq<nat>, p: map<nat, Progress>, m: nat)
    requires m < |d| && forall i :: 0 <= i < |d| ==> d[i] in p
    ensures Live(d, p) == Live(d[..m], p) + (if p[d[m]].doneAt.None? then [d[m]] else []) + Live(d[m + 1..], p)
  {
    var a, b := d[..m], d[m + 1..];
    assert d == a + [d[m]] + b;
    LiveConcat(a, [d[m]], p);
    LiveConcat(a + [d[m]], b, p);
    assert Live([d[m]], p) == (if p[d[m]].doneAt.None? then [d[m]] else []) by { assert [d[m]][..0] == []; }
  }

  /**
   If the marked requests are an initial run of the dispatched ones and include all finished ones, then the
   first unmarked request in the queues is the next dispatched one.
   */
  lemma NextInOrder(d: seq<nat>, p: map<nat, Progress>, marked: seq<nat>, k: nat)
    requires Distinct(d) && marked <= d
    requires forall i :: 0 <= i < |d| ==> d[i] in p && (p[d[i]].doneAt.Some? ==> d[i] in marked)
    requires k < |Live(d, p)| && Live(d, p)[k] !in marked
    requires forall i :: 0 <= i < k ==> Live(d, p)[i] in marked
    ensures |marked| < |d| && d[|marked|] == Live(d, p)[k]
  {
    var m := |marked|;
    LiveMembers(d, p);
    assert m == |d| ==> marked == d;
    PrefixFresh(d, m);
    var a := d[..m];
    LiveCut(d, p, m);
    LiveMembers(a, p);
    var n := |Live(a, p)|;
    assert Live(d, p)[n] == d[m];
    assert forall i :: 0 <= i < n ==> Live(d, p)[i] == Live(a, p)[i] && Live(a, p)[i] in marked;
  }

  lemma LiveLeaveAt(d: seq<nat>, p: map<nat, Progress>, q: map<nat, Progress>, m: nat)
    requires Distinct(d) && m < |d| && forall i :: 0 <= i < |d| ==> d[i] in p && d[i] in q
    requires forall x :: x in p && x != d[m] ==> x in q && q[x].doneAt.None? == p[x].doneAt.None?
    requires p[d[m]].doneAt.None? && q[d[m]].doneAt.Some?
    ensures Live(d, p) == Live(d[..m], p) + [d[m]] + Live(d[m + 1..], p)
    ensures Live(d, q) == Live(d[..m], p) + Live(d[m + 1..], p)
  {
    hide Live;
    LiveCut(d, p, m);
    LiveCut(d, q, m);
    LiveFrame(d[..m], p, q);
    LiveFrame(d[m + 1..], p, q);
  }

  /** Finishing the request at position `k` takes it out of the live ones. */
  lemma LiveLeave(d: seq<nat>, p: map<nat, Progress>, q: map<nat, Progress>, k: nat)
    requires Distinct(d) && forall i :: 0 <= i < |d| ==> d[i] in p && d[i] in q
    requires Distinct(Live(d, p)) && k < |Live(d, p)|
    requires forall x :: x in p && x != Live(d, p)[k] ==> x in q && q[x].doneAt.None? == p[x].doneAt.None?
    requires Live(d, p)[k] in q && q[Live(d, p)[k]].doneAt.Some?
    ensures Live(d, q) == RemoveAt(Live(d, p), k)
  {
    hide Live, RemoveAt;
    LiveMembers(d, p);
    var x := Live(d, p)[k];
    var m :| 0 <= m < |d| && d[m] == x;
    LiveLeaveAt(d, p, q, m);
    CutAt(Live(d, p), Live(d[..m], p), x, Live(d[m + 1..], p), k);
  }

  /** Where a duplicate-free sequence has an element is where it can be cut. */
  lemma CutAt(s: seq<nat>, a: seq<nat>, x: nat, b: seq<nat>, k: nat)
    requires Distinct(s) && s == a + [x] + b && k < |s| && s[k] == x
    ensures RemoveAt(s, k) == a + b
  {
    assert s[|a|] == x;
  }

  // ---------------------------------------------------------------------------------------
  // Dispatch

  lemma SubmitOwned(trace: seq<Request>, cfg: Config, s: EngineState, r: nat)
    requires Defined(trace, s) && Owned(trace, cfg, s) && OwnKeys(trace, s) && r < |trace| && r !in s.prog
    ensures var t := Submit(s, r); Defined(trace, t) && Owned(trace, cfg, t) && OwnKeys(trace, t)
  {
    hide Valid, Unshared, KeysFit, Shape;
    HeldFrame(s.running, s.prog, Submit(s, r).prog);
    hide Held;
  }

  lemma SubmitRecords(trace: seq<Request>, s: EngineState, off: nat, plan: seq<Chunk>, r: nat)
    requires Servable(trace, r) && Defined(trace, s) && Records(trace, s) && Plans(trace, s, off, plan)
    requires r !in s.prog && Defined(trace, Submit(s, r))
    ensures Records(trace, Submit(s, r)) && Plans(trace, Submit(s, r), off, plan)
  {
    hide Shape, Below, CeilBlocks;
    var t := Submit(s, r);
    assert forall i :: 0 <= i < |s.running| ==> t.prog[s.running[i]] == s.prog[s.running[i]];
  }

  /** A request has a prompt and asks for output. */
  predicate Servable(trace: seq<Request>, r: nat) {
    r < |trace| && trace[r].inputLen >= 1 && trace[r].outputLen >= 1
  }

  lemma SubmitOrder(s: EngineState, r: nat)
    requires Distinct(Order(s)) && r !in Order(s)
    ensures Order(Submit(s, r)) == Order(s) + [r] && Distinct(Order(Submit(s, r)))
  {
    assert Order(Submit(s, r)) == Order(s) + [r];
  }

  /** A dispatched request joins the back of the order, whether or not a step is in flight. */
  lemma SubmitInv(trace: seq<Request>, cfg: Config, s: EngineState, off: nat, plan: seq<Chunk>, r: nat)
    requires Usable(trace, cfg) && Inv(trace, cfg, s, off, plan) && r < |trace| && r !in s.prog
    ensures Inv(trace, cfg, Submit(s, r), off, plan) && Order(Submit(s, r)) == Order(s) + [r]
  {
    OrderDefined(trace, cfg, s, off, plan);
    hide Owned, OwnKeys, Records, Plans, Order, Distinct;
    SubmitOwned(trace, cfg, s, r);
    SubmitRecords(trace, s, off, plan, r);
    SubmitOrder(s, r);
  }

  lemma SubmitKnown(s: EngineState, r: nat)
    requires Known(s) && r !in s.prog
    ensures Known(Submit(s, r))
  {
    var t := Submit(s, r);
    forall x ensures x in t.prog <==> x in t.dispatched {
      assert x in t.dispatched <==> x in s.dispatched || x == r;
    }
    assert r !in s.dispatched;
  }

  lemma SubmitMarks(s: EngineState, r: nat)
    requires Known(s) && Marks(s) && r !in s.prog
    ensures Marks(Submit(s, r))
  {
    var t := Submit(s, r);
    assert r !in s.dispatched;
    assert s.admitted == s.dispatched[..|s.admitted|] && s.firsts == s.dispatched[..|s.firsts|];
  }

  lemma LiveSubmit(d: seq<nat>, p: map<nat, Progress>, r: nat)
    requires forall i :: 0 <= i < |d| ==> d[i] in p && d[i] != r
    ensures Live(d + [r], p[r := NotStarted]) == Live(d, p) + [r]
  {
    LiveFrame(d, p, p[r := NotStarted]);
    assert (d + [r])[..|d|] == d;
  }

  lemma KnownMember(s: EngineState, r: nat)
    requires Known(s) && r !in s.prog
    ensures forall i :: 0 <= i < |s.dispatched| ==> s.dispatched[i] in s.prog && s.dispatched[i] != r
  {
  }

  lemma SubmitLive(s: EngineState, r: nat)
    requires Known(s) && Known(Submit(s, r)) && r !in s.prog && Order(s) == Live(s.dispatched, s.prog)
    ensures Order(Submit(s, r)) == Live(Submit(s, r).dispatched, Submit(s, r).prog)
  {
    KnownMember(s, r);
    hide Known;
    LiveSubmit(s.dispatched, s.prog, r);
    hide Live;
    assert Order(Submit(s, r)) == Order(s) + [r];
  }

  /** A dispatch keeps the queues and the marks in dispatch order. */
  lemma SubmitHistory(s: EngineState, r: nat)
    requires History(s) && r !in s.prog
    ensures History(Submit(s, r))
  {
    hide Marks, Known, Live, Order, Submit;
    SubmitKnown(s, r);
    SubmitMarks(s, r);
    SubmitLive(s, r);
  }

  // ---------------------------------------------------------------------------------------
  // schedule

  lemma HistoryKept(s: EngineState, t: EngineState)
    requires History(s) && SameOutputs(s, t) && NoneAdmitted(s, t) && Order(t) == Order(s)
    ensures History(t)
  {
    LiveFrame(s.dispatched, s.prog, t.prog);
    assert forall r :: r in t.prog <==> r in s.prog.Keys;
  }

  /** A first admission is the next one in dispatch order. */
  lemma AdmissionHistory(s: EngineState, t: EngineState, hit: nat)
    requires History(s) && AdmittedFrom(s, t, hit) && Order(t) == Order(s) && Distinct(Order(s))
    requires forall i :: 0 <= i < |s.running| ==> s.running[i] in s.prog && s.prog[s.running[i]].engineHit.Some?
    requires forall r :: r in s.prog && s.prog[r].doneAt.Some? ==> s.prog[r].engineHit.Some?
    ensures History(t)
  {
    assert forall i :: 0 <= i < |s.dispatched| ==> s.dispatched[i] in s.prog;
    hide Known, Live, Order, Distinct, Marks;
    KnownKept(s, t);
    LiveFrame(s.dispatched, s.prog, t.prog);
    if s.prog[s.waiting[0]].engineHit.None? { FirstAdmission(s, t, hit); } else { Readmission(s, t, hit); }
  }

  /** A request preempted earlier keeps its mark. */
  lemma Readmission(s: EngineState, t: EngineState, hit: nat)
    requires Marks(s) && AdmittedFrom(s, t, hit) && s.prog[s.waiting[0]].engineHit.Some?
    ensures Marks(t)
  {}

  lemma KnownKept(s: EngineState, t: EngineState)
    requires Known(s) && t.dispatched == s.dispatched && t.prog.Keys == s.prog.Keys
    ensures Known(t)
  {
    assert forall r :: r in t.prog <==> r in s.prog.Keys;
  }

  /** The first request in the order that has not been admitted is the next one dispatched. */
  lemma FirstAdmission(s: EngineState, t: EngineState, hit: nat)
    requires History(s) && AdmittedFrom(s, t, hit) && s.prog[s.waiting[0]].engineHit.None?
    requires forall i :: 0 <= i < |s.running| ==> s.running[i] in s.prog && s.prog[s.running[i]].engineHit.Some?
    requires forall r :: r in s.prog && s.prog[r].doneAt.Some? ==> s.prog[r].engineHit.Some?
    ensures Marks(t)
  {
    NextAdmitted(s);
    hide Live, Distinct, Order, Known;
  }

  lemma NextAdmitted(s: EngineState)
    requires History(s) && s.waiting != [] && s.waiting[0] in s.prog && s.prog[s.waiting[0]].engineHit.None?
    requires forall i :: 0 <= i < |s.running| ==> s.running[i] in s.prog && s.prog[s.running[i]].engineHit.Some?
    requires forall r :: r in s.prog && s.prog[r].doneAt.Some? ==> s.prog[r].engineHit.Some?
    ensures s.admitted + [s.waiting[0]] <= s.dispatched
  {
    hide Live;
    assert forall i :: 0 <= i < |s.running| ==> Order(s)[i] == s.running[i];
    assert Order(s)[|s.running|] == s.waiting[0];
    assert forall i :: 0 <= i < |s.running| ==> Order(s)[i] in s.admitted;
    NextInOrder(s.dispatched, s.prog, s.admitted, |s.running|);
    Extended(s.admitted, s.dispatched);
  }

  lemma Extended(a: seq<nat>, d: seq<nat>)
    requires a <= d && |a| < |d|
    ensures a + [d[|a|]] <= d
  {
  }

  lemma AdmitReady(trace: seq<Request>, cfg: Config, r: Run)
    requires Admitting(trace, cfg, r)
    ensures Distinct(Order(r.s))
    ensures forall i :: 0 <= i < |r.s.running| ==>
              r.s.running[i] in r.s.prog && r.s.prog[r.s.running[i]].engineHit.Some?
    ensures forall x :: x in r.s.prog && r.s.prog[x].doneAt.Some? ==> r.s.prog[x].engineHit.Some?
  {
    hide Owned, OwnKeys, Plans, AllComplete;
  }

  // ---------------------------------------------------------------------------------------
  // finish_step

  /** The running requests before the next chunk's have their first token. */
  ghost predicate FirstsBefore(s: EngineState, off: nat) {
    off <= |s.running| && forall j :: 0 <= j < off ==> s.running[j] in s.prog && s.prog[s.running[j]].firstAt.Some?
  }

  ghost predicate DoneHaveFirst(s: EngineState) {
    forall r :: r in s.prog && s.prog[r].doneAt.Some? ==> s.prog[r].firstAt.Some?
  }

  /** Serving running position `off`: a first token is the next one in dispatch order. */
  lemma ServedKnown(s: EngineState, o: Outcome, c: Chunk, completes: bool, leaves: bool, now: int)
    requires Known(s) && ServedRecord(s, o, c, completes, leaves, now)
    ensures Known(o.s)
  {
    KnownKept(s, o.s);
  }

  lemma ServedLive(s: EngineState, o: Outcome, c: Chunk, off: nat, completes: bool, leaves: bool, now: int)
    requires Known(s) && Order(s) == Live(s.dispatched, s.prog) && ServedRecord(s, o, c, completes, leaves, now)
    requires off < |Order(s)| && c.rid == Order(s)[off] && Distinct(Order(s)) && Known(o.s)
    requires Order(o.s) == if leaves then RemoveAt(Order(s), off) else Order(s)
    requires s.prog[c.rid].doneAt.None?
    ensures Order(o.s) == Live(o.s.dispatched, o.s.prog)
  {
    hide Live, RemoveAt, Order;
    if leaves { LiveLeave(s.dispatched, s.prog, o.s.prog, off); }
    else { LiveFrame(s.dispatched, s.prog, o.s.prog); }
  }

  lemma ServedMarks(s: EngineState, o: Outcome, c: Chunk, off: nat, completes: bool, leaves: bool, now: int)
    requires Known(s) && Order(s) == Live(s.dispatched, s.prog) && Marks(s)
    requires ServedRecord(s, o, c, completes, leaves, now)
    requires off < |s.running| && c.rid == s.running[off] && (completes ==> FirstsBefore(s, off)) && DoneHaveFirst(s)
    ensures Marks(o.s)
  {
    hide Known, Live, Order, Marks, DoneHaveFirst, FirstsBefore;
    if completes && s.prog[c.rid].firstAt.None? {
      NextFirst(s, off);
      hide Order, Live;
      MarksFirst(s, o.s, c.rid, now);
    } else {
      MarksSame(s, o, c, completes, leaves, now);
    }
  }

  /** A first token not given before goes to the next request dispatched. */
  lemma NextFirst(s: EngineState, off: nat)
    requires Known(s) && Order(s) == Live(s.dispatched, s.prog) && Marks(s) && DoneHaveFirst(s)
    requires off < |s.running| && FirstsBefore(s, off) && s.running[off] in s.prog && s.prog[s.running[off]].firstAt.None?
    ensures s.firsts + [s.running[off]] <= s.dispatched
  {
    hide Live;
    assert forall j :: 0 <= j <= off ==> Order(s)[j] == s.running[j];
    assert forall j :: 0 <= j < off ==> Order(s)[j] in s.firsts;
    NextInOrder(s.dispatched, s.prog, s.firsts, off);
    Extended(s.firsts, s.dispatched);
  }

  lemma MarksFirst(s: EngineState, t: EngineState, x: nat, now: int)
    requires Marks(s) && t.prog.Keys == s.prog.Keys && t.dispatched == s.dispatched && t.admitted == s.admitted
    requires x in s.prog && t.firsts == s.firsts + [x] && t.firsts <= t.dispatched
    requires t.prog[x].engineHit == s.prog[x].engineHit && t.prog[x].firstAt == Some(now)
    requires forall y :: y in s.prog && y != x ==> t.prog[y] == s.prog[y]
    ensures Marks(t)
  {}

  lemma MarksSame(s: EngineState, o: Outcome, c: Chunk, completes: bool, leaves: bool, now: int)
    requires Marks(s) && ServedRecord(s, o, c, completes, leaves, now)
    requires completes ==> s.prog[c.rid].firstAt.Some?
    ensures Marks(o.s)
  {}

  /** Serving running position `off`: a first token is the next one in dispatch order. */
  lemma ServedHistory(s: EngineState, o: Outcome, c: Chunk, off: nat, completes: bool, leaves: bool, now: int)
    requires History(s) && ServedRecord(s, o, c, completes, leaves, now) && Distinct(Order(s)) && DoneHaveFirst(s)
    requires off < |s.running| && c.rid == s.running[off] && (completes ==> FirstsBefore(s, off))
    requires Order(o.s) == if leaves then RemoveAt(Order(s), off) else Order(s)
    requires c.rid in s.prog && s.prog[c.rid].doneAt.None?
    ensures History(o.s)
  {
    assert Order(s)[off] == c.rid;
    hide ServedRecord, Known, Order, Live, Marks, Distinct, FirstsBefore, DoneHaveFirst, RemoveAt;
    ServedKnown(s, o, c, completes, leaves, now);
    ServedLive(s, o, c, off, completes, leaves, now);
    ServedMarks(s, o, c, off, completes, leaves, now);
  }

  /** Whatever the loop has left to do, its history is in order. */
  ghost predicate Orderly(trace: seq<Request>, cfg: Config, s: EngineState, off: nat, plan: seq<Chunk>) {
    History(s) && (plan != [] ==> FirstsBefore(s, off))
  }

  lemma DoneFirst(trace: seq<Request>, cfg: Config, s: EngineState, off: nat, plan: seq<Chunk>)
    requires Usable(trace, cfg) && Inv(trace, cfg, s, off, plan)
    ensures DoneHaveFirst(s) && Distinct(Order(s))
  {
    hide Owned, OwnKeys, Plans;
  }

  lemma ServedFirsts(s: EngineState, o: Outcome, c: Chunk, off: nat, completes: bool, leaves: bool, now: int)
    requires ServedRecord(s, o, c, completes, leaves, now) && completes && off < |s.running| && c.rid == s.running[off]
    requires FirstsBefore(s, off) && Distinct(s.running)
    requires o.s.running == if leaves then RemoveAt(s.running, off) else s.running
    ensures FirstsBefore(o.s, if leaves then off else off + 1)
  {
    assert forall j :: 0 <= j < off ==> s.running[j] != c.rid;
  }

  lemma ServedOrderly(trace: seq<Request>, cfg: Config, s: EngineState, off: nat, plan: seq<Chunk>, now: int)
    requires Pending(trace, cfg, s, off, plan) && Orderly(trace, cfg, s, off, plan)
    ensures Orderly(trace, cfg, Served(trace, cfg, s, off, plan, now).s, NextOff(trace, cfg, s, off, plan), plan[1..])
  {
    PendingChunk(trace, cfg, s, off, plan);
    DoneFirst(trace, cfg, s, off, plan);
    ServedStep(trace, cfg, s, off, plan, now);
    var o := Served(trace, cfg, s, off, plan, now);
    var completes, leaves := Completes(trace, cfg, s, off, plan), Leaves(trace, cfg, s, off, plan);
    hide Inv, Served, Pending, Leaves, Completes, History, Distinct, Order, DoneHaveFirst, ServedRecord, FirstsBefore;
    ServedHistory(s, o, plan[0], off, completes, leaves, now);
    if plan[1..] != [] { ServedFirsts(s, o, plan[0], off, completes, leaves, now); }
  }
}
