/**
 send inside replay (routing.py): the live router's coroutines, one per request, interleaved at their awaits. A request is
 dispatched, may report its first token, and ends in success or failure; the two counters of every instance follow.
 */
module LiveRouter {
  import opened Common

  /** Where a request's coroutine stands: no first token yet (`pending`), first token reported, or over. */
  datatype Stage = Waiting | Streaming | Over

  datatype Task = Task(instance: nat, tokens: int, stage: Stage)

  /** bs and queued of every instance, and the coroutines in the order of their dispatches. */
  datatype State = State(bs: seq<int>, queued: seq<int>, tasks: seq<Task>)

  datatype Event = Dispatch(instance: nat, tokens: int) | FirstToken(k: nat) | End(k: nat)

  function Initial(n: nat): State {
    State(seq(n, _ => 0), seq(n, _ => 0), [])
  }

  /** The event can happen to the coroutines over `n` instances. */
  predicate Enabled(tasks: seq<Task>, n: nat, ev: Event) {
    match ev
    case Dispatch(i, _) => i < n
    case FirstToken(k) => k < |tasks| && tasks[k].stage.Waiting?
    case End(k) => k < |tasks| && !tasks[k].stage.Over?
  }

  // ---------------------------------------------------------------------------------------
  // What the counters count

  /** Requests on an instance whose coroutine is not over. */
  function Open(tasks: seq<Task>, i: nat): nat {
    if tasks == [] then 0
    else
      var n := |tasks| - 1;
      Open(tasks[..n], i) + (if tasks[n].instance == i && !tasks[n].stage.Over? then 1 else 0)
  }

  /** New tokens of the requests on an instance without a first token. */
  function Waited(tasks: seq<Task>, i: nat): int {
    if tasks == [] then 0
    else
      var n := |tasks| - 1;
      Waited(tasks[..n], i) + (if tasks[n].instance == i && tasks[n].stage.Waiting? then tasks[n].tokens else 0)
  }

  ghost predicate Counts(s: State) {
    && |s.bs| == |s.queued| && (forall k :: 0 <= k < |s.tasks| ==> s.tasks[k].instance < |s.bs|)
    && forall i :: 0 <= i < |s.bs| ==> s.bs[i] == Open(s.tasks, i) && s.queued[i] == Waited(s.tasks, i)
  }

  lemma {:induction false} OpenUpdate(tasks: seq<Task>, k: nat, t: Task, i: nat)
    requires k < |tasks| && t.instance == tasks[k].instance
    ensures Open(tasks[k := t], i) == Open(tasks, i)
            + (if t.instance == i then (if t.stage.Over? then 0 else 1) - (if tasks[k].stage.Over? then 0 else 1) else 0)
  {
    var n := |tasks| - 1;
    if k < n {
      OpenUpdate(tasks[..n], k, t, i);
      assert tasks[k := t][..n] == tasks[..n][k := t];
    } else {
      assert tasks[k := t][..n] == tasks[..n];
    }
  }

  lemma {:induction false} WaitedUpdate(tasks: seq<Task>, k: nat, t: Task, i: nat)
    requires k < |tasks| && t.instance == tasks[k].instance && t.tokens == tasks[k].tokens
    ensures Waited(tasks[k := t], i) == Waited(tasks, i)
            + (if t.instance == i then (if t.stage.Waiting? then t.tokens else 0) - (if tasks[k].stage.Waiting? then t.tokens else 0)
               else 0)
  {
    var n := |tasks| - 1;
    if k < n {
      WaitedUpdate(tasks[..n], k, t, i);
      assert tasks[k := t][..n] == tasks[..n][k := t];
    } else {
      assert tasks[k := t][..n] == tasks[..n];
    }
  }

  lemma Appended(tasks: seq<Task>, t: Task, i: nat)
    ensures Open(tasks + [t], i) == Open(tasks, i) + (if t.instance == i && !t.stage.Over? then 1 else 0)
    ensures Waited(tasks + [t], i) == Waited(tasks, i) + (if t.instance == i && t.stage.Waiting? then t.tokens else 0)
  {
    assert (tasks + [t])[..|tasks|] == tasks;
  }

  // ---------------------------------------------------------------------------------------
  // The router

  /** What an event leaves, by its effect on one request and on what is counted. */
  function After(tasks: seq<Task>, ev: Event): seq<Task>
    requires match ev case Dispatch(_, _) => true case FirstToken(k) => k < |tasks| case End(k) => k < |tasks|
  {
    match ev
    case Dispatch(i, tokens) => tasks + [Task(i, tokens, Waiting)]
    case FirstToken(k) => tasks[k := tasks[k].(stage := Streaming)]
    case End(k) => tasks[k := tasks[k].(stage := Over)]
  }

  class Router {
    var bs: seq<int>
    var queued: seq<int>
    var tasks: seq<Task>

    ghost function Now(): State
      reads this
    {
      State(bs, queued, tasks)
    }

    constructor (n: nat)
      ensures Now() == Initial(n) && Counts(Now())
    {
      bs, queued, tasks := seq(n, _ => 0), seq(n, _ => 0), [];
    }

    /** The first part of send, up to the request. */
    method Send(i: nat, tokens: int)
      requires Counts(Now()) && Enabled(tasks, |bs|, Dispatch(i, tokens))
      modifies this
      ensures Counts(Now()) && |bs| == |old(bs)| && tasks == After(old(tasks), Dispatch(i, tokens))
    {
      forall j: nat | j < |bs|
        ensures Open(tasks + [Task(i, tokens, Waiting)], j) == Open(tasks, j) + (if i == j then 1 else 0)
        ensures Waited(tasks + [Task(i, tokens, Waiting)], j) == Waited(tasks, j) + (if i == j then tokens else 0)
      {
        Appended(tasks, Task(i, tokens, Waiting), j);
      }
      hide Open, Waited;
      bs := bs[i := bs[i] + 1];
      queued := queued[i := queued[i] + tokens];
      tasks := tasks + [Task(i, tokens, Waiting)];
    }

    /** first_token. */
    method Report(k: nat)
      requires Counts(Now()) && Enabled(tasks, |bs|, FirstToken(k))
      modifies this
      ensures Counts(Now()) && |bs| == |old(bs)| && tasks == After(old(tasks), FirstToken(k))
    {
      var i, tokens := tasks[k].instance, tasks[k].tokens;
      var t := tasks[k].(stage := Streaming);
      forall j: nat | j < |bs|
        ensures Open(tasks[k := t], j) == Open(tasks, j)
        ensures Waited(tasks[k := t], j) == Waited(tasks, j) - (if i == j then tokens else 0)
      {
        OpenUpdate(tasks, k, t, j);
        WaitedUpdate(tasks, k, t, j);
      }
      hide Open, Waited;
      tasks := tasks[k := t];
      queued := queued[i := queued[i] - tokens];
    }

    /** The finally block: after success, or after a failure with or without a first token. */
    method Finish(k: nat)
      requires Counts(Now()) && Enabled(tasks, |bs|, End(k))
      modifies this
      ensures Counts(Now()) && |bs| == |old(bs)| && tasks == After(old(tasks), End(k))
    {
      var i, tokens, pending := tasks[k].instance, tasks[k].tokens, tasks[k].stage.Waiting?;
      var t := tasks[k].(stage := Over);
      forall j: nat | j < |bs|
        ensures Open(tasks[k := t], j) == Open(tasks, j) - (if i == j then 1 else 0)
        ensures Waited(tasks[k := t], j) == Waited(tasks, j) - (if i == j && pending then tokens else 0)
      {
        OpenUpdate(tasks, k, t, j);
        WaitedUpdate(tasks, k, t, j);
      }
      hide Open, Waited;
      if pending { queued := queued[i := queued[i] - tokens]; }
      bs := bs[i := bs[i] - 1];
      tasks := tasks[k := t];
    }
  }

  // ---------------------------------------------------------------------------------------
  // Runs

  /** The events can happen in this order. */
  predicate Feasible(tasks: seq<Task>, n: nat, events: seq<Event>)
    decreases |events|
  {
    events == [] || (Enabled(tasks, n, events[0]) && Feasible(After(tasks, events[0]), n, events[1..]))
  }

  function Run(tasks: seq<Task>, n: nat, events: seq<Event>): seq<Task>
    requires Feasible(tasks, n, events)
    decreases |events|
  {
    if events == [] then tasks else Run(After(tasks, events[0]), n, events[1..])
  }

  /** Any interleaving, driven through the object: its counters always agree with the coroutines. */
  method Replay(n: nat, events: seq<Event>) returns (router: Router)
    requires Feasible([], n, events)
    ensures fresh(router) && Counts(router.Now()) && |router.bs| == n && router.tasks == Run([], n, events)
  {
    hide Counts;
    router := new Router(n);
    assert events[0..] == events;
    for k := 0 to |events|
      invariant fresh(router) && Counts(router.Now()) && |router.bs| == n
      invariant Feasible(router.tasks, n, events[k..]) && Run(router.tasks, n, events[k..]) == Run([], n, events)
    {
      assert events[k..][0] == events[k] && events[k..][1..] == events[k + 1..];
      match events[k] {
        case Dispatch(i, tokens) => router.Send(i, tokens);
        case FirstToken(j) => router.Report(j);
        case End(j) => router.Finish(j);
      }
    }
  }

  /** Every coroutine is over. */
  predicate Drained(tasks: seq<Task>) {
    forall k :: 0 <= k < |tasks| ==> tasks[k].stage.Over?
  }

  /** At drain nothing is counted any more, however requests failed. */
  lemma DrainedZero(s: State, i: nat)
    requires Counts(s) && Drained(s.tasks) && i < |s.bs|
    ensures s.bs[i] == 0 && s.queued[i] == 0
  {
    NoneOpen(s.tasks, i);
  }

  lemma {:induction false} NoneOpen(tasks: seq<Task>, i: nat)
    requires Drained(tasks)
    ensures Open(tasks, i) == 0 && Waited(tasks, i) == 0
  {
    if tasks != [] { NoneOpen(tasks[..|tasks| - 1], i); }
  }

  /** The events a request can still cause. */
  function Steps(tasks: seq<Task>): nat {
    if tasks == [] then 0
    else
      var n := |tasks| - 1;
      Steps(tasks[..n]) + (match tasks[n].stage case Waiting => 2 case Streaming => 1 case Over => 0)
  }

  lemma {:induction false} StepsUpdate(tasks: seq<Task>, k: nat, t: Task)
    requires k < |tasks|
    ensures Steps(tasks[k := t]) == Steps(tasks) + Steps([t]) - Steps([tasks[k]])
  {
    var n := |tasks| - 1;
    if k < n {
      StepsUpdate(tasks[..n], k, t);
      assert tasks[k := t][..n] == tasks[..n][k := t];
    } else {
      assert tasks[k := t][..n] == tasks[..n];
      assert [t][..0] == [] && [tasks[k]][..0] == [];
    }
  }

  /** A run over `d` requests has at most three events for each. */
  lemma {:induction false} RunIsShort(tasks: seq<Task>, n: nat, events: seq<Event>)
    requires Feasible(tasks, n, events)
    ensures |events| + Steps(Run(tasks, n, events)) <= Steps(tasks) + 3 * (|Run(tasks, n, events)| - |tasks|)
    ensures |Run(tasks, n, events)| >= |tasks|
    decreases |events|
  {
    if events != [] {
      var ev := events[0];
      RunIsShort(After(tasks, ev), n, events[1..]);
      match ev {
        case Dispatch(i, tokens) => assert After(tasks, ev)[..|tasks|] == tasks;
        case FirstToken(k) => StepsUpdate(tasks, k, tasks[k].(stage := Streaming)); StepsOne(tasks[k]); StepsOne(tasks[k].(stage := Streaming));
        case End(k) => StepsUpdate(tasks, k, tasks[k].(stage := Over)); StepsOne(tasks[k]); StepsOne(tasks[k].(stage := Over));
      }
    }
  }

  lemma StepsOne(t: Task)
    ensures Steps([t]) == match t.stage case Waiting => 2 case Streaming => 1 case Over => 0
  {
    assert [t][..0] == [];
  }
}
