/**
 add_context_witnesses (analyze_qwen_temporal.py): the latest earlier qualifying request of another component, found by
 popping and re-inserting a component's entry in an ordered dictionary and reading it from the back.
 */
module Contexts {
  import opened Common
  import opened PrefixIndex
  import opened PrefixRecency

  /** input_length and potential_reuse_fraction of a row. */
  datatype Fact = Fact(inputLen: int, reuse: real)

  /** A threshold, over all long predecessors or those with little overlap only. */
  datatype Variant = Variant(threshold: int, lowOnly: bool)

  predicate Qualifies(f: Fact, v: Variant) {
    f.inputLen >= v.threshold && (v.lowOnly ==> f.reuse < 0.25)
  }

  predicate AllKnown(facts: map<nat, Fact>, s: seq<Row>) {
    forall i :: 0 <= i < |s| ==> s[i].id in facts
  }

  /** A qualifying row of another component. */
  predicate Wanted(facts: map<nat, Fact>, v: Variant, component: int, r: Row)
    requires r.id in facts
  {
    Qualifies(facts[r.id], v) && r.component != component
  }

  // ---------------------------------------------------------------------------------------
  // The ordered dictionary

  /** The entries of the other components, in order: pop. */
  function Popped(owners: seq<Row>, component: int): seq<Row> {
    if owners == [] then []
    else
      var n := |owners| - 1;
      Popped(owners[..n], component) + (if owners[n].component != component then [owners[n]] else [])
  }

  /** The dictionary of a variant after the rows of `s`, oldest entry first. */
  function Owners(facts: map<nat, Fact>, v: Variant, s: seq<Row>): seq<Row>
    requires AllKnown(facts, s)
  {
    if s == [] then []
    else
      var n := |s| - 1;
      var owners := Owners(facts, v, s[..n]);
      if Qualifies(facts[s[n].id], v) then Popped(owners, s[n].component) + [s[n]] else owners
  }

  /** The last entry of another component. */
  function LastOther(owners: seq<Row>, component: int): Option<Row> {
    if owners == [] then None
    else
      var n := |owners| - 1;
      if owners[n].component != component then Some(owners[n]) else LastOther(owners[..n], component)
  }

  /** The last wanted row of `s`. */
  ghost predicate IsLast(facts: map<nat, Fact>, v: Variant, component: int, s: seq<Row>, w: Option<Row>)
    requires AllKnown(facts, s)
  {
    match w
    case None => forall i :: 0 <= i < |s| ==> !Wanted(facts, v, component, s[i])
    case Some(r) => exists i :: 0 <= i < |s| && s[i] == r && Wanted(facts, v, component, r)
                                && forall k :: i < k < |s| ==> !Wanted(facts, v, component, s[k])
  }

  /** Each component once. */
  ghost predicate OnceEach(owners: seq<Row>) {
    forall i, j :: 0 <= i < j < |owners| ==> owners[i].component != owners[j].component
  }

  lemma {:induction false} PoppedOther(owners: seq<Row>, component: int)
    ensures LastOther(Popped(owners, component), component) == LastOther(owners, component)
  {
    if owners != [] {
      var n := |owners| - 1;
      PoppedOther(owners[..n], component);
      assert owners == owners[..n] + [owners[n]];
      LastOtherAppend(owners[..n], owners[n], component);
      var rest := Popped(owners[..n], component);
      if owners[n].component != component {
        LastOtherAppend(rest, owners[n], component);
      } else {
        assert rest + [] == rest;
      }
    }
  }

  lemma {:induction false} PoppedFrom(owners: seq<Row>, component: int)
    ensures forall r :: r in Popped(owners, component) ==> r.component != component && r in owners
  {
    if owners != [] { PoppedFrom(owners[..|owners| - 1], component); }
  }

  lemma {:induction false} PoppedOnce(owners: seq<Row>, component: int)
    requires OnceEach(owners)
    ensures OnceEach(Popped(owners, component))
  {
    if owners != [] {
      var n := |owners| - 1;
      PoppedOnce(owners[..n], component);
      PoppedFrom(owners[..n], component);
    }
  }

  lemma LastOtherAppend(owners: seq<Row>, r: Row, component: int)
    ensures LastOther(owners + [r], component) == if r.component != component then Some(r) else LastOther(owners, component)
  {
    assert (owners + [r])[..|owners|] == owners;
  }

  /** The dictionary holds each component at most once, so popping by key and reinserting is all an update does. */
  lemma {:induction false} OwnersOnce(facts: map<nat, Fact>, v: Variant, s: seq<Row>)
    requires AllKnown(facts, s)
    ensures OnceEach(Owners(facts, v, s))
  {
    if s != [] {
      OwnersOnce(facts, v, s[..|s| - 1]);
      PoppedOnce(Owners(facts, v, s[..|s| - 1]), s[|s| - 1].component);
      PoppedFrom(Owners(facts, v, s[..|s| - 1]), s[|s| - 1].component);
    }
  }

  lemma LastNext(facts: map<nat, Fact>, v: Variant, component: int, s: seq<Row>, r: Row, w: Option<Row>)
    requires AllKnown(facts, s) && r.id in facts && IsLast(facts, v, component, s, w)
    ensures AllKnown(facts, s + [r])
    ensures IsLast(facts, v, component, s + [r], if Wanted(facts, v, component, r) then Some(r) else w)
  {
    var t := s + [r];
    assert forall i :: 0 <= i < |s| ==> t[i] == s[i];
    assert t[|s|] == r;
    if !Wanted(facts, v, component, r) && w.Some? {
      var i :| 0 <= i < |s| && s[i] == w.value && Wanted(facts, v, component, w.value)
               && forall k :: i < k < |s| ==> !Wanted(facts, v, component, s[k]);
      assert t[i] == w.value;
    }
  }

  /** Read from the back, the dictionary gives the last wanted row. */
  lemma {:induction false} OwnersLast(facts: map<nat, Fact>, v: Variant, component: int, s: seq<Row>)
    requires AllKnown(facts, s)
    ensures IsLast(facts, v, component, s, LastOther(Owners(facts, v, s), component))
  {
    if s != [] {
      hide IsLast, LastOther, Popped;
      var n := |s| - 1;
      var owners := Owners(facts, v, s[..n]);
      OwnersLast(facts, v, component, s[..n]);
      LastNext(facts, v, component, s[..n], s[n], LastOther(owners, component));
      assert s == s[..n] + [s[n]];
      LastOtherAppend(Popped(owners, s[n].component), s[n], component);
      PoppedOther(owners, component);
    } else {
      hide Wanted;
    }
  }

  // ---------------------------------------------------------------------------------------
  // What a row is told

  /** witness_chat_id and age_seconds. */
  datatype Context = Context(source: Option<nat>, age: Option<real>)

  ghost predicate Candidate(facts: map<nat, Fact>, v: Variant, row: Row, r: Row)
    requires r.id in facts
  {
    r.time < row.time && Wanted(facts, v, row.component, r)
  }

  /** The latest strictly earlier qualifying row of another component, by time and chat id; None if there is none. */
  ghost predicate IsContext(facts: map<nat, Fact>, v: Variant, rows: seq<Row>, row: Row, c: Context)
    requires AllKnown(facts, rows)
  {
    match c.source
    case None => c.age.None? && forall i :: 0 <= i < |rows| ==> !Candidate(facts, v, row, rows[i])
    case Some(id) =>
      exists i :: 0 <= i < |rows| && rows[i].id == id && Candidate(facts, v, row, rows[i]) && c.age == Some(row.time - rows[i].time)
                  && forall k :: 0 <= k < |rows| && Candidate(facts, v, row, rows[k]) ==> k == i || RowLess(rows[k], rows[i])
  }

  function ContextOf(row: Row, prior: Option<Row>): Context {
    if prior.Some? then Context(Some(prior.value.id), Some(row.time - prior.value.time)) else Context(None, None)
  }

  /** In the sorted rows the strictly earlier ones are those before the row's batch. */
  lemma BatchContext(facts: map<nat, Fact>, v: Variant, ordered: seq<Row>, hi: nat, i: nat, prior: Option<Row>)
    requires AllKnown(facts, ordered) && Ordered(ordered) && hi <= i < |ordered| && ordered[i].time == ordered[hi].time
    requires hi > 0 ==> ordered[hi - 1].time < ordered[hi].time
    requires IsLast(facts, v, ordered[i].component, ordered[..hi], prior)
    ensures IsContext(facts, v, ordered, ordered[i], ContextOf(ordered[i], prior))
  {
    hide Wanted;
    var row := ordered[i];
    forall k | 0 <= k < |ordered| ensures ordered[k].time < row.time <==> k < hi {
      assert k < hi - 1 ==> RowLess(ordered[k], ordered[hi - 1]);
      assert k > hi ==> RowLess(ordered[hi], ordered[k]);
    }
    if prior.Some? {
      var j :| 0 <= j < hi && ordered[..hi][j] == prior.value && Wanted(facts, v, row.component, prior.value)
               && forall k :: j < k < hi ==> !Wanted(facts, v, row.component, ordered[..hi][k]);
      assert ordered[j] == prior.value;
      forall k | 0 <= k < |ordered| && Candidate(facts, v, row, ordered[k]) ensures k == j || RowLess(ordered[k], ordered[j]) {
        assert k < hi && ordered[..hi][k] == ordered[k];
      }
    } else {
      forall k | 0 <= k < hi ensures !Wanted(facts, v, row.component, ordered[k]) {
        assert ordered[..hi][k] == ordered[k];
      }
    }
  }

  /** Sorting changes nothing about what is the context. */
  lemma ContextSorted(facts: map<nat, Fact>, v: Variant, ordered: seq<Row>, rows: seq<Row>, row: Row, c: Context)
    requires AllKnown(facts, ordered) && AllKnown(facts, rows) && forall r :: r in ordered <==> r in rows
    requires UniqueIds(rows) && IsContext(facts, v, ordered, row, c)
    ensures IsContext(facts, v, rows, row, c)
  {
    hide Candidate, RowLess;
    if c.source.None? {
      forall i | 0 <= i < |rows| ensures !Candidate(facts, v, row, rows[i]) {
        assert rows[i] in ordered;
      }
    } else {
      var i :| 0 <= i < |ordered| && ordered[i].id == c.source.value && Candidate(facts, v, row, ordered[i])
               && c.age == Some(row.time - ordered[i].time)
               && forall k :: 0 <= k < |ordered| && Candidate(facts, v, row, ordered[k]) ==> k == i || RowLess(ordered[k], ordered[i]);
      assert ordered[i] in rows;
      var j := IndexOf(rows, ordered[i]);
      forall k | 0 <= k < |rows| && Candidate(facts, v, row, rows[k]) ensures k == j || RowLess(rows[k], rows[j]) {
        assert rows[k] in ordered;
        var m := IndexOf(ordered, rows[k]);
        assert ordered[m] == rows[k];
      }
    }
  }

  // ---------------------------------------------------------------------------------------
  // add_context_witnesses

  type Contexts = map<nat, seq<Context>>

  ghost predicate RowTold(contexts: Contexts, facts: map<nat, Fact>, variants: seq<Variant>, rows: seq<Row>, row: Row)
    requires AllKnown(facts, rows)
  {
    && row.id in contexts && |contexts[row.id]| == |variants|
    && forall v :: 0 <= v < |variants| ==> IsContext(facts, variants[v], rows, row, contexts[row.id][v])
  }

  /** The dictionaries of all variants after `s`. */
  ghost predicate Kept(owners: seq<seq<Row>>, facts: map<nat, Fact>, variants: seq<Variant>, s: seq<Row>)
    requires AllKnown(facts, s)
  {
    |owners| == |variants| && forall v :: 0 <= v < |variants| ==> owners[v] == Owners(facts, variants[v], s)
  }

  /** One row's contexts. */
  method Tell(owners: seq<seq<Row>>, facts: map<nat, Fact>, variants: seq<Variant>, ordered: seq<Row>, hi: nat, i: nat)
    returns (told: seq<Context>)
    requires AllKnown(facts, ordered) && Ordered(ordered) && hi <= i < |ordered| && ordered[i].time == ordered[hi].time
    requires (hi > 0 ==> ordered[hi - 1].time < ordered[hi].time) && Kept(owners, facts, variants, ordered[..hi])
    ensures |told| == |variants|
    ensures forall v :: 0 <= v < |variants| ==> IsContext(facts, variants[v], ordered, ordered[i], told[v])
  {
    hide Owners, IsContext, LastOther, Ordered, IsLast;
    told := [];
    for v := 0 to |variants|
      invariant |told| == v && forall u :: 0 <= u < v ==> IsContext(facts, variants[u], ordered, ordered[i], told[u])
    {
      var prior := LastOther(owners[v], ordered[i].component);
      OwnersLast(facts, variants[v], ordered[i].component, ordered[..hi]);
      BatchContext(facts, variants[v], ordered, hi, i, prior);
      told := told + [ContextOf(ordered[i], prior)];
    }
  }

  /** One row enters the dictionaries it qualifies for. */
  method Enter(owners: seq<seq<Row>>, facts: map<nat, Fact>, variants: seq<Variant>, ghost s: seq<Row>, row: Row)
    returns (next: seq<seq<Row>>)
    requires AllKnown(facts, s) && row.id in facts && Kept(owners, facts, variants, s)
    ensures AllKnown(facts, s + [row]) && Kept(next, facts, variants, s + [row])
  {
    assert (s + [row])[..|s|] == s;
    next := owners;
    for v := 0 to |variants|
      invariant |next| == |variants|
      invariant forall u :: 0 <= u < |variants| ==> next[u] == Owners(facts, variants[u], if u < v then s + [row] else s)
    {
      hide Popped;
      if Qualifies(facts[row.id], variants[v]) {
        next := next[v := Popped(next[v], row.component) + [row]];
      }
    }
  }

  /** Rows of equal time are all told before any of them is entered. */
  method AddContextWitnesses(rows: seq<Row>, facts: map<nat, Fact>, variants: seq<Variant>) returns (contexts: Contexts)
    requires UniqueIds(rows) && AllKnown(facts, rows)
    ensures forall i :: 0 <= i < |rows| ==> RowTold(contexts, facts, variants, rows, rows[i])
  {
    hide SortRows, Ordered, Kept, RowTold, UniqueIds;
    var ordered := SortRows(rows);
    SortRowsOrdered(rows);
    SortedKnown(facts, rows, ordered);
    contexts := map[];
    var owners := seq(|variants|, _ => []);
    StartKept(facts, variants);
    var hi := 0;
    assert ordered[..0] == [];
    while hi < |ordered|
      invariant hi <= |ordered| && (0 < hi < |ordered| ==> ordered[hi - 1].time < ordered[hi].time)
      invariant Kept(owners, facts, variants, ordered[..hi])
      invariant forall i :: 0 <= i < hi ==> RowTold(contexts, facts, variants, ordered, ordered[i])
    {
      var next := BatchEnd(ordered, hi);
      contexts := TellBatch(contexts, owners, facts, variants, ordered, hi, next);
      owners := EnterBatch(owners, facts, variants, ordered, hi, next);
      hi := next;
    }
    AllTold(contexts, facts, variants, ordered, rows);
  }

  method TellBatch(before: Contexts, owners: seq<seq<Row>>, facts: map<nat, Fact>, variants: seq<Variant>, ordered: seq<Row>,
                   hi: nat, next: nat) returns (contexts: Contexts)
    requires AllKnown(facts, ordered) && Ordered(ordered) && UniqueIds(ordered) && hi < next <= |ordered|
    requires (forall i :: hi <= i < next ==> ordered[i].time == ordered[hi].time)
    requires (hi > 0 ==> ordered[hi - 1].time < ordered[hi].time) && Kept(owners, facts, variants, ordered[..hi])
    requires forall i :: 0 <= i < hi ==> RowTold(before, facts, variants, ordered, ordered[i])
    ensures forall i :: 0 <= i < next ==> RowTold(contexts, facts, variants, ordered, ordered[i])
  {
    hide Ordered, Kept, RowTold, UniqueIds, IsContext;
    contexts := before;
    for i := hi to next
      invariant forall k :: 0 <= k < i ==> RowTold(contexts, facts, variants, ordered, ordered[k])
    {
      var told := Tell(owners, facts, variants, ordered, hi, i);
      ToldNext(contexts, facts, variants, ordered, i, told);
      contexts := contexts[ordered[i].id := told];
    }
  }

  lemma ToldNext(contexts: Contexts, facts: map<nat, Fact>, variants: seq<Variant>, ordered: seq<Row>, i: nat, told: seq<Context>)
    requires AllKnown(facts, ordered) && UniqueIds(ordered) && i < |ordered| && |told| == |variants|
    requires forall v :: 0 <= v < |variants| ==> IsContext(facts, variants[v], ordered, ordered[i], told[v])
    requires forall k :: 0 <= k < i ==> RowTold(contexts, facts, variants, ordered, ordered[k])
    ensures forall k :: 0 <= k <= i ==> RowTold(contexts[ordered[i].id := told], facts, variants, ordered, ordered[k])
  {
    hide IsContext;
  }

  method EnterBatch(before: seq<seq<Row>>, facts: map<nat, Fact>, variants: seq<Variant>, ordered: seq<Row>, hi: nat, next: nat)
    returns (owners: seq<seq<Row>>)
    requires AllKnown(facts, ordered) && hi < next <= |ordered| && Kept(before, facts, variants, ordered[..hi])
    ensures Kept(owners, facts, variants, ordered[..next])
  {
    hide Kept;
    owners := before;
    for i := hi to next
      invariant Kept(owners, facts, variants, ordered[..i])
    {
      assert ordered[..i + 1] == ordered[..i] + [ordered[i]];
      owners := Enter(owners, facts, variants, ordered[..i], ordered[i]);
    }
  }

  lemma StartKept(facts: map<nat, Fact>, variants: seq<Variant>)
    ensures Kept(seq(|variants|, _ => []), facts, variants, [])
  {}

  lemma SortedKnown(facts: map<nat, Fact>, rows: seq<Row>, ordered: seq<Row>)
    requires AllKnown(facts, rows) && forall r :: r in ordered <==> r in rows
    ensures AllKnown(facts, ordered)
  {
    forall i | 0 <= i < |ordered| ensures ordered[i].id in facts { assert ordered[i] in rows; }
  }

  lemma AllTold(contexts: Contexts, facts: map<nat, Fact>, variants: seq<Variant>, ordered: seq<Row>, rows: seq<Row>)
    requires AllKnown(facts, ordered) && AllKnown(facts, rows) && UniqueIds(rows) && forall r :: r in ordered <==> r in rows
    requires forall i :: 0 <= i < |ordered| ==> RowTold(contexts, facts, variants, ordered, ordered[i])
    ensures forall i :: 0 <= i < |rows| ==> RowTold(contexts, facts, variants, rows, rows[i])
  {
    hide IsContext, UniqueIds;
    forall i | 0 <= i < |rows| ensures RowTold(contexts, facts, variants, rows, rows[i]) {
      assert rows[i] in ordered;
      var k := IndexOf(ordered, rows[i]);
      assert RowTold(contexts, facts, variants, ordered, ordered[k]);
      forall v | 0 <= v < |variants| ensures IsContext(facts, variants[v], rows, rows[i], contexts[rows[i].id][v]) {
        ContextSorted(facts, variants[v], ordered, rows, rows[i], contexts[rows[i].id][v]);
      }
    }
  }
}
