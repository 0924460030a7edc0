/**
 attach_lineage (analyze_qwen_trace.py): the memoised walk from every row to the root of its component, and its cycle check.
 It is compared with following the parents one by one.
 */
module Lineage {
  import opened Common

  /** A row's parent_chat_id: none (-1), or a chat id, in the trace or not. */
  type Parents = map<nat, Option<nat>>

  /** Where a component hangs: its root, and whether the trace contains it. */
  datatype Root = Root(id: nat, observed: bool)

  /** `n` parents up, as long as the rows are in the trace. */
  function Climb(parents: Parents, x: nat, n: nat): Option<nat> {
    if n == 0 then Some(x)
    else
      var y := Climb(parents, x, n - 1);
      if y.Some? && y.value in parents then parents[y.value] else None
  }

  /** A row without parent, or with one outside the trace, ends the walk. */
  predicate Ends(parents: Parents, y: nat)
    requires y in parents
  {
    parents[y].None? || parents[y].value !in parents
  }

  function EndOf(parents: Parents, y: nat): Root
    requires y in parents && Ends(parents, y)
  {
    if parents[y].None? then Root(y, true) else Root(parents[y].value, false)
  }

  /** Following the parents one by one from `x` leads to `root`. */
  ghost predicate LeadsTo(parents: Parents, x: nat, root: Root) {
    exists n: nat, y: nat :: Climb(parents, x, n) == Some(y) && y in parents && Ends(parents, y) && EndOf(parents, y) == root
  }

  /** Some row is its own ancestor. */
  ghost predicate HasCycle(parents: Parents) {
    exists x: nat, n: nat :: x in parents && n > 0 && Climb(parents, x, n) == Some(x)
  }

  // ---------------------------------------------------------------------------------------
  // Walks

  lemma {:induction false} ClimbAdd(parents: Parents, x: nat, m: nat, n: nat)
    requires Climb(parents, x, m).Some?
    ensures Climb(parents, x, m + n) == Climb(parents, Climb(parents, x, m).value, n)
  {
    if n > 0 { ClimbAdd(parents, x, m, n - 1); }
  }

  /** A walk that goes on has come through rows of the trace that do not end it. */
  lemma {:induction false} ClimbPasses(parents: Parents, x: nat, m: nat, n: nat)
    requires m < n && Climb(parents, x, n).Some? && Climb(parents, x, n).value in parents
    ensures var y := Climb(parents, x, m); y.Some? && y.value in parents && !Ends(parents, y.value)
    decreases n - m
  {
    if m + 1 < n {
      ClimbPasses(parents, x, m + 1, n);
    }
  }

  /** A walk has one end. */
  lemma LeadsToOne(parents: Parents, x: nat, a: Root, b: Root)
    requires LeadsTo(parents, x, a) && LeadsTo(parents, x, b)
    ensures a == b
  {
    var m: nat, y: nat :| Climb(parents, x, m) == Some(y) && y in parents && Ends(parents, y) && EndOf(parents, y) == a;
    var n: nat, z: nat :| Climb(parents, x, n) == Some(z) && z in parents && Ends(parents, z) && EndOf(parents, z) == b;
    if m < n { ClimbPasses(parents, x, m, n); } else if n < m { ClimbPasses(parents, x, n, m); }
  }

  /** A row leads where its parent leads. */
  lemma LeadsFromParent(parents: Parents, x: nat, root: Root)
    requires x in parents && !Ends(parents, x) && LeadsTo(parents, parents[x].value, root)
    ensures LeadsTo(parents, x, root)
  {
    var n: nat, y: nat :| Climb(parents, parents[x].value, n) == Some(y) && y in parents && Ends(parents, y) && EndOf(parents, y) == root;
    assert Climb(parents, x, 1) == parents[x];
    ClimbAdd(parents, x, 1, n);
    assert Climb(parents, x, 1 + n) == Some(y);
  }

  lemma EndLeads(parents: Parents, x: nat)
    requires x in parents && Ends(parents, x)
    ensures LeadsTo(parents, x, EndOf(parents, x))
  {
    assert Climb(parents, x, 0) == Some(x);
  }

  /** Going round a cycle any number of times stays on it. */
  lemma {:induction false} Round(parents: Parents, x: nat, n: nat, times: nat)
    requires n > 0 && Climb(parents, x, n) == Some(x)
    ensures Climb(parents, x, n * times) == Some(x)
  {
    if times > 0 {
      Round(parents, x, n, times - 1);
      ClimbAdd(parents, x, n * (times - 1), n);
      assert n * (times - 1) + n == n * times;
    }
  }

  /** Nobody on a cycle leads anywhere. */
  lemma CycleNeverEnds(parents: Parents, x: nat, n: nat, root: Root)
    requires x in parents && n > 0 && Climb(parents, x, n) == Some(x)
    ensures !LeadsTo(parents, x, root)
  {
    if LeadsTo(parents, x, root) {
      var m: nat, y: nat :| Climb(parents, x, m) == Some(y) && y in parents && Ends(parents, y) && EndOf(parents, y) == root;
      Round(parents, x, n, m + 1);
      assert m < n * (m + 1) by { Longer(m, n); }
      ClimbPasses(parents, x, m, n * (m + 1));
      assert false;
    }
  }

  lemma Longer(m: nat, n: nat)
    requires n > 0
    ensures m < n * (m + 1)
  {}

  // ---------------------------------------------------------------------------------------
  // The memoised walk

  /** The rows with a root lead there. */
  ghost predicate Sound(parents: Parents, roots: map<nat, Root>) {
    forall x :: x in roots ==> x in parents && LeadsTo(parents, x, roots[x])
  }

  /** `chain` climbs from `row` through rows without a root yet, none twice, to just below `current`. */
  ghost predicate Climbing(parents: Parents, roots: map<nat, Root>, row: nat, chain: seq<nat>, current: nat) {
    && Distinct(chain) && Climb(parents, row, |chain|) == Some(current)
    && forall k :: 0 <= k < |chain| ==>
         chain[k] in parents && chain[k] !in roots && !Ends(parents, chain[k]) && Climb(parents, row, k) == Some(chain[k])
  }

  lemma ClimbingNext(parents: Parents, roots: map<nat, Root>, row: nat, chain: seq<nat>, current: nat)
    requires Climbing(parents, roots, row, chain, current)
    requires current in parents && current !in roots && current !in chain && !Ends(parents, current)
    ensures Climbing(parents, roots, row, chain + [current], parents[current].value)
  {}

  /** Coming back to a row of the chain closes a cycle. */
  lemma ChainCycle(parents: Parents, roots: map<nat, Root>, row: nat, chain: seq<nat>, current: nat)
    requires Climbing(parents, roots, row, chain, current) && current in chain
    ensures HasCycle(parents)
  {
    var k := IndexOf(chain, current);
    ClimbAdd(parents, row, k, |chain| - k);
    assert Climb(parents, current, |chain| - k) == Some(current);
  }

  /** Every row of the chain leads where its top leads. */
  lemma {:induction false} ChainLeads(parents: Parents, roots: map<nat, Root>, row: nat, chain: seq<nat>, current: nat,
                                      root: Root, k: nat)
    requires Climbing(parents, roots, row, chain, current) && LeadsTo(parents, current, root) && k <= |chain|
    ensures forall i :: k <= i < |chain| ==> LeadsTo(parents, chain[i], root)
    decreases |chain| - k
  {
    hide LeadsTo;
    if k < |chain| {
      ChainLeads(parents, roots, row, chain, current, root, k + 1);
      assert Climb(parents, row, k + 1) == parents[chain[k]];
      assert LeadsTo(parents, parents[chain[k]].value, root);
      LeadsFromParent(parents, chain[k], root);
    }
  }

  lemma ClimbStart(parents: Parents, roots: map<nat, Root>, row: nat)
    ensures Climbing(parents, roots, row, [], row)
  {}

  /** The chain is shorter than the trace. */
  lemma ChainRoom(parents: Parents, chain: seq<nat>, current: nat)
    requires Distinct(chain) && (forall k :: 0 <= k < |chain| ==> chain[k] in parents) && current in parents && current !in chain
    ensures |chain| < |parents.Keys|
  {
    ElementsLength(chain);
    assert Elements(chain) + {current} <= parents.Keys;
    Subset(Elements(chain) + {current}, parents.Keys);
  }

  lemma {:induction false} Subset(a: set<nat>, b: set<nat>)
    requires a <= b
    ensures |a| <= |b|
  {
    if a != {} {
      var x :| x in a;
      Subset(a - {x}, b - {x});
    }
  }

  /** One row's walk: up to a row whose root is known, or to the end. None: a cycle. */
  method WalkUp(parents: Parents, roots: map<nat, Root>, row: nat) returns (r: Option<map<nat, Root>>)
    requires Sound(parents, roots) && row in parents
    ensures r.None? ==> HasCycle(parents)
    ensures r.Some? ==> Sound(parents, r.value) && row in r.value && roots.Keys <= r.value.Keys
  {
    hide LeadsTo, HasCycle, Climbing, Ends;
    var chain: seq<nat>, current, root := [], row, None;
    ClimbStart(parents, roots, row);
    while current !in roots && root.None?
      invariant current in parents && Climbing(parents, roots, row, chain, current)
      invariant root.Some? ==> current !in roots && current !in chain && LeadsTo(parents, current, root.value)
      decreases root.None?, |parents.Keys| - |chain|
    {
      if current in chain {
        ChainCycle(parents, roots, row, chain, current);
        return None;
      }
      if Ends(parents, current) {
        EndLeads(parents, current);
        root := Some(EndOf(parents, current));
      } else {
        ChainIs(parents, roots, row, chain, current);
        ChainRoom(parents, chain, current);
        ClimbingNext(parents, roots, row, chain, current);
        NotEnd(parents, current);
        chain := chain + [current];
        current := parents[current].value;
      }
    }
    var found := if root.Some? then root.value else roots[current];
    var items := if root.Some? then chain + [current] else chain;
    ChainIs(parents, roots, row, chain, current);
    ChainLeads(parents, roots, row, chain, current, found, 0);
    r := Some(roots + map x | x in items :: found);
    RowCovered(parents, roots, row, chain, current);
  }

  lemma NotEnd(parents: Parents, x: nat)
    requires x in parents && !Ends(parents, x)
    ensures parents[x].Some? && parents[x].value in parents
  {}

  lemma ChainIs(parents: Parents, roots: map<nat, Root>, row: nat, chain: seq<nat>, current: nat)
    requires Climbing(parents, roots, row, chain, current)
    ensures Distinct(chain) && forall k :: 0 <= k < |chain| ==> chain[k] in parents
  {}

  lemma RowCovered(parents: Parents, roots: map<nat, Root>, row: nat, chain: seq<nat>, current: nat)
    requires Climbing(parents, roots, row, chain, current)
    ensures row in chain || row == current
  {
    if chain != [] { assert chain[0] == row; }
  }

  // ---------------------------------------------------------------------------------------
  // All rows

  /** The rows in components, each row in the component of its root, in trace order. */
  ghost predicate Grouped(groups: map<nat, seq<nat>>, rows: seq<nat>, roots: map<nat, Root>)
    requires forall k :: 0 <= k < |rows| ==> rows[k] in roots
  {
    && (forall k :: 0 <= k < |rows| ==> roots[rows[k]].id in groups)
    && forall id :: id in groups ==> groups[id] != [] && groups[id] == Members(rows, roots, id)
  }

  /** The rows of one component. */
  function Members(rows: seq<nat>, roots: map<nat, Root>, id: nat): seq<nat>
    requires forall k :: 0 <= k < |rows| ==> rows[k] in roots
  {
    if rows == [] then []
    else
      var n := |rows| - 1;
      Members(rows[..n], roots, id) + (if roots[rows[n]].id == id then [rows[n]] else [])
  }

  datatype Result = Cycle | Components(roots: map<nat, Root>, groups: map<nat, seq<nat>>)

  /** attach_lineage without its audit counts. */
  method AttachLineage(rows: seq<nat>, parents: Parents) returns (r: Result)
    requires forall x :: x in rows <==> x in parents
    ensures r.Cycle? <==> HasCycle(parents)
    ensures r.Components? ==> r.roots.Keys == parents.Keys && Sound(parents, r.roots)
    ensures r.Components? ==> (forall k :: 0 <= k < |rows| ==> rows[k] in r.roots) && Grouped(r.groups, rows, r.roots)
  {
    hide LeadsTo, HasCycle, Grouped;
    var roots: map<nat, Root> := map[];
    for n := 0 to |rows|
      invariant Sound(parents, roots) && forall k :: 0 <= k < n ==> rows[k] in roots
    {
      assert rows[n] in rows;
      var next := WalkUp(parents, roots, rows[n]);
      if next.None? { return Cycle; }
      roots := next.value;
    }
    assert forall x :: x in parents ==> x in roots;
    NoCycle(parents, roots);
    var groups := GroupRows(rows, roots);
    r := Components(roots, groups);
  }

  lemma NoCycle(parents: Parents, roots: map<nat, Root>)
    requires Sound(parents, roots) && roots.Keys == parents.Keys
    ensures !HasCycle(parents)
  {
    hide LeadsTo;
    if HasCycle(parents) {
      var x: nat, n: nat :| x in parents && n > 0 && Climb(parents, x, n) == Some(x);
      CycleNeverEnds(parents, x, n, roots[x]);
      assert false;
    }
  }

  /** The second loop: setdefault and append. */
  method GroupRows(rows: seq<nat>, roots: map<nat, Root>) returns (groups: map<nat, seq<nat>>)
    requires forall k :: 0 <= k < |rows| ==> rows[k] in roots
    ensures Grouped(groups, rows, roots)
  {
    groups := map[];
    for n := 0 to |rows|
      invariant Grouped(groups, rows[..n], roots)
    {
      var id := roots[rows[n]].id;
      GroupedNext(groups, rows, roots, n);
      groups := groups[id := (if id in groups then groups[id] else []) + [rows[n]]];
    }
    assert rows[..|rows|] == rows;
  }

  lemma GroupedNext(groups: map<nat, seq<nat>>, rows: seq<nat>, roots: map<nat, Root>, n: nat)
    requires n < |rows| && (forall k :: 0 <= k < |rows| ==> rows[k] in roots) && Grouped(groups, rows[..n], roots)
    ensures var id := roots[rows[n]].id;
            Grouped(groups[id := (if id in groups then groups[id] else []) + [rows[n]]], rows[..n + 1], roots)
  {
    assert rows[..n + 1][..n] == rows[..n];
    var id := roots[rows[n]].id;
    if id !in groups { NoMembers(rows[..n], roots, id); }
  }

  lemma {:induction false} NoMembers(rows: seq<nat>, roots: map<nat, Root>, id: nat)
    requires forall k :: 0 <= k < |rows| ==> rows[k] in roots && roots[rows[k]].id != id
    ensures Members(rows, roots, id) == []
  {
    if rows != [] { NoMembers(rows[..|rows| - 1], roots, id); }
  }
}
