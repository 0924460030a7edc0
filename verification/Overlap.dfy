/**
 nonoverlap_representatives (audit_wildchat.py): union-find with path halving over the overlap pairs, then one whole
 history per component. The parent table is rewritten in place; heights, which only the proof sees, order its chains.
 */
module Overlap {
  import opened Common

  datatype Record = Record(id: nat, messages: int, rank: int)

  /** Two histories were found to overlap. */
  predicate Joins(pairs: seq<(nat, nat)>, x: nat, y: nat) {
    (x, y) in pairs || (y, x) in pairs
  }

  /** A chain of overlaps. */
  ghost predicate IsPath(pairs: seq<(nat, nat)>, path: seq<nat>) {
    path != [] && forall k :: 0 < k < |path| ==> Joins(pairs, path[k - 1], path[k])
  }

  ghost predicate Connected(pairs: seq<(nat, nat)>, x: nat, y: nat) {
    exists path :: IsPath(pairs, path) && path[0] == x && path[|path| - 1] == y
  }

  lemma ConnectedSelf(pairs: seq<(nat, nat)>, x: nat)
    ensures Connected(pairs, x, x)
  {
    assert IsPath(pairs, [x]);
  }

  lemma ConnectedPair(pairs: seq<(nat, nat)>, x: nat, y: nat)
    requires Joins(pairs, x, y)
    ensures Connected(pairs, x, y)
  {
    assert IsPath(pairs, [x, y]);
  }

  lemma ConnectedBack(pairs: seq<(nat, nat)>, x: nat, y: nat)
    requires Connected(pairs, x, y)
    ensures Connected(pairs, y, x)
  {
    var path :| IsPath(pairs, path) && path[0] == x && path[|path| - 1] == y;
    var n := |path|;
    var back := seq(n, k requires 0 <= k < n => path[n - 1 - k]);
    forall k | 0 < k < n ensures Joins(pairs, back[k - 1], back[k]) {
      assert Joins(pairs, path[n - 1 - k], path[n - k]);
    }
    assert IsPath(pairs, back);
  }

  lemma ConnectedChain(pairs: seq<(nat, nat)>, x: nat, y: nat, z: nat)
    requires Connected(pairs, x, y) && Connected(pairs, y, z)
    ensures Connected(pairs, x, z)
  {
    var a :| IsPath(pairs, a) && a[0] == x && a[|a| - 1] == y;
    var b :| IsPath(pairs, b) && b[0] == y && b[|b| - 1] == z;
    var path := a + b[1..];
    forall k | 0 < k < |path| ensures Joins(pairs, path[k - 1], path[k]) {
      if k == |a| { assert path[k] == b[1] && path[k - 1] == b[0]; }
      else if k > |a| { assert path[k] == b[k - |a| + 1] && path[k - 1] == b[k - |a|]; }
    }
    assert IsPath(pairs, path);
  }

  lemma ConnectedMore(pairs: seq<(nat, nat)>, more: seq<(nat, nat)>, x: nat, y: nat)
    requires Connected(pairs, x, y) && forall p :: p in pairs ==> p in more
    ensures Connected(more, x, y)
  {
    var path :| IsPath(pairs, path) && path[0] == x && path[|path| - 1] == y;
    assert IsPath(more, path);
  }

  // ---------------------------------------------------------------------------------------
  // The forest

  /** `rep` names the root of every entry; heights grow along parent links up to `bound`. */
  ghost predicate Forest(parent: map<nat, nat>, rep: map<nat, nat>, height: map<nat, nat>, bound: nat) {
    rep.Keys == parent.Keys == height.Keys && forall x :: x in parent ==> Hangs(parent, rep, height, bound, x)
  }

  /** The entry's link leads upwards inside its own tree. */
  ghost predicate Hangs(parent: map<nat, nat>, rep: map<nat, nat>, height: map<nat, nat>, bound: nat, x: nat)
    requires rep.Keys == parent.Keys == height.Keys && x in parent
  {
    && parent[x] in parent && rep[parent[x]] == rep[x] && height[x] <= bound
    && (parent[x] == x <==> rep[x] == x) && (parent[x] != x ==> height[x] < height[parent[x]])
    && rep[x] in parent && rep[rep[x]] == rep[x]
  }

  /** Everybody is the root of its own tree. */
  function Alone(ids: set<nat>): map<nat, nat> {
    map x | x in ids :: x
  }

  /** The tree of root `r` goes to root `l`. */
  ghost function Merged(rep: map<nat, nat>, l: nat, r: nat): map<nat, nat> {
    map x | x in rep :: if rep[x] == r then l else rep[x]
  }

  class Disjoint {
    var parent: map<nat, nat>
    ghost var rep: map<nat, nat>
    ghost var height: map<nat, nat>
    ghost var bound: nat

    ghost predicate Valid()
      reads this
    {
      Forest(parent, rep, height, bound)
    }

    constructor (ids: set<nat>)
      ensures Valid() && parent.Keys == ids && rep == Alone(ids)
    {
      parent := Alone(ids);
      rep := Alone(ids);
      height := map x | x in ids :: 0;
      bound := 0;
    }

    /** root: every other entry on the way is pointed at its grandparent. No root changes. */
    method Root(x: nat) returns (r: nat)
      requires Valid() && x in parent
      modifies this`parent
      ensures Valid() && parent.Keys == old(parent).Keys && x in rep && r == rep[x] && r in parent && r in rep && rep[r] == r
    {
      hide Forest;
      r := x;
      ForestAt(parent, rep, height, bound, r);
      while parent[r] != r
        invariant Valid() && parent.Keys == old(parent).Keys && r in parent && r in rep && x in rep && rep[r] == rep[x]
        decreases if r in height then bound - height[r] else 0
      {
        ForestAt(parent, rep, height, bound, r);
        ForestAt(parent, rep, height, bound, parent[r]);
        Halved(parent, rep, height, bound, r);
        parent := parent[r := parent[parent[r]]];
        ForestAt(parent, rep, height, bound, r);
        ForestAt(parent, rep, height, bound, parent[r]);
        r := parent[r];
      }
      ForestAt(parent, rep, height, bound, r);
    }

    /** One overlap: the right root is put under the left one. */
    method Join(left: nat, right: nat)
      requires Valid() && left in parent && right in parent
      modifies this
      ensures Valid() && parent.Keys == old(parent).Keys && rep.Keys == old(rep).Keys == parent.Keys
      ensures forall x :: x in rep ==> rep[x] == if old(rep)[x] == old(rep)[right] then old(rep)[left] else old(rep)[x]
    {
      hide Forest;
      ForestKeys(parent, rep, height, bound);
      var l := Root(left);
      var r := Root(right);
      ForestKeys(parent, rep, height, bound);
      ForestAt(parent, rep, height, bound, l);
      ForestAt(parent, rep, height, bound, r);
      RootsStay(parent, rep, height, bound, l, r);
      parent := parent[r := l];
      rep := Merged(rep, l, r);
      if l != r {
        height := height[l := bound + 1];
        bound := bound + 1;
      }
    }
  }

  lemma ForestKeys(parent: map<nat, nat>, rep: map<nat, nat>, height: map<nat, nat>, bound: nat)
    requires Forest(parent, rep, height, bound)
    ensures rep.Keys == parent.Keys == height.Keys
  {}

  lemma ForestAt(parent: map<nat, nat>, rep: map<nat, nat>, height: map<nat, nat>, bound: nat, x: nat)
    requires Forest(parent, rep, height, bound) && x in parent
    ensures x in rep && x in height && height[x] <= bound
    ensures parent[x] in parent && parent[x] in rep && parent[x] in height && rep[parent[x]] == rep[x]
    ensures (parent[x] == x <==> rep[x] == x) && (parent[x] != x ==> height[x] < height[parent[x]])
  {}

  /** Pointing an entry at its grandparent keeps the forest and its roots. */
  lemma Halved(parent: map<nat, nat>, rep: map<nat, nat>, height: map<nat, nat>, bound: nat, x: nat)
    requires Forest(parent, rep, height, bound) && x in parent && parent[x] != x
    ensures Forest(parent[x := parent[parent[x]]], rep, height, bound)
  {
    var halved := parent[x := parent[parent[x]]];
    assert Hangs(parent, rep, height, bound, x) && Hangs(parent, rep, height, bound, parent[x]);
    forall y | y in halved ensures Hangs(halved, rep, height, bound, y) {
      assert Hangs(parent, rep, height, bound, y);
    }
  }

  /** The entries of a merged tree. */
  lemma MergedAt(rep: map<nat, nat>, l: nat, r: nat, x: nat)
    requires x in rep
    ensures Merged(rep, l, r).Keys == rep.Keys && Merged(rep, l, r)[x] == if rep[x] == r then l else rep[x]
  {}

  lemma HangsMerged(parent: map<nat, nat>, rep: map<nat, nat>, height: map<nat, nat>, bound: nat, l: nat, r: nat, x: nat)
    requires rep.Keys == parent.Keys == height.Keys && l in parent && r in parent && x in parent && l != r
    requires Hangs(parent, rep, height, bound, x) && parent[l] == l && parent[r] == r
    requires Hangs(parent, rep, height, bound, l) && Hangs(parent, rep, height, bound, r)
    ensures Merged(rep, l, r).Keys == rep.Keys
    ensures Hangs(parent[r := l], Merged(rep, l, r), height[l := bound + 1], bound + 1, x)
  {
    hide Merged;
    MergedAt(rep, l, r, x);
    MergedAt(rep, l, r, parent[x]);
    MergedAt(rep, l, r, l);
    MergedAt(rep, l, r, rep[x]);
  }

  /** Putting one root under another merges exactly their two trees. */
  lemma RootsStay(parent: map<nat, nat>, rep: map<nat, nat>, height: map<nat, nat>, bound: nat, l: nat, r: nat)
    requires Forest(parent, rep, height, bound) && l in parent && r in parent && parent[l] == l && parent[r] == r
    ensures l == r ==> Merged(rep, l, r) == rep && parent[r := l] == parent
    ensures l != r ==> Forest(parent[r := l], Merged(rep, l, r), height[l := bound + 1], bound + 1)
  {
    if l != r {
      hide Hangs, Merged;
      MergedAt(rep, l, r, l);
      assert height[l := bound + 1].Keys == height.Keys && parent[r := l].Keys == parent.Keys;
      forall x | x in parent ensures Hangs(parent[r := l], Merged(rep, l, r), height[l := bound + 1], bound + 1, x) {
        HangsMerged(parent, rep, height, bound, l, r, x);
      }
    }
  }

  // ---------------------------------------------------------------------------------------
  // Components

  /** Same root exactly if a chain of the first overlaps connects the two. */
  ghost predicate Closed(rep: map<nat, nat>, pairs: seq<(nat, nat)>) {
    forall x, y :: x in rep && y in rep ==> (rep[x] == rep[y] <==> Connected(pairs, x, y))
  }

  lemma {:induction false} SameAlong(rep: map<nat, nat>, pairs: seq<(nat, nat)>, path: seq<nat>)
    requires forall p :: p in pairs ==> p.0 in rep && p.1 in rep && rep[p.0] == rep[p.1]
    requires IsPath(pairs, path) && path[0] in rep
    ensures path[|path| - 1] in rep && rep[path[|path| - 1]] == rep[path[0]]
    decreases |path|
  {
    if |path| > 1 {
      var n := |path| - 1;
      assert IsPath(pairs, path[..n]);
      SameAlong(rep, pairs, path[..n]);
      assert Joins(pairs, path[n - 1], path[n]);
    }
  }

  /** Merging along one more overlap keeps the roots the components of all overlaps so far. */
  lemma ClosedNext(rep: map<nat, nat>, pairs: seq<(nat, nat)>, p: (nat, nat), next: map<nat, nat>)
    requires Closed(rep, pairs) && p.0 in rep && p.1 in rep && next.Keys == rep.Keys
    requires forall q :: q in pairs ==> q.0 in rep && q.1 in rep
    requires forall x :: x in rep ==> next[x] == if rep[x] == rep[p.1] then rep[p.0] else rep[x]
    ensures Closed(next, pairs + [p])
  {
    var more := pairs + [p];
    forall q | q in more ensures q.0 in next && q.1 in next && next[q.0] == next[q.1] {
      if q in pairs { PairSame(rep, pairs, q); }
    }
    forall x, y | x in next && y in next ensures next[x] == next[y] <==> Connected(more, x, y) {
      if Connected(more, x, y) {
        var path :| IsPath(more, path) && path[0] == x && path[|path| - 1] == y;
        SameAlong(next, more, path);
      }
      if next[x] == next[y] { MergedConnected(rep, pairs, p, next, x, y); }
    }
  }

  lemma PairSame(rep: map<nat, nat>, pairs: seq<(nat, nat)>, q: (nat, nat))
    requires Closed(rep, pairs) && q in pairs && q.0 in rep && q.1 in rep
    ensures rep[q.0] == rep[q.1]
  {
    ConnectedPair(pairs, q.0, q.1);
  }

  lemma MergedConnected(rep: map<nat, nat>, pairs: seq<(nat, nat)>, p: (nat, nat), next: map<nat, nat>, x: nat, y: nat)
    requires Closed(rep, pairs) && p.0 in rep && p.1 in rep && x in rep && y in rep && next.Keys == rep.Keys
    requires forall z :: z in rep ==> next[z] == if rep[z] == rep[p.1] then rep[p.0] else rep[z]
    requires next[x] == next[y]
    ensures Connected(pairs + [p], x, y)
  {
    hide Connected;
    var more := pairs + [p];
    if rep[x] == rep[y] {
      ConnectedMore(pairs, more, x, y);
    } else {
      var (a, b) := if rep[x] == rep[p.1] then (x, y) else (y, x);
      assert Connected(pairs, a, p.1) && Connected(pairs, p.0, b);
      ConnectedMore(pairs, more, a, p.1);
      ConnectedMore(pairs, more, p.0, b);
      ConnectedPair(more, p.1, p.0);
      ConnectedChain(more, a, p.1, p.0);
      ConnectedChain(more, a, p.0, b);
      ConnectedBack(more, a, b);
    }
  }

  lemma ClosedStart(ids: set<nat>)
    ensures Closed(Alone(ids), [])
  {
    var rep := Alone(ids);
    forall x, y | x in rep && y in rep ensures rep[x] == rep[y] <==> Connected([], x, y) {
      if Connected([], x, y) {
        var path :| IsPath([], path) && path[0] == x && path[|path| - 1] == y;
        if |path| > 1 { assert !Joins([], path[0], path[1]); }
      }
      if x == y { ConnectedSelf([], x); }
    }
  }

  // ---------------------------------------------------------------------------------------
  // One history per component

  /** The order of the maximum: more messages, then the smaller rank. */
  predicate Less(a: Record, b: Record) {
    a.messages < b.messages || (a.messages == b.messages && a.rank > b.rank)
  }

  /** The first greatest record of a group. */
  method Greatest(group: seq<Record>) returns (best: Record)
    requires group != []
    ensures best in group && forall r :: r in group ==> !Less(best, r)
  {
    best := group[0];
    for k := 1 to |group|
      invariant best in group && forall j :: 0 <= j < k ==> !Less(best, group[j])
    {
      if Less(best, group[k]) { best := group[k]; }
    }
  }

  /** The groups by root, over the first `n` records. */
  ghost predicate Grouped(groups: map<nat, seq<Record>>, records: seq<Record>, rep: map<nat, nat>, n: nat)
    requires n <= |records|
  {
    && (forall k :: 0 <= k < n ==> records[k].id in rep && rep[records[k].id] in groups && records[k] in groups[rep[records[k].id]])
    && (forall root :: root in groups ==>
          groups[root] != [] && forall r :: r in groups[root] ==> r in records && r.id in rep && rep[r.id] == root)
  }

  /** Nothing in the record's component is greater. */
  ghost predicate Leads(r: Record, records: seq<Record>, pairs: seq<(nat, nat)>) {
    forall s :: s in records && Connected(pairs, r.id, s.id) ==> !Less(r, s)
  }

  /** `kept` has, for every component, exactly its greatest record. */
  ghost predicate OnePerComponent(kept: set<nat>, records: seq<Record>, pairs: seq<(nat, nat)>) {
    && (forall id :: id in kept ==> exists r :: r in records && r.id == id && Leads(r, records, pairs))
    && (forall r :: r in records ==> exists id :: id in kept && Connected(pairs, r.id, id))
    && (forall a, b :: a in kept && b in kept && Connected(pairs, a, b) ==> a == b)
  }

  ghost predicate Known(records: seq<Record>, pairs: seq<(nat, nat)>) {
    forall p :: p in pairs ==> (exists r :: r in records && r.id == p.0) && (exists r :: r in records && r.id == p.1)
  }

  method NonoverlapRepresentatives(records: seq<Record>, pairs: seq<(nat, nat)>) returns (kept: set<nat>)
    requires Known(records, pairs)
    ensures OnePerComponent(kept, records, pairs)
  {
    hide Connected, OnePerComponent, Forest, Closed, Grouped;
    var forest := Unite(records, pairs);
    var groups := Group(forest, records);
    kept := Choose(groups, records, forest.rep, pairs);
  }

  /** The overlaps one by one. */
  method Unite(records: seq<Record>, pairs: seq<(nat, nat)>) returns (forest: Disjoint)
    requires Known(records, pairs)
    ensures fresh(forest) && forest.Valid() && Closed(forest.rep, pairs)
    ensures forall r :: r in records ==> r.id in forest.parent
  {
    hide Connected, Forest, Closed;
    var ids := set r | r in records :: r.id;
    forest := new Disjoint(ids);
    ClosedStart(ids);
    assert pairs[..0] == [];
    for k := 0 to |pairs|
      invariant fresh(forest) && forest.Valid() && forest.parent.Keys == ids && Closed(forest.rep, pairs[..k])
    {
      ghost var before := forest.rep;
      assert pairs[..k + 1] == pairs[..k] + [pairs[k]];
      PairKnown(records, pairs, k);
      ForestKeys(forest.parent, forest.rep, forest.height, forest.bound);
      forest.Join(pairs[k].0, pairs[k].1);
      ClosedNext(before, pairs[..k], pairs[k], forest.rep);
    }
    assert pairs[..|pairs|] == pairs;
  }

  lemma PairKnown(records: seq<Record>, pairs: seq<(nat, nat)>, k: nat)
    requires Known(records, pairs) && k < |pairs|
    ensures var ids := set r | r in records :: r.id;
            pairs[k].0 in ids && pairs[k].1 in ids && forall q :: q in pairs[..k] ==> q.0 in ids && q.1 in ids
  {
    assert pairs[k] in pairs;
  }

  /** setdefault and append, by root. */
  method Group(forest: Disjoint, records: seq<Record>) returns (groups: map<nat, seq<Record>>)
    requires forest.Valid() && forall r :: r in records ==> r.id in forest.parent
    modifies forest
    ensures forest.rep == old(forest.rep) && Grouped(groups, records, forest.rep, |records|)
  {
    hide Forest, Grouped;
    groups := map[];
    NoGroups(records, forest.rep);
    for k := 0 to |records|
      invariant forest.Valid() && forest.parent.Keys == old(forest.parent.Keys) && forest.rep == old(forest.rep)
      invariant Grouped(groups, records, forest.rep, k)
    {
      assert records[k] in records;
      var root := forest.Root(records[k].id);
      GroupedNext(groups, records, forest.rep, k);
      groups := groups[root := (if root in groups then groups[root] else []) + [records[k]]];
    }
  }

  lemma NoGroups(records: seq<Record>, rep: map<nat, nat>)
    ensures Grouped(map[], records, rep, 0)
  {}

  lemma GroupedNext(groups: map<nat, seq<Record>>, records: seq<Record>, rep: map<nat, nat>, k: nat)
    requires k < |records| && Grouped(groups, records, rep, k) && records[k].id in rep
    ensures var root := rep[records[k].id];
            Grouped(groups[root := (if root in groups then groups[root] else []) + [records[k]]], records, rep, k + 1)
  {
    var root := rep[records[k].id];
    var next := groups[root := (if root in groups then groups[root] else []) + [records[k]]];
    assert records[k] in records;
    assert next[root][|next[root]| - 1] == records[k];
  }

  /** `chosen` is the greatest record of each group gone through. */
  ghost predicate Maxima(chosen: map<nat, Record>, groups: map<nat, seq<Record>>, kept: set<nat>) {
    && (forall root :: root in chosen ==>
          && root in groups && chosen[root] in groups[root] && chosen[root].id in kept
          && forall r :: r in groups[root] ==> !Less(chosen[root], r))
    && forall id :: id in kept ==> exists root :: root in chosen && chosen[root].id == id
  }

  lemma MaximaNext(chosen: map<nat, Record>, groups: map<nat, seq<Record>>, kept: set<nat>, root: nat, best: Record)
    requires Maxima(chosen, groups, kept) && root in groups && root !in chosen && best in groups[root]
    requires forall r :: r in groups[root] ==> !Less(best, r)
    ensures Maxima(chosen[root := best], groups, kept + {best.id})
  {
    hide Less;
    var next := chosen[root := best];
    forall id | id in kept + {best.id} ensures exists z :: z in next && next[z].id == id {
      if id in kept {
        var z :| z in chosen && chosen[z].id == id;
        assert next[z].id == id;
      } else {
        assert next[root].id == id;
      }
    }
  }

  /** The maxima of the groups. */
  method Choose(groups: map<nat, seq<Record>>, records: seq<Record>, ghost rep: map<nat, nat>, ghost pairs: seq<(nat, nat)>)
    returns (kept: set<nat>)
    requires Grouped(groups, records, rep, |records|) && Closed(rep, pairs)
    ensures OnePerComponent(kept, records, pairs)
  {
    hide Closed, Less, Maxima, OnePerComponent;
    kept := {};
    var todo := groups.Keys;
    ghost var chosen: map<nat, Record> := map[];
    NoMaxima(groups);
    while todo != {}
      invariant todo <= groups.Keys && chosen.Keys == groups.Keys - todo && Maxima(chosen, groups, kept)
      decreases todo
    {
      var root :| root in todo;
      var best := Greatest(groups[root]);
      MaximaNext(chosen, groups, kept, root, best);
      kept := kept + {best.id};
      chosen := chosen[root := best];
      todo := todo - {root};
    }
    ChosenLead(kept, groups, chosen, records, rep, pairs);
    ChosenCover(kept, groups, chosen, records, rep, pairs);
    ChosenApart(kept, groups, chosen, records, rep, pairs);
    OneEach(kept, records, pairs);
  }

  lemma NoMaxima(groups: map<nat, seq<Record>>)
    ensures Maxima(map[], groups, {})
  {}

  lemma OneEach(kept: set<nat>, records: seq<Record>, pairs: seq<(nat, nat)>)
    requires forall id :: id in kept ==> exists r :: r in records && r.id == id && Leads(r, records, pairs)
    requires forall r :: r in records ==> exists id :: id in kept && Connected(pairs, r.id, id)
    requires forall a, b :: a in kept && b in kept && Connected(pairs, a, b) ==> a == b
    ensures OnePerComponent(kept, records, pairs)
  {}

  lemma InGroup(groups: map<nat, seq<Record>>, records: seq<Record>, rep: map<nat, nat>, r: Record)
    requires Grouped(groups, records, rep, |records|) && r in records
    ensures r.id in rep && rep[r.id] in groups && r in groups[rep[r.id]]
  {
    var k := IndexOf(records, r);
    assert records[k] == r;
  }

  lemma OfGroup(groups: map<nat, seq<Record>>, records: seq<Record>, rep: map<nat, nat>, root: nat, r: Record)
    requires Grouped(groups, records, rep, |records|) && root in groups && r in groups[root]
    ensures r in records && r.id in rep && rep[r.id] == root
  {}

  lemma ChosenLead(kept: set<nat>, groups: map<nat, seq<Record>>, chosen: map<nat, Record>, records: seq<Record>,
                   rep: map<nat, nat>, pairs: seq<(nat, nat)>)
    requires Grouped(groups, records, rep, |records|) && Closed(rep, pairs) && Maxima(chosen, groups, kept)
    ensures forall id :: id in kept ==> exists r :: r in records && r.id == id && Leads(r, records, pairs)
  {
    hide Connected, Less, Grouped;
    forall id | id in kept ensures exists r :: r in records && r.id == id && Leads(r, records, pairs) {
      var root :| root in chosen && chosen[root].id == id;
      var r := chosen[root];
      OfGroup(groups, records, rep, root, r);
      forall s | s in records && Connected(pairs, r.id, s.id) ensures !Less(r, s) {
        InGroup(groups, records, rep, s);
      }
    }
  }

  lemma ChosenCover(kept: set<nat>, groups: map<nat, seq<Record>>, chosen: map<nat, Record>, records: seq<Record>,
                    rep: map<nat, nat>, pairs: seq<(nat, nat)>)
    requires Grouped(groups, records, rep, |records|) && Closed(rep, pairs) && Maxima(chosen, groups, kept)
    requires chosen.Keys == groups.Keys
    ensures forall r :: r in records ==> exists id :: id in kept && Connected(pairs, r.id, id)
  {
    hide Connected, Less, Grouped;
    forall r | r in records ensures exists id :: id in kept && Connected(pairs, r.id, id) {
      InGroup(groups, records, rep, r);
      var best := chosen[rep[r.id]];
      OfGroup(groups, records, rep, rep[r.id], best);
      assert best.id in kept && Connected(pairs, r.id, best.id);
    }
  }

  lemma ChosenApart(kept: set<nat>, groups: map<nat, seq<Record>>, chosen: map<nat, Record>, records: seq<Record>,
                    rep: map<nat, nat>, pairs: seq<(nat, nat)>)
    requires Grouped(groups, records, rep, |records|) && Closed(rep, pairs) && Maxima(chosen, groups, kept)
    ensures forall a, b :: a in kept && b in kept && Connected(pairs, a, b) ==> a == b
  {
    hide Connected, Less, Grouped;
    forall a, b | a in kept && b in kept && Connected(pairs, a, b) ensures a == b {
      var x :| x in chosen && chosen[x].id == a;
      var y :| y in chosen && chosen[y].id == b;
      OfGroup(groups, records, rep, x, chosen[x]);
      OfGroup(groups, records, rep, y, chosen[y]);
    }
  }

  /** No overlap links two kept histories. */
  lemma NoOverlapKept(kept: set<nat>, records: seq<Record>, pairs: seq<(nat, nat)>, p: (nat, nat))
    requires OnePerComponent(kept, records, pairs) && p in pairs && p.0 in kept && p.1 in kept
    ensures p.0 == p.1
  {
    ConnectedPair(pairs, p.0, p.1);
  }
}
