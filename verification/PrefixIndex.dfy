/** The active prefix index: sorted keys, nearest neighbours, and what a query answers about the rows it holds. */
module PrefixIndex {
  import opened Common
  import opened PrefixOrder

  datatype Row = Row(id: nat, time: real, blocks: seq<nat>, component: int)

  datatype Scope = All | Within | Cross

  /** prefix_tokens, witness_chat_id, age_seconds. */
  datatype Match = Match(tokens: nat, source: Option<nat>, age: Option<real>)

  predicate InScope(prior: Row, row: Row, scope: Scope) {
    (scope.Within? ==> prior.component == row.component) && (scope.Cross? ==> prior.component != row.component)
  }

  function KeyOf(row: Row): Key {
    Key(row.blocks, row.id)
  }

  ghost predicate DistinctIds(pool: set<Row>) {
    forall a, b :: a in pool && b in pool && a.id == b.id ==> a == b
  }

  // ---------------------------------------------------------------------------------------
  // What a query answers

  /** The best match in the pool: nothing shares more, and a witness shares as much. */
  ghost predicate IsBest(pool: set<Row>, row: Row, scope: Scope, m: Match) {
    && (forall prior :: prior in pool && InScope(prior, row, scope) ==> Lcp(row.blocks, prior.blocks) * BLOCK_SIZE <= m.tokens)
    && if m.tokens == 0 then m == Match(0, None, None)
       else exists prior :: prior in pool && InScope(prior, row, scope)
              && m == Match(Lcp(row.blocks, prior.blocks) * BLOCK_SIZE, Some(prior.id), Some(row.time - prior.time))
  }

  /** The last row in scope below the query's blocks, if there is one. */
  ghost predicate IsLeft(pool: set<Row>, row: Row, scope: Scope, left: Option<Row>) {
    match left
    case None => forall r :: r in pool && InScope(r, row, scope) ==> !LexLess(r.blocks, row.blocks)
    case Some(l) =>
      && l in pool && InScope(l, row, scope) && LexLess(l.blocks, row.blocks)
      && forall r :: r in pool && InScope(r, row, scope) && LexLess(r.blocks, row.blocks) ==>
           r == l || KeyLess(KeyOf(r), KeyOf(l))
  }

  /** The first row in scope not below the query's blocks, if there is one. */
  ghost predicate IsRight(pool: set<Row>, row: Row, scope: Scope, right: Option<Row>) {
    match right
    case None => forall r :: r in pool && InScope(r, row, scope) ==> LexLess(r.blocks, row.blocks)
    case Some(l) =>
      && l in pool && InScope(l, row, scope) && !LexLess(l.blocks, row.blocks)
      && forall r :: r in pool && InScope(r, row, scope) && !LexLess(r.blocks, row.blocks) ==>
           r == l || KeyLess(KeyOf(l), KeyOf(r))
  }

  /** One candidate; no common block means no witness. */
  function MatchOf(row: Row, prior: Option<Row>): Match {
    if prior.None? || Lcp(row.blocks, prior.value.blocks) == 0 then Match(0, None, None)
    else Match(Lcp(row.blocks, prior.value.blocks) * BLOCK_SIZE, Some(prior.value.id), Some(row.time - prior.value.time))
  }

  /** The longer match of the two neighbours, the smaller id on a tie. */
  function Better(row: Row, left: Option<Row>, right: Option<Row>): Match {
    var l, r := MatchOf(row, left), MatchOf(row, right);
    if l.tokens > r.tokens then l
    else if r.tokens > l.tokens then r
    else if l.tokens == 0 || left.value.id < right.value.id then l else r
  }

  /** The two neighbours in scope suffice, for every scope: skipping a component skips nothing longer. */
  lemma NeighboursSuffice(pool: set<Row>, row: Row, scope: Scope, left: Option<Row>, right: Option<Row>)
    requires IsLeft(pool, row, scope, left) && IsRight(pool, row, scope, right)
    ensures IsBest(pool, row, scope, Better(row, left, right))
  {
    hide Lcp;
    var m := Better(row, left, right);
    forall prior | prior in pool && InScope(prior, row, scope)
      ensures Lcp(row.blocks, prior.blocks) * BLOCK_SIZE <= m.tokens
    {
      if LexLess(prior.blocks, row.blocks) {
        LeftSharesMore(pool, row, scope, left, prior);
      } else {
        RightSharesMore(pool, row, scope, right, prior);
      }
    }
  }

  lemma LeftSharesMore(pool: set<Row>, row: Row, scope: Scope, left: Option<Row>, prior: Row)
    requires IsLeft(pool, row, scope, left) && prior in pool && InScope(prior, row, scope) && LexLess(prior.blocks, row.blocks)
    ensures left.Some? && Lcp(row.blocks, prior.blocks) <= Lcp(row.blocks, left.value.blocks)
  {
    hide Lcp;
    LcpSqueeze(prior.blocks, left.value.blocks, row.blocks);
    LcpSymmetric(prior.blocks, row.blocks);
    LcpSymmetric(left.value.blocks, row.blocks);
  }

  lemma RightSharesMore(pool: set<Row>, row: Row, scope: Scope, right: Option<Row>, prior: Row)
    requires IsRight(pool, row, scope, right) && prior in pool && InScope(prior, row, scope) && !LexLess(prior.blocks, row.blocks)
    ensures right.Some? && Lcp(row.blocks, prior.blocks) <= Lcp(row.blocks, right.value.blocks)
  {
    hide Lcp;
    LexTotal(right.value.blocks, row.blocks);
    LcpSqueeze(row.blocks, right.value.blocks, prior.blocks);
  }

  // ---------------------------------------------------------------------------------------
  // The index

  /** `s` is the sorted list of the keys of the rows of one component, or of all rows. */
  ghost predicate Lists(s: seq<Key>, pool: set<Row>, component: Option<int>) {
    && Sorted(s)
    && (forall r :: r in pool && (component.Some? ==> r.component == component.value) ==> KeyOf(r) in s)
    && forall k :: k in s ==> exists r :: r in pool && (component.Some? ==> r.component == component.value) && KeyOf(r) == k
  }

  lemma ListsAdd(s: seq<Key>, pool: set<Row>, component: Option<int>, row: Row)
    requires Lists(s, pool, component) && (component.Some? ==> row.component == component.value)
    requires forall r :: r in pool ==> r.id != row.id
    ensures Lists(Insort(s, KeyOf(row)), pool + {row}, component)
  {
    if KeyOf(row) in s { assert false; }
    InsortSorted(s, KeyOf(row));
    forall k | k in Insort(s, KeyOf(row))
      ensures exists r :: r in pool + {row} && (component.Some? ==> r.component == component.value) && KeyOf(r) == k
    {
      if k == KeyOf(row) { assert row in pool + {row}; }
      else {
        var r :| r in pool && (component.Some? ==> r.component == component.value) && KeyOf(r) == k;
        assert r in pool + {row};
      }
    }
  }

  lemma ListsRemove(s: seq<Key>, pool: set<Row>, component: Option<int>, row: Row)
    requires Lists(s, pool, component) && (component.Some? ==> row.component == component.value) && row in pool && DistinctIds(pool)
    ensures KeyOf(row) in s
    ensures var p := BisectLeft(s, KeyOf(row));
            p < |s| && s[p] == KeyOf(row) && Lists(RemoveAt(s, p), pool - {row}, component)
  {
    BisectFinds(s, KeyOf(row));
    var p := BisectLeft(s, KeyOf(row));
    RemoveSorted(s, p);
    forall k | k in RemoveAt(s, p)
      ensures exists r :: r in pool - {row} && (component.Some? ==> r.component == component.value) && KeyOf(r) == k
    {
      var r :| r in pool && (component.Some? ==> r.component == component.value) && KeyOf(r) == k;
      assert r in pool - {row};
    }
  }

  lemma ListsOther(s: seq<Key>, pool: set<Row>, more: set<Row>, component: int)
    requires Lists(s, pool, Some(component))
    requires forall r: Row :: r.component == component ==> (r in pool <==> r in more)
    ensures Lists(s, more, Some(component))
  {
    forall k | k in s ensures exists r :: r in more && r.component == component && KeyOf(r) == k {
      var r :| r in pool && r.component == component && KeyOf(r) == k;
      assert r in more;
    }
  }

  class ActivePrefixes {
    const byId: map<nat, Row>
    var all: seq<Key>
    var within: map<int, seq<Key>>
    ghost var pool: set<Row>

    /** defaultdict(list). */
    function Component(c: int): seq<Key>
      reads this
    {
      if c in within then within[c] else []
    }

    ghost predicate Valid()
      reads this
    {
      && DistinctIds(pool) && (forall r :: r in pool ==> r.id in byId && byId[r.id] == r)
      && Lists(all, pool, None) && forall c :: Lists(Component(c), pool, Some(c))
    }

    constructor (byId: map<nat, Row>)
      ensures Valid() && pool == {} && this.byId == byId
    {
      this.byId, all, within, pool := byId, [], map[], {};
    }

    method Add(row: Row)
      requires Valid() && row.id in byId && byId[row.id] == row && row !in pool
      modifies this
      ensures Valid() && pool == old(pool) + {row}
    {
      hide Lists, Insort;
      ListsAdd(all, pool, None, row);
      ListsAdd(Component(row.component), pool, Some(row.component), row);
      forall c | c != row.component ensures Lists(Component(c), pool + {row}, Some(c)) {
        ListsOther(Component(c), pool, pool + {row}, c);
      }
      all := Insort(all, KeyOf(row));
      within := within[row.component := Insort(Component(row.component), KeyOf(row))];
      pool := pool + {row};
      assert forall c :: c != row.component ==> Component(c) == old(Component(c));
    }

    /** Expiry. The key is always found: "Expired prefix missing" is unreachable. */
    method Remove(row: Row)
      requires Valid() && row in pool
      modifies this
      ensures Valid() && pool == old(pool) - {row}
    {
      hide Lists, BisectLeft;
      ListsRemove(all, pool, None, row);
      ListsRemove(Component(row.component), pool, Some(row.component), row);
      forall c | c != row.component ensures Lists(Component(c), pool - {row}, Some(c)) {
        ListsOther(Component(c), pool, pool - {row}, c);
      }
      var position := BisectLeft(all, KeyOf(row));
      assert position < |all| && all[position] == KeyOf(row);
      all := RemoveAt(all, position);
      position := BisectLeft(Component(row.component), KeyOf(row));
      assert position < |Component(row.component)| && Component(row.component)[position] == KeyOf(row);
      within := within[row.component := RemoveAt(Component(row.component), position)];
      pool := pool - {row};
      assert forall c :: c != row.component ==> Component(c) == old(Component(c));
    }

    predicate Known(index: seq<Key>) {
      forall i | 0 <= i < |index| :: index[i].id >= 0 && index[i].id in byId
    }

    /** The key's row may be a witness in this scope; `within` queries search the component's own list. */
    predicate Passes(k: Key, row: Row, scope: Scope)
      requires k.id >= 0 && k.id in byId
    {
      scope.Cross? ==> byId[k.id].component != row.component
    }

    /** The walk up from `start` to the first key that passes. */
    method Upward(index: seq<Key>, start: nat, row: Row, scope: Scope) returns (j: nat)
      requires Known(index) && start <= |index|
      ensures start <= j <= |index| && (j < |index| ==> Passes(index[j], row, scope))
      ensures forall i :: start <= i < j ==> !Passes(index[i], row, scope)
    {
      j := start;
      while j < |index|
        invariant start <= j <= |index|
        invariant forall i :: start <= i < j ==> !Passes(index[i], row, scope)
      {
        if Passes(index[j], row, scope) { return; }
        j := j + 1;
      }
    }

    /** The walk down from `start`; -1 if no key passes. */
    method Downward(index: seq<Key>, start: int, row: Row, scope: Scope) returns (j: int)
      requires Known(index) && -1 <= start < |index|
      ensures -1 <= j <= start && (j >= 0 ==> Passes(index[j], row, scope))
      ensures forall i :: j < i <= start ==> !Passes(index[i], row, scope)
    {
      j := start;
      while j >= 0
        invariant -1 <= j <= start
        invariant forall i :: j < i <= start ==> !Passes(index[i], row, scope)
      {
        if Passes(index[j], row, scope) { return; }
        j := j - 1;
      }
    }

    /** The rows behind a list of the index, for this query. */
    ghost predicate Serves(index: seq<Key>, row: Row, scope: Scope)
      reads this
      requires Valid()
    {
      if scope.Within? then Lists(index, pool, Some(row.component)) else Lists(index, pool, None)
    }

    lemma ServesKnown(index: seq<Key>, row: Row, scope: Scope)
      requires Valid() && Serves(index, row, scope)
      ensures Known(index) && Sorted(index)
      ensures forall i :: 0 <= i < |index| ==> byId[index[i].id] in pool && KeyOf(byId[index[i].id]) == index[i]
      ensures forall i :: 0 <= i < |index| ==> (Passes(index[i], row, scope) <==> InScope(byId[index[i].id], row, scope))
      ensures forall r :: r in pool && InScope(r, row, scope) ==> KeyOf(r) in index
    {
      forall i | 0 <= i < |index|
        ensures index[i].id >= 0 && index[i].id in byId && byId[index[i].id] in pool && KeyOf(byId[index[i].id]) == index[i]
        ensures scope.Within? ==> byId[index[i].id].component == row.component
      {
        var component := if scope.Within? then Some(row.component) else None;
        assert index[i] in index && Lists(index, pool, component);
        var r :| r in pool && (component.Some? ==> r.component == component.value) && KeyOf(r) == index[i];
        assert byId[r.id] == r;
      }
    }

    /** Where the walks stop are the neighbours in scope. */
    lemma WalkLeft(index: seq<Key>, row: Row, scope: Scope, j: int)
      requires Valid() && Serves(index, row, scope) && Known(index)
      requires -1 <= j < BisectLeft(index, Key(row.blocks, -1))
      requires j >= 0 ==> Passes(index[j], row, scope)
      requires forall i :: j < i < BisectLeft(index, Key(row.blocks, -1)) ==> !Passes(index[i], row, scope)
      ensures IsLeft(pool, row, scope, if j < 0 then None else Some(byId[index[j].id]))
    {
      hide Lists, IsLeft;
      ServesKnown(index, row, scope);
      var p := BisectLeft(index, Key(row.blocks, -1));
      BisectSplits(index, Key(row.blocks, -1));
      PlaceOfBlocks(index, row);
      forall r | r in pool && InScope(r, row, scope) && LexLess(r.blocks, row.blocks)
        ensures j >= 0 && (r == byId[index[j].id] || KeyLess(KeyOf(r), index[j]))
      {
        var i := IndexOf(index, KeyOf(r));
        assert byId[index[i].id] == r;
      }
      LeftMade(index, row, scope, j);
    }

    lemma LeftMade(index: seq<Key>, row: Row, scope: Scope, j: int)
      requires Valid() && Known(index) && -1 <= j < |index|
      requires j >= 0 ==>
                 && byId[index[j].id] in pool && KeyOf(byId[index[j].id]) == index[j]
                 && InScope(byId[index[j].id], row, scope) && LexLess(index[j].blocks, row.blocks)
      requires forall r :: r in pool && InScope(r, row, scope) && LexLess(r.blocks, row.blocks) ==>
                 j >= 0 && (r == byId[index[j].id] || KeyLess(KeyOf(r), index[j]))
      ensures IsLeft(pool, row, scope, if j < 0 then None else Some(byId[index[j].id]))
    {}

    /** The query's place separates smaller block sequences from the others: row ids are above -1. */
    lemma PlaceOfBlocks(index: seq<Key>, row: Row)
      requires Sorted(index) && Known(index)
      ensures var p := BisectLeft(index, Key(row.blocks, -1));
              forall i :: 0 <= i < |index| ==> (i < p <==> LexLess(index[i].blocks, row.blocks))
    {
      var k := Key(row.blocks, -1);
      var p := BisectLeft(index, k);
      BisectSplits(index, k);
      forall i | p <= i < |index| ensures !LexLess(index[i].blocks, row.blocks) {
        KeyAsymmetric(k, index[i]);
      }
    }

    lemma WalkRight(index: seq<Key>, row: Row, scope: Scope, j: nat)
      requires Valid() && Serves(index, row, scope) && Known(index)
      requires BisectLeft(index, Key(row.blocks, -1)) <= j <= |index|
      requires j < |index| ==> Passes(index[j], row, scope)
      requires forall i :: BisectLeft(index, Key(row.blocks, -1)) <= i < j ==> !Passes(index[i], row, scope)
      ensures IsRight(pool, row, scope, if j < |index| then Some(byId[index[j].id]) else None)
    {
      hide Lists, IsRight;
      ServesKnown(index, row, scope);
      var p := BisectLeft(index, Key(row.blocks, -1));
      PlaceOfBlocks(index, row);
      forall r | r in pool && InScope(r, row, scope) && !LexLess(r.blocks, row.blocks)
        ensures j < |index| && (r == byId[index[j].id] || KeyLess(index[j], KeyOf(r)))
      {
        var i := IndexOf(index, KeyOf(r));
        assert byId[index[i].id] == r;
      }
      RightMade(index, row, scope, j);
    }

    lemma RightMade(index: seq<Key>, row: Row, scope: Scope, j: nat)
      requires Valid() && Known(index) && j <= |index|
      requires j < |index| ==>
                 && byId[index[j].id] in pool && KeyOf(byId[index[j].id]) == index[j]
                 && InScope(byId[index[j].id], row, scope) && !LexLess(index[j].blocks, row.blocks)
      requires forall r :: r in pool && InScope(r, row, scope) && !LexLess(r.blocks, row.blocks) ==>
                 j < |index| && (r == byId[index[j].id] || KeyLess(index[j], KeyOf(r)))
      ensures IsRight(pool, row, scope, if j < |index| then Some(byId[index[j].id]) else None)
    {}

    /** query: the better of the two neighbours in scope, which is the best match of all rows held. */
    method Query(row: Row, scope: Scope) returns (m: Match)
      requires Valid()
      ensures IsBest(pool, row, scope, m)
      ensures exists left, right :: IsLeft(pool, row, scope, left) && IsRight(pool, row, scope, right) && m == Better(row, left, right)
    {
      hide Lists, IsLeft, IsRight, IsBest, Lcp, BisectLeft;
      var index := if scope.Within? then Component(row.component) else all;
      assert Serves(index, row, scope);
      ServesKnown(index, row, scope);
      var position: int := BisectLeft(index, Key(row.blocks, -1));
      var below := Downward(index, position - 1, row, scope);
      var above := Upward(index, position, row, scope);
      WalkLeft(index, row, scope, below);
      WalkRight(index, row, scope, above);
      var left := if below < 0 then None else Some(byId[index[below].id]);
      var right := if above < |index| then Some(byId[index[above].id]) else None;
      NeighboursSuffice(pool, row, scope, left, right);
      m := Better(row, left, right);
    }
  }
}
