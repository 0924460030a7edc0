/** The waiting list, its permutations, and which orders are legal. */
module ToyOrders {
  import opened Common
  import opened ToyModel
  import opened OrderedChoices

  // ---------------------------------------------------------------------------------------
  // eligible: the waiting requests by arrival and index

  predicate Before(inst: Instance, i: nat, j: nat)
    requires i < |inst.requests| && j < |inst.requests|
  {
    inst.requests[i].arrival < inst.requests[j].arrival || (inst.requests[i].arrival == inst.requests[j].arrival && i < j)
  }

  predicate Sorted(inst: Instance, s: seq<nat>) {
    Below(s, |inst.requests|) && forall a, b | 0 <= a < b < |s| :: Before(inst, s[a], s[b])
  }

  /** `i` put where it belongs. */
  function Insert(inst: Instance, s: seq<nat>, i: nat): (r: seq<nat>)
    requires Sorted(inst, s) && i < |inst.requests| && i !in s
    ensures Sorted(inst, r) && |r| == |s| + 1
    ensures forall x :: x in r <==> x == i || x in s
  {
    if s == [] || Before(inst, i, s[0]) then [i] + s
    else
      var rest := Insert(inst, s[1..], i);
      assert s == [s[0]] + s[1..];
      assert forall k :: 0 <= k < |rest| ==> rest[k] in rest;
      [s[0]] + rest
  }

  /** The waiting requests among the first `n`, first come first served. */
  function EligibleUpTo(inst: Instance, s: State, n: nat): (r: seq<nat>)
    requires n <= |inst.requests| == |s.progress|
    ensures Sorted(inst, r)
    ensures forall i: nat :: i in r <==> i < n && Waits(inst, s, i)
  {
    if n == 0 then []
    else
      var r := EligibleUpTo(inst, s, n - 1);
      if Waits(inst, s, n - 1) then Insert(inst, r, n - 1) else r
  }

  function Eligible(inst: Instance, s: State): seq<nat>
    requires |inst.requests| == |s.progress|
  {
    EligibleUpTo(inst, s, |inst.requests|)
  }

  /** First come first served is a legal order, and it is the only sorted one. */
  lemma EligibleLegal(inst: Instance, s: State)
    requires |inst.requests| == |s.progress|
    ensures Legal(inst, s, Eligible(inst, s)) && Sorted(inst, Eligible(inst, s))
  {
    var r := Eligible(inst, s);
    forall k | 0 <= k < |r| ensures Waits(inst, s, r[k]) { assert r[k] in r; }
  }

  // ---------------------------------------------------------------------------------------
  // The guard of transition

  /** Same length and same set as the waiting list: exactly the legal orders. */
  lemma LegalByCount(inst: Instance, s: State, order: seq<nat>)
    requires |inst.requests| == |s.progress|
    ensures Legal(inst, s, order) <==>
              |order| == |Eligible(inst, s)| && Elements(order) == Elements(Eligible(inst, s))
  {
    var r := Eligible(inst, s);
    EligibleLegal(inst, s);
    ElementsLength(r);
    ElementsLength(order);
    if Legal(inst, s, order) {
      assert Elements(order) == Elements(r) by {
        forall x ensures x in order <==> x in r {
          if x in order { assert Waits(inst, s, order[IndexOf(order, x)]); }
        }
      }
    }
    if |order| == |r| && Elements(order) == Elements(r) {
      DistinctByCount(order);
      forall k | 0 <= k < |order| ensures Waits(inst, s, order[k]) {
        assert order[k] in Elements(order);
      }
      forall i | 0 <= i < |inst.requests| && Waits(inst, s, i) ensures i in order {
        assert i in Elements(r);
      }
    }
  }

  // ---------------------------------------------------------------------------------------
  // The orders tried

  /** All permutations of the waiting list. */
  function Permutations(s: seq<nat>): seq<seq<nat>> {
    Arrangements(s, |s|)
  }

  /** As many different members as there are: all of them. */
  lemma ArrangesAll(p: seq<nat>, s: seq<nat>)
    requires Distinct(s)
    ensures Arranges(p, s, |s|) <==> |p| == |s| && Elements(p) == Elements(s)
  {
    ElementsLength(s);
    ElementsLength(p);
    if Arranges(p, s, |s|) {
      assert Elements(p) <= Elements(s);
      SameSize(Elements(p), Elements(s));
    }
    if |p| == |s| && Elements(p) == Elements(s) {
      DistinctByCount(p);
      assert forall x :: x in p ==> x in Elements(s);
    }
  }

  lemma SameSize(a: set<nat>, b: set<nat>)
    requires a <= b && |a| == |b|
    ensures a == b
  {
    assert |b| == |a| + |b - a|;
    assert b - a == {};
    assert b == a + (b - a);
  }

  /** The search tries exactly the legal orders. */
  lemma LegalOrders(inst: Instance, s: State, order: seq<nat>)
    requires |inst.requests| == |s.progress|
    ensures Legal(inst, s, order) <==> order in Permutations(Eligible(inst, s))
  {
    var r := Eligible(inst, s);
    EligibleLegal(inst, s);
    LegalByCount(inst, s, order);
    ArrangesAll(order, r);
    ArrangementsSound(r, |r|);
    if Legal(inst, s, order) { ArrangementsComplete(r, |r|, order); }
  }
}
