/** itertools.permutations(s, k): the ordered choices of k members of s. */
module OrderedChoices {
  import opened Common

  function Prefixed(x: nat, rest: seq<seq<nat>>): (r: seq<seq<nat>>)
    ensures |r| == |rest| && forall k :: 0 <= k < |r| ==> r[k] == [x] + rest[k]
  {
    seq(|rest|, k requires 0 <= k < |rest| => [x] + rest[k])
  }

  /** All arrangements, in the order of their members' positions. */
  function Arrangements(s: seq<nat>, k: nat): seq<seq<nat>>
    decreases k, |s| + 1
  {
    if k == 0 then [[]] else Leading(s, k, 0)
  }

  /** The arrangements that begin with one of s[i..]. */
  function Leading(s: seq<nat>, k: nat, i: nat): seq<seq<nat>>
    requires k > 0 && i <= |s|
    decreases k, |s| - i
  {
    if i == |s| then [] else Prefixed(s[i], Arrangements(RemoveAt(s, i), k - 1)) + Leading(s, k, i + 1)
  }

  /** `p` lists `k` different members of `s`. */
  ghost predicate Arranges(p: seq<nat>, s: seq<nat>, k: nat) {
    |p| == k && Distinct(p) && forall x :: x in p ==> x in s
  }

  lemma {:induction false} ArrangementsSound(s: seq<nat>, k: nat)
    requires Distinct(s)
    ensures forall a :: 0 <= a < |Arrangements(s, k)| ==> Arranges(Arrangements(s, k)[a], s, k)
    decreases k, |s| + 1
  {
    if k > 0 { LeadingSound(s, k, 0); }
  }

  lemma {:induction false} LeadingSound(s: seq<nat>, k: nat, i: nat)
    requires Distinct(s) && k > 0 && i <= |s|
    ensures forall a :: 0 <= a < |Leading(s, k, i)| ==> Arranges(Leading(s, k, i)[a], s, k)
    decreases k, |s| - i
  {
    if i < |s| {
      var rest := RemoveAt(s, i);
      RemoveAtDistinct(s, i);
      ArrangementsSound(rest, k - 1);
      LeadingSound(s, k, i + 1);
      var first := Prefixed(s[i], Arrangements(rest, k - 1));
      forall a | 0 <= a < |first| ensures Arranges(first[a], s, k) {
        var p := Arrangements(rest, k - 1)[a];
        assert first[a] == [s[i]] + p;
        forall x, y | 0 <= x < y < |first[a]| ensures first[a][x] != first[a][y] {
          if x == 0 { assert first[a][y] == p[y - 1] && p[y - 1] in p; }
        }
      }
    }
  }

  /** No arrangement is missed. */
  lemma {:induction false} ArrangementsComplete(s: seq<nat>, k: nat, p: seq<nat>)
    requires Arranges(p, s, k)
    ensures p in Arrangements(s, k)
    decreases k, |s| + 1
  {
    if k > 0 {
      assert p[0] in p;
      LeadingComplete(s, k, 0, IndexOf(s, p[0]), p);
    } else {
      assert p == [];
    }
  }

  lemma {:induction false} LeadingComplete(s: seq<nat>, k: nat, from: nat, i: nat, p: seq<nat>)
    requires k > 0 && Arranges(p, s, k) && from <= i < |s| && p[0] == s[i]
    ensures p in Leading(s, k, from)
    decreases k, |s| - from
  {
    if from < i {
      LeadingComplete(s, k, from + 1, i, p);
    } else {
      var rest := RemoveAt(s, i);
      RemoveAtKeeps(s, i);
      assert Arranges(p[1..], rest, k - 1) by {
        forall x | x in p[1..] ensures x in rest {
          var a := IndexOf(p[1..], x);
          assert p[a + 1] == x && x in p;
        }
        assert forall a :: 0 <= a < |p[1..]| ==> p[1..][a] == p[a + 1];
      }
      ArrangementsComplete(rest, k - 1, p[1..]);
      var a :| 0 <= a < |Arrangements(rest, k - 1)| && Arrangements(rest, k - 1)[a] == p[1..];
      assert Prefixed(s[i], Arrangements(rest, k - 1))[a] == p;
    }
  }

  /** math.perm. */
  function Choices(n: nat, k: nat): nat {
    if k == 0 then 1 else if n == 0 then 0 else n * Choices(n - 1, k - 1)
  }

  /** math.perm counts the arrangements. */
  lemma {:induction false} ArrangementsCount(s: seq<nat>, k: nat)
    ensures |Arrangements(s, k)| == Choices(|s|, k)
    decreases k, |s| + 1
  {
    if k > 0 { LeadingCount(s, k, 0); }
  }

  lemma {:induction false} LeadingCount(s: seq<nat>, k: nat, i: nat)
    requires k > 0 && i <= |s|
    ensures |s| > 0 ==> |Leading(s, k, i)| == (|s| - i) * Choices(|s| - 1, k - 1)
    ensures |s| == 0 ==> |Leading(s, k, i)| == 0
    decreases k, |s| - i
  {
    if i < |s| {
      ArrangementsCount(RemoveAt(s, i), k - 1);
      LeadingCount(s, k, i + 1);
      assert (|s| - i) * Choices(|s| - 1, k - 1) == (|s| - i - 1) * Choices(|s| - 1, k - 1) + Choices(|s| - 1, k - 1);
    }
  }

  /** A choice is open exactly when something is chosen from at least two. */
  lemma {:induction false} ChoicesOpen(n: nat, k: nat)
    requires k <= n
    ensures Choices(n, k) >= 1
    ensures Choices(n, k) > 1 <==> k >= 1 && n >= 2
  {
    if k > 0 { ChoicesOpen(n - 1, k - 1); }
  }
}
