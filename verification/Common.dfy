/** Small shared vocabulary: optional values, duplicate-free sequences, block arithmetic. */
module Common {
  datatype Option<+T> = None | Some(value: T)

  /** Tokens per KV block (`BLOCK` in routing_sim.py). */
  const BLOCK: nat := 16

  function Min(a: int, b: int): int {
    if a <= b then a else b
  }

  function Max(a: int, b: int): int {
    if a >= b then a else b
  }

  /** Blocks needed to hold `tokens` tokens: math.ceil(tokens / BLOCK). */
  function CeilBlocks(tokens: nat): nat {
    (tokens + BLOCK - 1) / BLOCK
  }

  /** The least number of blocks that hold `tokens` tokens. */
  lemma CeilBlocksMeans(tokens: nat, n: nat)
    ensures n == CeilBlocks(tokens) <==> tokens <= n * BLOCK && (n > 0 ==> (n - 1) * BLOCK < tokens)
  {
  }

  function SumOf(s: seq<int>): int {
    if s == [] then 0 else s[0] + SumOf(s[1..])
  }

  lemma {:induction false} SumOfLast(s: seq<int>, x: int)
    ensures SumOf(s + [x]) == SumOf(s) + x
  {
    if s == [] {
      assert s + [x] == [x] && [x][1..] == [];
    } else {
      assert (s + [x])[1..] == s[1..] + [x];
      SumOfLast(s[1..], x);
    }
  }

  ghost predicate Distinct<T>(s: seq<T>) {
    forall i, j :: 0 <= i < j < |s| ==> s[i] != s[j]
  }

  /** Every entry of `s` is below `n`. */
  predicate Below(s: seq<nat>, n: nat) {
    forall i :: 0 <= i < |s| ==> s[i] < n
  }

  /** `s` without its element at `i`. */
  function RemoveAt<T>(s: seq<T>, i: nat): seq<T>
    requires i < |s|
  {
    s[..i] + s[i + 1..]
  }

  /** The first position of `x` in `s`. */
  function IndexOf<T(==)>(s: seq<T>, x: T): (i: nat)
    requires x in s
    ensures i < |s| && s[i] == x && x !in s[..i]
  {
    if s[0] == x then 0 else
      var i := 1 + IndexOf(s[1..], x);
      assert s[..i] == [s[0]] + s[1..][..i - 1];
      i
  }

  /** Members of `table`, those it names later first. */
  ghost predicate FromTheBack(s: seq<nat>, table: seq<nat>) {
    && (forall i :: 0 <= i < |s| ==> s[i] in table)
    && forall i, j :: 0 <= i < j < |s| ==> IndexOf(table, s[i]) > IndexOf(table, s[j])
  }

  lemma RemoveAtKeeps<T>(s: seq<T>, i: nat)
    requires i < |s|
    ensures forall x :: x in s && x != s[i] ==> x in RemoveAt(s, i)
  {
    var r := RemoveAt(s, i);
    forall x | x in s && x != s[i] ensures x in r {
      var j :| 0 <= j < |s| && s[j] == x;
      assert x == r[if j < i then j else j - 1];
    }
  }

  /** In a duplicate-free sequence taking one element out leaves the others, once each. */
  lemma RemoveAtDistinct<T>(s: seq<T>, i: nat)
    requires i < |s| && Distinct(s)
    ensures Distinct(RemoveAt(s, i))
    ensures s[i] !in RemoveAt(s, i)
    ensures forall x :: x in s <==> x == s[i] || x in RemoveAt(s, i)
  {
    RemoveAtKeeps(s, i);
  }

  /** A duplicate-free list of numbers below `n` is no longer than `n`. */
  lemma {:induction false} DistinctBound(s: seq<nat>, n: nat)
    requires Distinct(s)
    requires Below(s, n)
    ensures |s| <= n
  {
    if s != [] {
      assert s[0] < n;
      if n - 1 in s {
        var i := IndexOf(s, n - 1);
        RemoveAtDistinct(s, i);
        DistinctBound(RemoveAt(s, i), n - 1);
      } else {
        DistinctBound(s, n - 1);
      }
    }
  }

  lemma DistinctConcat<T>(a: seq<T>, b: seq<T>)
    requires Distinct(a) && Distinct(b) && forall x :: x in a ==> x !in b
    ensures Distinct(a + b)
  {
    forall i, j | 0 <= i < j < |a + b| ensures (a + b)[i] != (a + b)[j] {
      if i < |a| <= j { assert a[i] in a && b[j - |a|] in b; }
    }
  }

  function Elements(s: seq<nat>): set<nat> {
    set b | b in s
  }

  /** A list as long as its set has no duplicates. */
  lemma {:induction false} DistinctByCount(s: seq<nat>)
    requires |Elements(s)| == |s|
    ensures Distinct(s)
  {
    if s != [] {
      var t := s[1..];
      assert Elements(s) == Elements(t) + {s[0]};
      ElementsLength(t);
      if s[0] in t { assert false; }
      DistinctByCount(t);
      forall i, j | 0 <= i < j < |s| ensures s[i] != s[j] {
        if i == 0 { assert s[j] == t[j - 1] && s[j] in t; } else { assert s[i] == t[i - 1] && s[j] == t[j - 1]; }
      }
    }
  }

  lemma {:induction false} ElementsLength(s: seq<nat>)
    ensures |Elements(s)| <= |s|
    ensures Distinct(s) ==> |Elements(s)| == |s|
  {
    if s == [] {
      assert Elements(s) == {};
    } else {
      ElementsLength(s[1..]);
      assert Elements(s) == Elements(s[1..]) + {s[0]};
      if Distinct(s) {
        assert forall k :: 0 <= k < |s[1..]| ==> s[1..][k] == s[k + 1] != s[0];
      }
    }
  }

  predicate IsLeast(times: set<int>, t: int) {
    t in times && forall u | u in times :: t <= u
  }

  ghost function Least(times: set<int>): (t: int)
    requires times != {}
    ensures IsLeast(times, t)
  {
    LeastExists(times);
    var t :| IsLeast(times, t);
    t
  }

  lemma {:induction false} LeastExists(times: set<int>)
    requires times != {}
    ensures exists t :: IsLeast(times, t)
    decreases |times|
  {
    assert exists t: int :: t in times by {
      if forall t: int :: t !in times { assert false; }
    }
    var t: int :| t in times;
    var rest := times - {t};
    if rest == {} {
      assert times == {t};
      assert IsLeast(times, t);
    } else {
      LeastExists(rest);
      var v :| IsLeast(rest, v);
      assert forall u | u in times :: u == t || u in rest;
      assert IsLeast(times, Min(t, v));
    }
  }
}
