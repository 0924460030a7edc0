/**
 Lexicographic order on block sequences, and the fact the sorted prefix index rests on: among the sequences of a set,
 the longest common prefix with a query is attained by one of the query's two neighbours in the order.
 */
module PrefixOrder {
  import opened Common

  /** Tokens per published input block. */
  const BLOCK_SIZE: nat := 16

  /** lcp: length of the longest common prefix. */
  function Lcp(a: seq<nat>, b: seq<nat>): (n: nat)
    ensures n <= |a| && n <= |b| && a[..n] == b[..n]
    ensures n < |a| && n < |b| ==> a[n] != b[n]
  {
    if a == [] || b == [] || a[0] != b[0] then 0
    else
      var n := Lcp(a[1..], b[1..]);
      assert a[..n + 1] == [a[0]] + a[1..][..n] && b[..n + 1] == [b[0]] + b[1..][..n];
      n + 1
  }

  /** Any common prefix is at most the longest. */
  lemma {:induction false} LcpLongest(a: seq<nat>, b: seq<nat>, k: nat)
    requires k <= |a| && k <= |b| && a[..k] == b[..k]
    ensures k <= Lcp(a, b)
  {
    forall i | 0 <= i < k ensures a[i] == b[i] {
      assert a[i] == a[..k][i];
    }
  }

  /** Tuple comparison: the first difference decides, a proper prefix is smaller. */
  predicate LexLess(a: seq<nat>, b: seq<nat>) {
    b != [] && (a == [] || a[0] < b[0] || (a[0] == b[0] && LexLess(a[1..], b[1..])))
  }

  lemma {:induction false} LexIrreflexive(a: seq<nat>)
    ensures !LexLess(a, a)
  {
    if a != [] { LexIrreflexive(a[1..]); }
  }

  lemma {:induction false} LexTotal(a: seq<nat>, b: seq<nat>)
    ensures LexLess(a, b) || a == b || LexLess(b, a)
  {
    if a != [] && b != [] && a[0] == b[0] {
      LexTotal(a[1..], b[1..]);
      if a[1..] == b[1..] { assert a == [a[0]] + a[1..] && b == [b[0]] + b[1..]; }
    }
  }

  lemma {:induction false} LexTransitive(a: seq<nat>, b: seq<nat>, c: seq<nat>)
    requires LexLess(a, b) && LexLess(b, c)
    ensures LexLess(a, c)
  {
    if a != [] && a[0] == b[0] && b[0] == c[0] { LexTransitive(a[1..], b[1..], c[1..]); }
  }

  /** Between two sequences in the order, nothing shares less with either than they share with each other. */
  lemma {:induction false} LcpSqueeze(a: seq<nat>, b: seq<nat>, c: seq<nat>)
    requires LexLess(a, b) || a == b
    requires LexLess(b, c) || b == c
    ensures Lcp(a, c) <= Lcp(b, c) && Lcp(a, c) <= Lcp(a, b)
  {
    if a != b && b != c && a != [] && a[0] == c[0] {
      LcpSqueeze(a[1..], b[1..], c[1..]);
    } else if a == b {
      LcpSelf(a);
    } else if b == c {
      LcpSelf(b);
    }
  }

  lemma LcpSelf(a: seq<nat>)
    ensures Lcp(a, a) == |a|
  {
    LcpLongest(a, a, |a|);
  }

  lemma LcpSymmetric(a: seq<nat>, b: seq<nat>)
    ensures Lcp(a, b) == Lcp(b, a)
  {
    LcpLongest(a, b, Lcp(b, a));
    LcpLongest(b, a, Lcp(a, b));
  }

  // ---------------------------------------------------------------------------------------
  // Keys of the sorted index

  /** (blocks, chat_id); -1 asks for the place before all equal block sequences. */
  datatype Key = Key(blocks: seq<nat>, id: int)

  predicate KeyLess(a: Key, b: Key) {
    LexLess(a.blocks, b.blocks) || (a.blocks == b.blocks && a.id < b.id)
  }

  lemma KeyTransitive(a: Key, b: Key, c: Key)
    requires KeyLess(a, b) && KeyLess(b, c)
    ensures KeyLess(a, c)
  {
    if LexLess(a.blocks, b.blocks) && LexLess(b.blocks, c.blocks) { LexTransitive(a.blocks, b.blocks, c.blocks); }
  }

  lemma KeyTotal(a: Key, b: Key)
    ensures KeyLess(a, b) || a == b || KeyLess(b, a)
  {
    LexTotal(a.blocks, b.blocks);
  }

  lemma KeyAsymmetric(a: Key, b: Key)
    requires KeyLess(a, b)
    ensures !KeyLess(b, a) && a != b
  {
    if KeyLess(b, a) {
      KeyTransitive(a, b, a);
      LexIrreflexive(a.blocks);
    }
    LexIrreflexive(a.blocks);
  }

  ghost predicate Sorted(s: seq<Key>) {
    forall i, j :: 0 <= i < j < |s| ==> KeyLess(s[i], s[j])
  }

  /** bisect_left: how many keys at the front are below `k`. */
  function BisectLeft(s: seq<Key>, k: Key): (p: nat)
    ensures p <= |s|
    ensures forall i :: 0 <= i < p ==> KeyLess(s[i], k)
    ensures p < |s| ==> !KeyLess(s[p], k)
  {
    if s == [] || !KeyLess(s[0], k) then 0 else
      var p := BisectLeft(s[1..], k);
      assert forall i :: 1 <= i <= p ==> s[i] == s[1..][i - 1];
      assert p + 1 < |s| ==> s[p + 1] == s[1..][p];
      p + 1
  }

  /** On a sorted list the place splits smaller from larger keys. */
  lemma BisectSplits(s: seq<Key>, k: Key)
    requires Sorted(s)
    ensures forall i :: BisectLeft(s, k) <= i < |s| ==> s[i] == k || KeyLess(k, s[i])
  {
    var p := BisectLeft(s, k);
    forall i | p <= i < |s| ensures s[i] == k || KeyLess(k, s[i]) {
      KeyTotal(s[i], k);
      if KeyLess(s[i], k) && p < i { KeyTransitive(s[p], s[i], k); }
    }
  }

  /** insort. */
  function Insort(s: seq<Key>, k: Key): seq<Key> {
    s[..BisectLeft(s, k)] + [k] + s[BisectLeft(s, k)..]
  }

  lemma InsortSorted(s: seq<Key>, k: Key)
    requires Sorted(s) && k !in s
    ensures Sorted(Insort(s, k))
    ensures forall x :: x in Insort(s, k) <==> x == k || x in s
  {
    var p := BisectLeft(s, k);
    BisectSplits(s, k);
    var r := Insort(s, k);
    forall i, j | 0 <= i < j < |r| ensures KeyLess(r[i], r[j]) {
      if i < p && j > p { assert KeyLess(s[i], s[j - 1]); }
      if i == p { assert s[j - 1] in s; }
    }
    forall x | x in s ensures x in r {
      var i := IndexOf(s, x);
      assert r[if i < p then i else i + 1] == x;
    }
  }

  /** The place of a key that is there. */
  lemma BisectFinds(s: seq<Key>, k: Key)
    requires Sorted(s) && k in s
    ensures BisectLeft(s, k) < |s| && s[BisectLeft(s, k)] == k
  {
    var p := BisectLeft(s, k);
    var i := IndexOf(s, k);
    LexIrreflexive(k.blocks);
    assert i >= p;
    if i > p {
      assert false;
    }
  }

  lemma RemoveSorted(s: seq<Key>, p: nat)
    requires Sorted(s) && p < |s|
    ensures Sorted(RemoveAt(s, p))
    ensures forall x :: x in RemoveAt(s, p) <==> x in s && x != s[p]
  {
    var r := RemoveAt(s, p);
    RemoveAtKeeps(s, p);
    forall x | x in r ensures x in s && x != s[p] {
      var i := IndexOf(r, x);
      var j := if i < p then i else i + 1;
      assert s[j] == x;
      if j < p { KeyAsymmetric(s[j], s[p]); } else { KeyAsymmetric(s[p], s[j]); }
    }
  }
}
