/** Gaps between a request's outputs, and why they only grow while it runs. */
module OutputGaps {
  import opened Common

  function Gaps(times: seq<int>): seq<int> {
    if |times| < 2 then [] else Gaps(times[..|times| - 1]) + [times[|times| - 1] - times[|times| - 2]]
  }

  /** The largest entry, 0 if there is none. */
  function Largest(s: seq<int>): (m: int)
    ensures forall k :: 0 <= k < |s| ==> s[k] <= m
    ensures s != [] ==> exists k :: 0 <= k < |s| && s[k] == m
  {
    if s == [] then 0
    else if |s| == 1 then
      assert s[0] == s[|s| - 1];
      s[0]
    else
      var m := Largest(s[..|s| - 1]);
      assert forall k :: 0 <= k < |s| - 1 ==> s[k] == s[..|s| - 1][k];
      assert s[|s| - 1] <= Max(m, s[|s| - 1]);
      Max(m, s[|s| - 1])
  }

  /** When the request completed, or now. */
  function Completion(completed: Option<int>, time: int): int {
    if completed.Some? then completed.value else time
  }

  /** Gaps between outputs, up to now for a request still running. */
  function OpenGaps(outputs: seq<int>, completed: Option<int>, time: int): seq<int>
    requires outputs != []
  {
    Gaps(outputs) + if completed.None? then [time - outputs[|outputs| - 1]] else []
  }

  lemma {:induction false} GapsAppend(times: seq<int>, x: int)
    requires times != []
    ensures Gaps(times + [x]) == Gaps(times) + [x - times[|times| - 1]]
  {
    var u := times + [x];
    assert u[..|u| - 1] == times && u[|u| - 1] == x && u[|u| - 2] == times[|times| - 1];
  }

  /** The time between outputs `k` and `k + 1`. */
  function GapAt(times: seq<int>, k: nat): int
    requires k + 1 < |times|
  {
    times[k + 1] - times[k]
  }

  lemma {:induction false} GapsAre(times: seq<int>)
    ensures |Gaps(times)| == Max(0, |times| - 1)
    ensures forall k: nat :: k < |times| - 1 ==> Gaps(times)[k] == GapAt(times, k)
  {
    if |times| >= 2 {
      var init := times[..|times| - 1];
      GapsAre(init);
      assert forall k: nat :: k < |init| - 1 ==> GapAt(init, k) == GapAt(times, k);
      assert GapAt(times, |times| - 2) == times[|times| - 1] - times[|times| - 2];
    }
  }

  /** One step of a request's outputs: unchanged, or one more at `later`; a completed request does not change. */
  predicate Continues(outputs: seq<int>, completed: Option<int>, outputs': seq<int>, completed': Option<int>, later: int) {
    && (completed.Some? ==> outputs' == outputs && completed' == completed)
    && (outputs' == outputs || outputs' == outputs + [later])
    && (completed.None? && completed'.Some? ==> completed'.value == later && outputs' == outputs + [later])
  }

  /** Time only makes the longest gap longer. */
  lemma GapsGrow(outputs: seq<int>, completed: Option<int>, outputs': seq<int>, completed': Option<int>, time: int, later: int)
    requires outputs != [] && Continues(outputs, completed, outputs', completed', later) && time <= later
    ensures Largest(OpenGaps(outputs, completed, time)) <= Largest(OpenGaps(outputs', completed', later))
  {
    hide Gaps, Largest;
    var a, b := OpenGaps(outputs, completed, time), OpenGaps(outputs', completed', later);
    if completed.None? {
      var n := |Gaps(outputs)|;
      var last := outputs[|outputs| - 1];
      if outputs' != outputs { GapsAppend(outputs, later); }
      assert n < |b| && b[n] == later - last >= a[n];
      assert forall k :: 0 <= k < n ==> b[k] == a[k];
      assert forall k :: 0 <= k < |a| ==> a[k] <= b[k];
    }
  }
}
