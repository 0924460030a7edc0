/**
 HotspotDetector (routing_sim.py): two-phase hotspot detection by request class. The object keeps a window of arrivals and
 a streak per class; what it answers is stated over the history of the class alone.
 */
module Hotspot {
  import opened Common

  /** Leading blocks that make two requests the same class. */
  const CLASS_BLOCKS: nat := 32

  /** A request as the router sees it: prompt length, blocks cached per instance, and the instances' counters. */
  datatype Query = Query(cls: nat, holders: int, inputLen: int, hits: seq<nat>, bs: seq<int>, queued: seq<int>)

  /** An arrival: time and class. */
  type Arrival = (int, nat)

  // ---------------------------------------------------------------------------------------
  // The trailing window

  /** The arrivals after `t`. */
  function Recent(log: seq<Arrival>, t: int): seq<Arrival> {
    if log == [] then []
    else
      var n := |log| - 1;
      Recent(log[..n], t) + (if log[n].0 > t then [log[n]] else [])
  }

  /** Arrivals of a class. */
  function Occurrences(s: seq<Arrival>, cls: nat): nat {
    if s == [] then 0 else Occurrences(s[..|s| - 1], cls) + (if s[|s| - 1].1 == cls then 1 else 0)
  }

  ghost predicate Ordered(s: seq<Arrival>) {
    forall i, j :: 0 <= i < j < |s| ==> s[i].0 <= s[j].0
  }

  lemma {:induction false} OccurrencesTail(s: seq<Arrival>, cls: nat)
    requires s != []
    ensures Occurrences(s, cls) == Occurrences(s[1..], cls) + (if s[0].1 == cls then 1 else 0)
  {
    var n := |s| - 1;
    if n > 0 {
      OccurrencesTail(s[..n], cls);
      assert s[..n][1..] == s[1..][..n - 1];
    }
  }

  lemma {:induction false} RecentAppend(log: seq<Arrival>, a: Arrival, t: int)
    ensures Recent(log + [a], t) == Recent(log, t) + (if a.0 > t then [a] else [])
  {
    assert (log + [a])[..|log|] == log;
  }

  /** Narrowing a window twice is narrowing it to the later bound. */
  lemma {:induction false} RecentTwice(log: seq<Arrival>, t: int, u: int)
    requires t <= u
    ensures Recent(Recent(log, t), u) == Recent(log, u)
  {
    if log != [] {
      var n := |log| - 1;
      RecentTwice(log[..n], t, u);
      if log[n].0 > t {
        RecentAppend(Recent(log[..n], t), log[n], u);
      } else {
        assert Recent(log, t) == Recent(log[..n], t) && Recent(log, u) == Recent(log[..n], u);
      }
    }
  }

  lemma {:induction false} RecentNone(s: seq<Arrival>, t: int)
    requires forall i :: 0 <= i < |s| ==> s[i].0 <= t
    ensures Recent(s, t) == []
  {
    if s != [] { RecentNone(s[..|s| - 1], t); }
  }

  /** In order of time the window is a suffix. */
  lemma {:induction false} RecentSuffix(s: seq<Arrival>, t: int, k: nat)
    requires k <= |s| && (forall i :: 0 <= i < k ==> s[i].0 <= t) && (forall i :: k <= i < |s| ==> s[i].0 > t)
    ensures Recent(s, t) == s[k..]
  {
    var n := |s| - 1;
    if k == |s| {
      RecentNone(s, t);
    } else {
      RecentSuffix(s[..n], t, k);
      assert s[k..] == s[..n][k..] + [s[n]];
    }
  }

  lemma {:induction false} RecentOrdered(log: seq<Arrival>, t: int)
    requires Ordered(log)
    ensures Ordered(Recent(log, t)) && forall i :: 0 <= i < |Recent(log, t)| ==> Recent(log, t)[i] in log
  {
    if log != [] {
      var n := |log| - 1;
      RecentOrdered(log[..n], t);
      forall i | 0 <= i < |Recent(log[..n], t)| ensures Recent(log[..n], t)[i].0 <= log[n].0 {
        assert Recent(log[..n], t)[i] in log[..n];
      }
    }
  }

  // ---------------------------------------------------------------------------------------
  // One request's verdict

  /** lmetric_score. */
  function Score(q: Query, i: nat): int
    requires i < |q.hits| == |q.bs| == |q.queued|
  {
    (q.queued[i] + q.inputLen - q.hits[i] * BLOCK) * (q.bs[i] + 1)
  }

  function HolderCount(hits: seq<nat>): nat {
    if hits == [] then 0
    else HolderCount(hits[..|hits| - 1]) + (if hits[|hits| - 1] >= CLASS_BLOCKS then 1 else 0)
  }

  /** What simulate passes: counters for each of `n` instances, and the number of holders once the prompt has a class. */
  predicate Proper(q: Query, n: nat) {
    && |q.hits| == |q.bs| == |q.queued| == n && (q.holders >= 0 ==> q.holders == HolderCount(q.hits))
  }

  /** Some holder scores no worse than every other instance. */
  ghost predicate HotNoWorse(q: Query)
    requires |q.hits| == |q.bs| == |q.queued|
  {
    exists i :: 0 <= i < |q.hits| && q.hits[i] >= CLASS_BLOCKS
                && forall j :: 0 <= j < |q.hits| && q.hits[j] < CLASS_BLOCKS ==> Score(q, i) <= Score(q, j)
  }

  /** Skip: the prompt has no class. Pass: Equation 2 holds. Alarm: it fails. */
  datatype Verdict = Skip | Pass | Alarm(hot: bool, holders: nat)

  /** Equation 2 fails for `count` of `total` arrivals and `m` of `n` instances, with enough arrivals to say so. */
  predicate Alarming(n: nat, minCount: int, m: int, count: nat, total: nat) {
    0 < m < n && count >= minCount && count * n > m * total
  }

  ghost function Judge(n: nat, minCount: int, window: int, log: seq<Arrival>, q: Query): Verdict
    requires log != [] && Proper(q, n)
  {
    var recent := Recent(log, log[|log| - 1].0 - window);
    if q.holders < 0 then Skip
    else if Alarming(n, minCount, q.holders, Occurrences(recent, q.cls), |recent|) then Alarm(HotNoWorse(q), q.holders)
    else Pass
  }

  // ---------------------------------------------------------------------------------------
  // A class's history

  ghost predicate AllHot(v: seq<Verdict>) {
    forall i :: 0 <= i < |v| ==> v[i] == Skip || (v[i].Alarm? && v[i].hot)
  }

  function HotCount(v: seq<Verdict>): nat {
    if v == [] then 0 else HotCount(v[..|v| - 1]) + (if v[|v| - 1].Alarm? && v[|v| - 1].hot then 1 else 0)
  }

  /** From `j` to `i` alarms counted without a break, twice as many as there were holders at `i`, and none passed since. */
  ghost predicate Tripped(v: seq<Verdict>, j: nat, i: nat)
    requires j <= i < |v|
  {
    && v[i].Alarm? && AllHot(v[j..i + 1]) && HotCount(v[j..i + 1]) >= 2 * v[i].holders
    && forall k :: i <= k < |v| ==> v[k] != Pass
  }

  ghost predicate Excluded(v: seq<Verdict>) {
    exists j, i :: 0 <= j <= i < |v| && Tripped(v, j, i)
  }

  /** Alarms counted without a break up to now. */
  ghost function Streak(v: seq<Verdict>): nat {
    if v == [] then 0
    else match v[|v| - 1]
      case Skip => Streak(v[..|v| - 1])
      case Pass => 0
      case Alarm(hot, _) => if hot then Streak(v[..|v| - 1]) + 1 else 0
  }

  lemma HotAppend(v: seq<Verdict>, x: Verdict)
    ensures HotCount(v + [x]) == HotCount(v) + (if x.Alarm? && x.hot then 1 else 0)
    ensures AllHot(v + [x]) <==> AllHot(v) && (x == Skip || (x.Alarm? && x.hot))
  {
    assert (v + [x])[..|v|] == v;
    assert forall i :: 0 <= i < |v| ==> (v + [x])[i] == v[i];
    assert (v + [x])[|v|] == x;
  }

  /** The streak is the length of an unbroken run ending now... */
  lemma {:induction false} StreakRun(v: seq<Verdict>) returns (j: nat)
    ensures j <= |v| && AllHot(v[j..]) && HotCount(v[j..]) == Streak(v)
  {
    j := |v|;
    if v != [] && (v[|v| - 1] == Skip || (v[|v| - 1].Alarm? && v[|v| - 1].hot)) {
      var n := |v| - 1;
      j := StreakRun(v[..n]);
      HotAppend(v[..n][j..], v[n]);
      assert v[j..] == v[..n][j..] + [v[n]];
    }
  }

  /** ... and of the longest one. */
  lemma {:induction false} StreakLongest(v: seq<Verdict>, j: nat)
    requires j <= |v| && AllHot(v[j..])
    ensures HotCount(v[j..]) <= Streak(v)
  {
    if j < |v| {
      var n := |v| - 1;
      assert v[j..] == v[..n][j..] + [v[n]];
      HotAppend(v[..n][j..], v[n]);
      StreakLongest(v[..n], j);
    }
  }

  lemma StreakAppend(v: seq<Verdict>, x: Verdict)
    ensures Streak(v + [x]) == match x case Skip => Streak(v) case Pass => 0 case Alarm(h, _) => if h then Streak(v) + 1 else 0
  {
    assert (v + [x])[..|v|] == v;
  }

  lemma TrippedLater(v: seq<Verdict>, x: Verdict, j: nat, i: nat)
    requires j <= i < |v|
    ensures Tripped(v + [x], j, i) <==> Tripped(v, j, i) && x != Pass
  {
    assert (v + [x])[j..i + 1] == v[j..i + 1];
    assert (v + [x])[|v|] == x;
    assert forall k :: 0 <= k < |v| ==> (v + [x])[k] == v[k];
  }

  /** A request that trips the class is the first to bring the streak to twice its holders. */
  lemma TrippedNow(v: seq<Verdict>, x: Verdict, j: nat)
    requires j <= |v| && x.Alarm? && x.holders > 0
    ensures Tripped(v + [x], j, |v|) <==> AllHot(v[j..]) && x.hot && HotCount(v[j..]) + 1 >= 2 * x.holders
  {
    assert (v + [x])[j..|v| + 1] == v[j..] + [x];
    HotAppend(v[j..], x);
  }

  /** How one more request changes what the history says. */
  lemma ExcludedNext(v: seq<Verdict>, x: Verdict)
    requires x.Alarm? ==> x.holders > 0
    ensures x == Skip ==> (Excluded(v + [x]) <==> Excluded(v))
    ensures x == Pass ==> !Excluded(v + [x])
    ensures x.Alarm? ==> (Excluded(v + [x]) <==> Excluded(v) || (x.hot && Streak(v) + 1 >= 2 * x.holders))
  {
    hide Tripped, Streak;
    var w := v + [x];
    if Excluded(v) && x != Pass {
      var j, i :| 0 <= j <= i < |v| && Tripped(v, j, i);
      TrippedLater(v, x, j, i);
      assert Tripped(w, j, i);
    }
    if x.Alarm? && x.hot && Streak(v) + 1 >= 2 * x.holders {
      var j := StreakRun(v);
      TrippedNow(v, x, j);
      assert Tripped(w, j, |v|);
    }
    if Excluded(w) {
      var j, i :| 0 <= j <= i < |w| && Tripped(w, j, i);
      if i < |v| { TrippedLater(v, x, j, i); } else { LastTrips(v, x, j); }
    }
  }

  lemma LastTrips(v: seq<Verdict>, x: Verdict, j: nat)
    requires j <= |v| && Tripped(v + [x], j, |v|) && (x.Alarm? ==> x.holders > 0)
    ensures x.Alarm? && x.hot && Streak(v) + 1 >= 2 * x.holders
  {
    assert (v + [x])[|v|] == x;
    TrippedNow(v, x, j);
    StreakLongest(v, j);
  }

  // ---------------------------------------------------------------------------------------
  // The instances left to a filtered request

  /** The instances that do not hold the class, in order. */
  function Others(hits: seq<nat>): (r: seq<nat>)
    ensures forall i: nat :: i in r <==> i < |hits| && hits[i] < CLASS_BLOCKS
    ensures forall a, b :: 0 <= a < b < |r| ==> r[a] < r[b]
  {
    if hits == [] then []
    else
      var n := |hits| - 1;
      var rest := Others(hits[..n]);
      assert forall i: nat :: i in rest <==> i < n && hits[i] < CLASS_BLOCKS;
      assert forall a :: 0 <= a < |rest| ==> rest[a] in rest;
      if hits[n] < CLASS_BLOCKS then rest + [n] else rest
  }

  lemma {:induction false} HoldersAndOthers(hits: seq<nat>)
    ensures HolderCount(hits) + |Others(hits)| == |hits|
  {
    if hits != [] { HoldersAndOthers(hits[..|hits| - 1]); }
  }

  lemma {:induction false} HolderExists(hits: seq<nat>)
    requires HolderCount(hits) > 0
    ensures exists i :: 0 <= i < |hits| && hits[i] >= CLASS_BLOCKS
  {
    var n := |hits| - 1;
    if hits[n] < CLASS_BLOCKS {
      HolderExists(hits[..n]);
      var i :| 0 <= i < n && hits[..n][i] >= CLASS_BLOCKS;
      assert hits[i] >= CLASS_BLOCKS;
    }
  }

  /** The best score among the holders, or among the others. */
  method BestScore(q: Query, holding: bool) returns (best: int)
    requires |q.hits| == |q.bs| == |q.queued|
    requires exists i :: 0 <= i < |q.hits| && (q.hits[i] >= CLASS_BLOCKS) == holding
    ensures exists i :: 0 <= i < |q.hits| && (q.hits[i] >= CLASS_BLOCKS) == holding && Score(q, i) == best
    ensures forall i :: 0 <= i < |q.hits| && (q.hits[i] >= CLASS_BLOCKS) == holding ==> best <= Score(q, i)
  {
    hide Score;
    var found: Option<nat> := None;
    for k := 0 to |q.hits|
      invariant found.Some? ==> found.value < k && (q.hits[found.value] >= CLASS_BLOCKS) == holding
      invariant forall i :: 0 <= i < k && (q.hits[i] >= CLASS_BLOCKS) == holding ==>
                  found.Some? && Score(q, found.value) <= Score(q, i)
    {
      if (q.hits[k] >= CLASS_BLOCKS) == holding && (found.None? || Score(q, k) < Score(q, found.value)) {
        found := Some(k);
      }
    }
    best := Score(q, found.value);
  }

  // ---------------------------------------------------------------------------------------
  // The detector

  /** collections.Counter. */
  function Tally(m: map<nat, int>, key: nat): int {
    if key in m then m[key] else 0
  }

  /** The counter agrees with the arrivals in the window. */
  ghost predicate Counted(counts: map<nat, int>, s: seq<Arrival>) {
    forall c: nat :: Tally(counts, c) == Occurrences(s, c)
  }

  ghost function HistoryOf(verdicts: map<nat, seq<Verdict>>, cls: nat): seq<Verdict> {
    if cls in verdicts then verdicts[cls] else []
  }

  /** An excluded class is one its history excludes; while it is not, its streak is the history's. */
  ghost predicate Tracked(excluded: bool, streak: int, v: seq<Verdict>) {
    (excluded <==> Excluded(v)) && (!excluded ==> streak == Streak(v))
  }

  ghost predicate AllTracked(filtering: set<nat>, streak: map<nat, int>, verdicts: map<nat, seq<Verdict>>) {
    forall c: nat :: Tracked(c in filtering, Tally(streak, c), HistoryOf(verdicts, c))
  }

  lemma TrackNothing()
    ensures AllTracked({}, map[], map[])
  {}

  /** A request touches its own class only. */
  lemma TrackOne(filtering: set<nat>, streak: map<nat, int>, verdicts: map<nat, seq<Verdict>>, cls: nat, v: seq<Verdict>,
                 filtering': set<nat>, streak': map<nat, int>)
    requires AllTracked(filtering, streak, verdicts) && Tracked(cls in filtering', Tally(streak', cls), v)
    requires streak' == streak[cls := Tally(streak', cls)] || streak' == streak
    requires filtering' - {cls} == filtering - {cls}
    ensures AllTracked(filtering', streak', verdicts[cls := v])
  {
    hide Tracked;
    forall c: nat ensures Tracked(c in filtering', Tally(streak', c), HistoryOf(verdicts[cls := v], c)) {
      assert c != cls ==> (c in filtering' - {cls} <==> c in filtering - {cls});
      assert Tracked(c in filtering, Tally(streak, c), HistoryOf(verdicts, c));
    }
  }

  lemma OneTracked(filtering: set<nat>, streak: map<nat, int>, verdicts: map<nat, seq<Verdict>>, cls: nat)
    requires AllTracked(filtering, streak, verdicts)
    ensures Tracked(cls in filtering, Tally(streak, cls), HistoryOf(verdicts, cls))
  {}

  lemma TrackSkip(excluded: bool, streak: int, v: seq<Verdict>)
    requires Tracked(excluded, streak, v)
    ensures Tracked(excluded, streak, v + [Skip])
  {
    hide Excluded, Streak;
    ExcludedNext(v, Skip);
    StreakAppend(v, Skip);
  }

  lemma TrackPass(v: seq<Verdict>)
    ensures Tracked(false, 0, v + [Pass])
  {
    hide Excluded, Streak;
    ExcludedNext(v, Pass);
    StreakAppend(v, Pass);
  }

  /** The streak of an excluded class waits. */
  lemma TrackAlarm(excluded: bool, streak: int, v: seq<Verdict>, x: Verdict)
    requires Tracked(excluded, streak, v) && x.Alarm? && x.holders > 0
    ensures var next := if excluded then streak else if x.hot then streak + 1 else 0;
            var out := excluded || next >= 2 * x.holders;
            Tracked(out, next, v + [x]) && (out <==> Excluded(v + [x]))
  {
    hide Excluded, Streak;
    ExcludedNext(v, x);
    StreakAppend(v, x);
  }

  class HotspotDetector {
    const n: nat
    const window: int
    const minCount: int
    var arrivals: seq<Arrival>
    var counts: map<nat, int>
    var streak: map<nat, int>
    var filtering: set<nat>
    ghost var log: seq<Arrival>
    ghost var verdicts: map<nat, seq<Verdict>>

    /** The window and its counts. */
    ghost predicate WindowValid()
      reads this
    {
      && window > 0 && Ordered(log)
      && arrivals == (if log == [] then [] else Recent(log, log[|log| - 1].0 - window))
      && Counted(counts, arrivals)
    }

    /** Streaks and exclusions are what the classes' histories say. */
    ghost predicate StreaksValid()
      reads this
    {
      AllTracked(filtering, streak, verdicts)
    }

    ghost predicate Valid()
      reads this
    {
      WindowValid() && StreaksValid()
    }

    constructor (n: nat, window: int, minCount: int)
      requires window > 0
      ensures Valid() && this.n == n && this.window == window && this.minCount == minCount
      ensures log == [] && verdicts == map[]
    {
      this.n, this.window, this.minCount := n, window, minCount;
      arrivals, counts, streak, filtering := [], map[], map[], {};
      log, verdicts := [], map[];
      TrackNothing();
    }

    /** observe: the arrival is counted, and those that have left the window are forgotten. */
    method Observe(cls: nat, now: int)
      requires Valid() && (log != [] ==> log[|log| - 1].0 <= now)
      modifies this`arrivals, this`counts, this`log
      ensures Valid() && log == old(log) + [(now, cls)]
    {
      hide Recent, Tracked, Counted, Ordered;
      WindowNext(log, (now, cls), window, arrivals);
      CountedAppend(counts, arrivals, (now, cls));
      arrivals := arrivals + [(now, cls)];
      counts := counts[cls := Tally(counts, cls) + 1];
      Forget(now - window);
      log := log + [(now, cls)];
      assert log[|log| - 1] == (now, cls);
    }

    /** The loop of observe. */
    method Forget(bound: int)
      requires Counted(counts, arrivals) && Ordered(arrivals) && arrivals != [] && arrivals[|arrivals| - 1].0 > bound
      modifies this`arrivals, this`counts
      ensures Counted(counts, arrivals) && arrivals == Recent(old(arrivals), bound)
    {
      hide Counted;
      ghost var all, k := arrivals, 0;
      while arrivals[0].0 <= bound
        invariant k < |all| && arrivals == all[k..] && forall i :: 0 <= i < k ==> all[i].0 <= bound
        invariant Counted(counts, arrivals)
        decreases |arrivals|
      {
        CountedDrop(counts, arrivals);
        var gone := arrivals[0].1;
        arrivals := arrivals[1..];
        counts := counts[gone := Tally(counts, gone) - 1];
        k := k + 1;
      }
      RecentSuffix(all, bound, k);
    }

    /**
     allowed: what the request's class has been through decides. The class is excluded from its holders exactly if some
     unbroken run of alarms since the last pass was long enough.
     */
    method Allowed(q: Query) returns (allowed: Option<seq<nat>>, alarm: bool, filtered: bool)
      requires Valid() && log != [] && Proper(q, n)
      modifies this`streak, this`filtering, this`verdicts
      ensures Valid()
      ensures var x := Judge(n, minCount, window, log, q);
              && verdicts == old(verdicts)[q.cls := HistoryOf(old(verdicts), q.cls) + [x]]
              && alarm == x.Alarm?
              && filtered == (x.Alarm? && Excluded(HistoryOf(verdicts, q.cls)))
      ensures allowed == if filtered then Some(Others(q.hits)) else None
      ensures filtered ==> Others(q.hits) != []
    {
      hide Excluded, Tracked, AllTracked, Recent, Occurrences, HotNoWorse, Ordered, HolderCount, Others, Streak;
      allowed, alarm, filtered := None, false, false;
      ghost var v := HistoryOf(verdicts, q.cls);
      ghost var x := Judge(n, minCount, window, log, q);
      ghost var out, run, past := filtering, streak, verdicts;
      OneTracked(filtering, streak, verdicts, q.cls);
      verdicts := verdicts[q.cls := v + [x]];
      if q.holders < 0 {
        TrackSkip(q.cls in filtering, Tally(streak, q.cls), v);
        TrackOne(out, run, past, q.cls, v + [x], filtering, streak);
        return;
      }
      var m: nat, count := q.holders, Tally(counts, q.cls);
      if !Alarming(n, minCount, m, count, |arrivals|) {
        TrackPass(v);
        streak := streak[q.cls := 0];
        filtering := filtering - {q.cls};
        TrackOne(out, run, past, q.cls, v + [x], filtering, streak);
        return;
      }
      TrackAlarm(q.cls in filtering, Tally(streak, q.cls), v, x);
      alarm := true;
      HoldersAndOthers(q.hits);
      if q.cls !in filtering {
        var better := HotBetter(q);
        streak := streak[q.cls := if better then Tally(streak, q.cls) + 1 else 0];
        if streak[q.cls] < 2 * m {
          TrackOne(out, run, past, q.cls, v + [x], filtering, streak);
          return;
        }
        filtering := filtering + {q.cls};
      }
      TrackOne(out, run, past, q.cls, v + [x], filtering, streak);
      filtered := true;
      allowed := Some(Others(q.hits));
    }
  }

  /** The comparison of the two minima. */
  method HotBetter(q: Query) returns (better: bool)
    requires |q.hits| == |q.bs| == |q.queued| && 0 < HolderCount(q.hits) < |q.hits|
    ensures better == HotNoWorse(q)
  {
    hide Score;
    HolderExists(q.hits);
    HoldersAndOthers(q.hits);
    assert Others(q.hits)[0] in Others(q.hits);
    var hot := BestScore(q, true);
    var cold := BestScore(q, false);
    better := hot <= cold;
  }

  lemma CountedAppend(counts: map<nat, int>, s: seq<Arrival>, a: Arrival)
    requires Counted(counts, s)
    ensures Counted(counts[a.1 := Tally(counts, a.1) + 1], s + [a])
  {
    forall c: nat ensures Tally(counts[a.1 := Tally(counts, a.1) + 1], c) == Occurrences(s + [a], c) {
      OccurrencesAppend(s, a, c);
    }
  }

  lemma CountedDrop(counts: map<nat, int>, s: seq<Arrival>)
    requires Counted(counts, s) && s != []
    ensures Counted(counts[s[0].1 := Tally(counts, s[0].1) - 1], s[1..])
  {
    forall c: nat ensures Tally(counts[s[0].1 := Tally(counts, s[0].1) - 1], c) == Occurrences(s[1..], c) {
      OccurrencesTail(s, c);
    }
  }

  lemma OccurrencesAppend(s: seq<Arrival>, a: Arrival, cls: nat)
    ensures Occurrences(s + [a], cls) == Occurrences(s, cls) + (if a.1 == cls then 1 else 0)
  {
    assert (s + [a])[..|s|] == s;
  }

  /** After one more arrival the new window can be cut from the old one. */
  lemma WindowNext(log: seq<Arrival>, a: Arrival, window: int, arrivals: seq<Arrival>)
    requires window > 0 && Ordered(log) && (log != [] ==> log[|log| - 1].0 <= a.0)
    requires arrivals == if log == [] then [] else Recent(log, log[|log| - 1].0 - window)
    ensures Ordered(log + [a]) && Ordered(arrivals + [a])
    ensures Recent(log + [a], a.0 - window) == Recent(arrivals + [a], a.0 - window)
  {
    hide Recent;
    RecentAppend(log, a, a.0 - window);
    RecentAppend(arrivals, a, a.0 - window);
    if log != [] {
      RecentTwice(log, log[|log| - 1].0 - window, a.0 - window);
      RecentOrdered(log, log[|log| - 1].0 - window);
      LastIsLatest(log);
      forall i | 0 <= i < |arrivals| ensures arrivals[i].0 <= a.0 { assert arrivals[i] in log; }
    }
  }

  lemma LastIsLatest(log: seq<Arrival>)
    requires Ordered(log) && log != []
    ensures forall a :: a in log ==> a.0 <= log[|log| - 1].0
  {}
}
