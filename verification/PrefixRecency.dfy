/** Prefix history under a sliding window: the indexed computation and the exhaustive one find the same lengths. */
module PrefixRecency {
  import opened Common
  import opened PrefixOrder
  import opened PrefixIndex

  // ---------------------------------------------------------------------------------------
  // The exhaustive definition

  /** `prior` arrived strictly earlier, and not more than `window` earlier. */
  predicate InWindow(prior: Row, row: Row, window: Option<real>) {
    0.0 < row.time - prior.time && (window.Some? ==> row.time - prior.time <= window.value)
  }

  ghost function Earlier(rows: seq<Row>, row: Row, window: Option<real>): set<Row> {
    set r | r in rows && InWindow(r, row, window)
  }

  /** The most tokens any row in window and scope shares with `row`. */
  function Longest(rows: seq<Row>, row: Row, window: Option<real>, scope: Scope): nat {
    if rows == [] then 0
    else
      var n := |rows| - 1;
      var prior := rows[n];
      var rest := Longest(rows[..n], row, window, scope);
      if InWindow(prior, row, window) && InScope(prior, row, scope) && Lcp(row.blocks, prior.blocks) * BLOCK_SIZE > rest
      then Lcp(row.blocks, prior.blocks) * BLOCK_SIZE else rest
  }

  lemma {:induction false} LongestBounds(rows: seq<Row>, row: Row, window: Option<real>, scope: Scope)
    ensures forall r :: r in rows && InWindow(r, row, window) && InScope(r, row, scope) ==>
              Lcp(row.blocks, r.blocks) * BLOCK_SIZE <= Longest(rows, row, window, scope)
    ensures Longest(rows, row, window, scope) > 0 ==>
              exists r :: r in rows && InWindow(r, row, window) && InScope(r, row, scope)
                          && Longest(rows, row, window, scope) == Lcp(row.blocks, r.blocks) * BLOCK_SIZE
  {
    hide Lcp, InWindow, InScope;
    if rows != [] {
      var n := |rows| - 1;
      assert rows == rows[..n] + [rows[n]];
      LongestBounds(rows[..n], row, window, scope);
      assert rows[n] in rows;
    }
  }

  /** A best match has exactly the exhaustive length. */
  lemma BestIsLongest(rows: seq<Row>, row: Row, window: Option<real>, scope: Scope, m: Match)
    requires IsBest(Earlier(rows, row, window), row, scope, m)
    ensures m.tokens == Longest(rows, row, window, scope)
  {
    hide Lcp, InWindow, InScope, Longest;
    LongestBounds(rows, row, window, scope);
    if m.tokens > 0 {
      var prior :| prior in Earlier(rows, row, window) && InScope(prior, row, scope)
        && m == Match(Lcp(row.blocks, prior.blocks) * BLOCK_SIZE, Some(prior.id), Some(row.time - prior.time));
      assert m.tokens <= Longest(rows, row, window, scope);
    }
    if Longest(rows, row, window, scope) > 0 {
      var r :| r in rows && InWindow(r, row, window) && InScope(r, row, scope)
               && Longest(rows, row, window, scope) == Lcp(row.blocks, r.blocks) * BLOCK_SIZE;
      assert r in Earlier(rows, row, window);
    }
  }

  /** common_tokens. */
  method CommonTokens(left: seq<nat>, right: seq<nat>) returns (tokens: nat)
    ensures tokens == Lcp(left, right) * BLOCK_SIZE
  {
    for i := 0 to Min(|left|, |right|)
      invariant left[..i] == right[..i]
    {
      if left[i] != right[i] {
        LcpLongest(left, right, i);
        assert forall k :: 0 <= k < Lcp(left, right) ==> left[k] == left[..Lcp(left, right)][k] == right[..Lcp(left, right)][k] == right[k];
        return i * BLOCK_SIZE;
      }
    }
    LcpLongest(left, right, Min(|left|, |right|));
    tokens := Min(|left|, |right|) * BLOCK_SIZE;
  }

  /** The per-window table of the exhaustive check. */
  type Table = map<Option<real>, map<Scope, nat>>

  ghost predicate RowIs(found: map<Scope, nat>, rows: seq<Row>, row: Row, w: Option<real>) {
    && All in found && Within in found && Cross in found
    && forall scope :: scope in found ==> found[scope] == Longest(rows, row, w, scope)
  }

  ghost predicate Tabulates(table: Table, windows: seq<Option<real>>, rows: seq<Row>, row: Row) {
    forall k :: 0 <= k < |windows| ==> windows[k] in table && RowIs(table[windows[k]], rows, row, windows[k])
  }

  /** One more candidate in one window: the maximum over all, and over its own scope. */
  method RaiseRow(found: map<Scope, nat>, rows: seq<Row>, row: Row, w: Option<real>, n: nat,
                  tokens: nat) returns (r: map<Scope, nat>)
    requires n < |rows| && (RowIs(found, rows[..n], row, w) || RowIs(found, rows[..n + 1], row, w))
    requires InWindow(rows[n], row, w) && tokens == Lcp(row.blocks, rows[n].blocks) * BLOCK_SIZE
    ensures RowIs(r, rows[..n + 1], row, w)
  {
    hide Lcp;
    assert rows[..n + 1][..n] == rows[..n];
    var own := if row.component == rows[n].component then Within else Cross;
    r := found;
    var raised: nat := Max(r[All], tokens);
    r := r[All := raised];
    raised := Max(r[own], tokens);
    r := r[own := raised];
  }

  lemma SkipRow(found: map<Scope, nat>, rows: seq<Row>, row: Row, w: Option<real>, n: nat)
    requires n < |rows| && (RowIs(found, rows[..n], row, w) || RowIs(found, rows[..n + 1], row, w))
    requires !InWindow(rows[n], row, w) || Lcp(row.blocks, rows[n].blocks) == 0
    ensures RowIs(found, rows[..n + 1], row, w)
  {
    hide Lcp;
    assert rows[..n + 1][..n] == rows[..n];
  }

  /** The update of one candidate in every window. */
  method Raise(table: Table, windows: seq<Option<real>>, rows: seq<Row>, row: Row, n: nat, tokens: nat) returns (r: Table)
    requires n < |rows| && Tabulates(table, windows, rows[..n], row)
    requires 0.0 < row.time - rows[n].time && tokens == Lcp(row.blocks, rows[n].blocks) * BLOCK_SIZE
    ensures Tabulates(r, windows, rows[..n + 1], row)
  {
    hide Lcp, RowIs;
    r := table;
    var age := row.time - rows[n].time;
    for k := 0 to |windows|
      invariant forall j :: 0 <= j < |windows| ==>
        windows[j] in r && (RowIs(r[windows[j]], rows[..n], row, windows[j]) || RowIs(r[windows[j]], rows[..n + 1], row, windows[j]))
      invariant forall j :: 0 <= j < k ==> RowIs(r[windows[j]], rows[..n + 1], row, windows[j])
    {
      var w := windows[k];
      if w.None? || age <= w.value {
        var found := RaiseRow(r[w], rows, row, w, n, tokens);
        r := r[w := found];
      } else {
        SkipRow(r[w], rows, row, w, n);
      }
    }
  }

  /** exhaustive_prefix. */
  method ExhaustivePrefix(row: Row, candidates: seq<Row>, windows: seq<Option<real>>) returns (table: Table)
    ensures Tabulates(table, windows, candidates, row)
  {
    hide Lcp;
    table := map w | w in windows :: map[All := 0, Within := 0, Cross := 0];
    assert forall k :: 0 <= k < |windows| ==> windows[k] in table;
    for n := 0 to |candidates|
      invariant Tabulates(table, windows, candidates[..n], row)
    {
      var prior := candidates[n];
      var tokens: nat := 0;
      if row.time - prior.time > 0.0 {
        tokens := CommonTokens(row.blocks, prior.blocks);
      }
      if tokens != 0 {
        table := Raise(table, windows, candidates, row, n, tokens);
      } else {
        forall k | 0 <= k < |windows| ensures RowIs(table[windows[k]], candidates[..n + 1], row, windows[k]) {
          SkipRow(table[windows[k]], candidates, row, windows[k], n);
        }
      }
    }
    assert candidates[..|candidates|] == candidates;
  }

  // ---------------------------------------------------------------------------------------
  // The order of the rows

  predicate RowLess(a: Row, b: Row) {
    a.time < b.time || (a.time == b.time && a.id < b.id)
  }

  ghost predicate Ordered(s: seq<Row>) {
    forall i, j :: 0 <= i < j < |s| ==> RowLess(s[i], s[j])
  }

  ghost predicate UniqueIds(s: seq<Row>) {
    forall i, j :: 0 <= i < j < |s| ==> s[i].id != s[j].id
  }

  function Place(s: seq<Row>, row: Row): (r: seq<Row>)
    ensures |r| == |s| + 1 && forall x :: x in r <==> x == row || x in s
  {
    if s == [] || RowLess(row, s[0]) then [row] + s
    else
      assert s == [s[0]] + s[1..];
      [s[0]] + Place(s[1..], row)
  }

  lemma {:induction false} PlaceOrdered(s: seq<Row>, row: Row)
    requires Ordered(s) && forall x :: x in s ==> x.id != row.id
    ensures Ordered(Place(s, row))
  {
    if s == [] || RowLess(row, s[0]) {
    } else {
      PlaceOrdered(s[1..], row);
      var rest := Place(s[1..], row);
      forall j | 0 <= j < |rest| ensures RowLess(s[0], rest[j]) {
        assert rest[j] in rest;
        if rest[j] != row { var k :| 0 <= k < |s[1..]| && s[1..][k] == rest[j]; assert s[k + 1] == rest[j]; }
      }
    }
  }

  /** sorted(rows, key=(timestamp, chat_id)). */
  function SortRows(rows: seq<Row>): (r: seq<Row>)
    ensures |r| == |rows| && forall x :: x in r <==> x in rows
  {
    if rows == [] then []
    else
      assert rows == [rows[0]] + rows[1..];
      Place(SortRows(rows[1..]), rows[0])
  }

  lemma {:induction false} SortRowsOrdered(rows: seq<Row>)
    requires UniqueIds(rows)
    ensures Ordered(SortRows(rows)) && UniqueIds(SortRows(rows))
  {
    if rows != [] {
      SortRowsOrdered(rows[1..]);
      forall x | x in SortRows(rows[1..]) ensures x.id != rows[0].id {
        var k :| 0 <= k < |rows[1..]| && rows[1..][k] == x;
        assert rows[k + 1] == x;
      }
      PlaceOrdered(SortRows(rows[1..]), rows[0]);
      var r := SortRows(rows);
      forall i, j | 0 <= i < j < |r| ensures r[i].id != r[j].id {
        assert RowLess(r[i], r[j]) && r[i] != r[j];
        assert r[i] in rows && r[j] in rows;
        var a, b := IndexOf(rows, r[i]), IndexOf(rows, r[j]);
      }
    }
  }

  // ---------------------------------------------------------------------------------------
  // prefix_recency

  /** The scopes of one row in one window. */
  type Answers = map<Scope, Match>

  ghost predicate Answered(a: Answers, rows: seq<Row>, row: Row, window: Option<real>) {
    && All in a && Within in a && Cross in a
    && forall scope :: scope in a ==> IsBest(Earlier(rows, row, window), row, scope, a[scope])
  }

  ghost function RowsOf(s: seq<Row>): set<Row> {
    set r | r in s
  }

  /** The first `n` rows have their answers for the window. */
  ghost predicate AnsweredUpTo(found: map<nat, Answers>, ordered: seq<Row>, window: Option<real>, n: nat)
    requires n <= |ordered|
  {
    forall i :: 0 <= i < n ==> ordered[i].id in found && Answered(found[ordered[i].id], ordered, ordered[i], window)
  }

  lemma AnsweredNext(found: map<nat, Answers>, ordered: seq<Row>, window: Option<real>, n: nat, answers: Answers)
    requires n < |ordered| && UniqueIds(ordered) && AnsweredUpTo(found, ordered, window, n)
    requires Answered(answers, ordered, ordered[n], window)
    ensures AnsweredUpTo(found[ordered[n].id := answers], ordered, window, n + 1)
  {
    hide Answered;
  }

  /** The rows the index holds are the rows in the window: nothing expired, nothing simultaneous. */
  lemma HeldIsWindow(ordered: seq<Row>, lo: nat, hi: nat, row: Row, window: Option<real>)
    requires lo <= hi < |ordered| && Ordered(ordered) && row.time == ordered[hi].time
    requires hi > 0 ==> ordered[hi - 1].time < row.time
    requires lo > 0 ==> window.Some? && row.time - ordered[lo - 1].time > window.value
    requires lo < hi && window.Some? ==> row.time - ordered[lo].time <= window.value
    ensures RowsOf(ordered[lo..hi]) == Earlier(ordered, row, window)
  {
    hide Earlier, Ordered, RowLess;
    forall r | r in Earlier(ordered, row, window) ensures r in ordered[lo..hi] {
      var i := EarlierIndex(ordered, lo, hi, row, window, r);
      assert ordered[lo..hi][i - lo] == r;
    }
    forall r | r in ordered[lo..hi] ensures r in Earlier(ordered, row, window) {
      var k := IndexOf(ordered[lo..hi], r);
      assert ordered[k + lo] == r;
      WindowMember(ordered, lo, hi, row, window, k + lo);
    }
  }

  /** An earlier row within the window lies from `lo` up to `hi`. */
  lemma EarlierIndex(ordered: seq<Row>, lo: nat, hi: nat, row: Row, window: Option<real>, r: Row) returns (i: nat)
    requires lo <= hi < |ordered| && Ordered(ordered) && row.time == ordered[hi].time
    requires lo > 0 ==> window.Some? && row.time - ordered[lo - 1].time > window.value
    requires r in Earlier(ordered, row, window)
    ensures lo <= i < hi && ordered[i] == r
  {
    i := IndexOf(ordered, r);
    assert i > hi ==> RowLess(ordered[hi], ordered[i]);
    assert i < lo - 1 ==> RowLess(ordered[i], ordered[lo - 1]);
  }

  /** The rows from `lo` up to `hi` are earlier and within the window. */
  lemma WindowMember(ordered: seq<Row>, lo: nat, hi: nat, row: Row, window: Option<real>, i: nat)
    requires lo <= i < hi < |ordered| && Ordered(ordered) && ordered[hi - 1].time < row.time
    requires window.Some? ==> row.time - ordered[lo].time <= window.value
    ensures ordered[i] in Earlier(ordered, row, window)
  {
    assert i == hi - 1 || RowLess(ordered[i], ordered[hi - 1]);
    assert i == lo || RowLess(ordered[lo], ordered[i]);
  }

  /** Expiry: pop the front while it is older than the window. */
  method Expire(index: ActivePrefixes, ordered: seq<Row>, from: nat, hi: nat, current: real, window: real) returns (lo: nat)
    requires index.Valid() && from <= hi <= |ordered| && UniqueIds(ordered)
    requires index.pool == RowsOf(ordered[from..hi])
    requires from > 0 ==> current - ordered[from - 1].time > window
    modifies index
    ensures index.Valid() && from <= lo <= hi && index.pool == RowsOf(ordered[lo..hi])
    ensures lo > 0 ==> current - ordered[lo - 1].time > window
    ensures lo < hi ==> current - ordered[lo].time <= window
  {
    hide RowsOf, UniqueIds;
    lo := from;
    var active := ordered[from..hi];
    while active != [] && current - active[0].time > window
      invariant from <= lo <= hi && active == ordered[lo..hi]
      invariant index.Valid() && index.pool == RowsOf(ordered[lo..hi])
      invariant lo > 0 ==> current - ordered[lo - 1].time > window
      decreases |active|
    {
      PopFront(ordered, lo, hi);
      index.Remove(active[0]);
      active := active[1..];
      lo := lo + 1;
    }
  }

  lemma PopFront(ordered: seq<Row>, lo: nat, hi: nat)
    requires lo < hi <= |ordered| && UniqueIds(ordered)
    ensures RowsOf(ordered[lo..hi]) - {ordered[lo]} == RowsOf(ordered[lo + 1..hi])
    ensures ordered[lo] in RowsOf(ordered[lo..hi])
  {
    var a, b := ordered[lo..hi], ordered[lo + 1..hi];
    assert a == [ordered[lo]] + b;
    forall k | 0 <= k < |b| ensures b[k] != ordered[lo] { assert b[k] == ordered[lo + 1 + k]; }
  }

  lemma PushBack(ordered: seq<Row>, lo: nat, hi: nat)
    requires lo <= hi < |ordered| && UniqueIds(ordered)
    ensures RowsOf(ordered[lo..hi]) + {ordered[hi]} == RowsOf(ordered[lo..hi + 1])
    ensures ordered[hi] !in RowsOf(ordered[lo..hi])
  {
    var a, b := ordered[lo..hi], ordered[lo..hi + 1];
    assert b == a + [ordered[hi]];
    forall k | 0 <= k < |a| ensures a[k] != ordered[hi] { assert a[k] == ordered[lo + k]; }
  }

  ghost predicate Indexes(byId: map<nat, Row>, ordered: seq<Row>) {
    forall i :: 0 <= i < |ordered| ==> ordered[i].id in byId && byId[ordered[i].id] == ordered[i]
  }

  /** End of the batch of equal times that starts at `hi`. */
  method BatchEnd(ordered: seq<Row>, hi: nat) returns (next: nat)
    requires Ordered(ordered) && hi < |ordered|
    ensures hi < next <= |ordered| && forall i :: hi <= i < next ==> ordered[i].time == ordered[hi].time
    ensures next < |ordered| ==> ordered[next - 1].time < ordered[next].time
  {
    next := hi + 1;
    while next < |ordered| && ordered[next].time == ordered[hi].time
      invariant hi < next <= |ordered| && forall i :: hi <= i < next ==> ordered[i].time == ordered[hi].time
    {
      next := next + 1;
    }
    NextBatch(ordered, hi, next);
  }

  /** Where the window stands between two batches. */
  ghost predicate Between(ordered: seq<Row>, lo: nat, hi: nat, window: Option<real>) {
    && lo <= hi <= |ordered|
    && (0 < hi < |ordered| ==> ordered[hi - 1].time < ordered[hi].time)
    && (lo > 0 ==> window.Some? && ordered[hi - 1].time - ordered[lo - 1].time > window.value)
  }

  /** One window: batches of equal time are queried before any of them is inserted. */
  method RecencyIn(byId: map<nat, Row>, ordered: seq<Row>, window: Option<real>) returns (found: map<nat, Answers>)
    requires Ordered(ordered) && UniqueIds(ordered) && Indexes(byId, ordered)
    ensures AnsweredUpTo(found, ordered, window, |ordered|)
  {
    hide Answered, AnsweredUpTo, Ordered, RowsOf;
    found := map[];
    NoneAnswered(ordered, window);
    var index := new ActivePrefixes(byId);
    var lo, hi := 0, 0;
    NoRows(ordered);
    while hi < |ordered|
      invariant Between(ordered, lo, hi, window) && fresh(index) && index.Valid() && index.byId == byId
      invariant index.pool == RowsOf(ordered[lo..hi]) && AnsweredUpTo(found, ordered, window, hi)
      decreases |ordered| - hi
    {
      var next := BatchEnd(ordered, hi);
      if window.Some? {
        lo := Expire(index, ordered, lo, hi, ordered[hi].time, window.value);
      }
      found := AskBatch(index, ordered, lo, hi, next, window, found);
      AddBatch(index, ordered, lo, hi, next);
      hi := next;
    }
  }

  method AskBatch(index: ActivePrefixes, ordered: seq<Row>, lo: nat, hi: nat, next: nat, window: Option<real>,
                  answered: map<nat, Answers>) returns (found: map<nat, Answers>)
    requires index.Valid() && lo <= hi < next <= |ordered| && Ordered(ordered) && UniqueIds(ordered)
    requires index.pool == RowsOf(ordered[lo..hi]) && AnsweredUpTo(answered, ordered, window, hi)
    requires forall i :: hi <= i < next ==> ordered[i].time == ordered[hi].time
    requires hi > 0 ==> ordered[hi - 1].time < ordered[hi].time
    requires lo > 0 ==> window.Some? && ordered[hi].time - ordered[lo - 1].time > window.value
    requires lo < hi && window.Some? ==> ordered[hi].time - ordered[lo].time <= window.value
    ensures AnsweredUpTo(found, ordered, window, next)
  {
    hide Answered, AnsweredUpTo, Ordered, RowsOf;
    found := answered;
    for k := hi to next
      invariant AnsweredUpTo(found, ordered, window, k)
    {
      var answers := AskAll(index, ordered, lo, hi, ordered[k], window);
      AnsweredNext(found, ordered, window, k, answers);
      found := found[ordered[k].id := answers];
    }
  }

  method AddBatch(index: ActivePrefixes, ordered: seq<Row>, lo: nat, hi: nat, next: nat)
    requires index.Valid() && lo <= hi <= next <= |ordered| && UniqueIds(ordered) && Indexes(index.byId, ordered)
    requires index.pool == RowsOf(ordered[lo..hi])
    modifies index
    ensures index.Valid() && index.pool == RowsOf(ordered[lo..next])
  {
    hide RowsOf;
    for k := hi to next
      invariant index.Valid() && index.pool == RowsOf(ordered[lo..k])
    {
      PushBack(ordered, lo, k);
      index.Add(ordered[k]);
    }
  }

  lemma NoneAnswered(ordered: seq<Row>, window: Option<real>)
    ensures AnsweredUpTo(map[], ordered, window, 0)
  {}

  lemma NoRows(ordered: seq<Row>)
    ensures RowsOf(ordered[0..0]) == {}
  {}

  lemma NextBatch(ordered: seq<Row>, hi: nat, next: nat)
    requires Ordered(ordered) && hi < next <= |ordered|
    requires forall i :: hi <= i < next ==> ordered[i].time == ordered[hi].time
    requires next < |ordered| ==> ordered[next].time != ordered[hi].time
    ensures next < |ordered| ==> ordered[next - 1].time < ordered[next].time
  {
    if next < |ordered| { assert RowLess(ordered[next - 1], ordered[next]); }
  }

  method AskAll(index: ActivePrefixes, ordered: seq<Row>, lo: nat, hi: nat, row: Row,
                window: Option<real>) returns (answers: Answers)
    requires index.Valid() && lo <= hi < |ordered| && Ordered(ordered) && row.time == ordered[hi].time
    requires index.pool == RowsOf(ordered[lo..hi])
    requires hi > 0 ==> ordered[hi - 1].time < row.time
    requires lo > 0 ==> window.Some? && row.time - ordered[lo - 1].time > window.value
    requires lo < hi && window.Some? ==> row.time - ordered[lo].time <= window.value
    ensures Answered(answers, ordered, row, window)
  {
    hide IsBest, InWindow, RowsOf, Earlier, Ordered, IsLeft, IsRight, Better;
    HeldIsWindow(ordered, lo, hi, row, window);
    var all := index.Query(row, All);
    var within := index.Query(row, Within);
    var cross := index.Query(row, Cross);
    answers := map[All := all, Within := within, Cross := cross];
  }

  /** The answers of one window join the others. */
  ghost predicate Collected(found: map<nat, map<Option<real>, Answers>>, ordered: seq<Row>, windows: seq<Option<real>>, n: nat)
    requires n <= |windows|
  {
    forall i :: 0 <= i < |ordered| ==> ordered[i].id in found && CollectedRow(found[ordered[i].id], ordered, ordered[i], windows, n)
  }

  ghost predicate CollectedRow(found: map<Option<real>, Answers>, ordered: seq<Row>, row: Row, windows: seq<Option<real>>, n: nat)
    requires n <= |windows|
  {
    forall j :: 0 <= j < n ==> windows[j] in found && Answered(found[windows[j]], ordered, row, windows[j])
  }

  method Collect(found: map<nat, map<Option<real>, Answers>>, answers: map<nat, Answers>, ordered: seq<Row>,
                 windows: seq<Option<real>>, n: nat) returns (r: map<nat, map<Option<real>, Answers>>)
    requires n < |windows| && Collected(found, ordered, windows, n) && AnsweredUpTo(answers, ordered, windows[n], |ordered|)
    ensures Collected(r, ordered, windows, n + 1)
  {
    hide Answered;
    r := map id | id in found :: if id in answers then found[id][windows[n] := answers[id]] else found[id];
    forall i | 0 <= i < |ordered| ensures ordered[i].id in r && CollectedRow(r[ordered[i].id], ordered, ordered[i], windows, n + 1) {
      assert CollectedRow(found[ordered[i].id], ordered, ordered[i], windows, n);
    }
  }

  predicate AllPositive(windows: seq<Option<real>>) {
    forall k | 0 <= k < |windows| :: windows[k].None? || windows[k].value > 0.0
  }

  ghost predicate RowAnswered(found: map<nat, map<Option<real>, Answers>>, rows: seq<Row>, row: Row, window: Option<real>) {
    row.id in found && window in found[row.id] && Answered(found[row.id][window], rows, row, window)
  }

  /** prefix_recency; a window that is not positive is an error. */
  method PrefixRecency(rows: seq<Row>, windows: seq<Option<real>>) returns (result: Option<map<nat, map<Option<real>, Answers>>>)
    requires UniqueIds(rows)
    ensures result.None? <==> !AllPositive(windows)
    ensures result.Some? ==>
              forall i, k :: 0 <= i < |rows| && 0 <= k < |windows| ==> RowAnswered(result.value, rows, rows[i], windows[k])
  {
    hide Answered, AnsweredUpTo, Collected, Ordered, Indexes, ById, Unanswered, RowAnswered, UniqueIds, SortRows;
    var ordered := SortRows(rows);
    SortRowsOrdered(rows);
    var byId := ById(ordered);
    var found := Unanswered(ordered);
    NoneCollected(ordered, windows);
    for k := 0 to |windows|
      invariant AllPositive(windows[..k])
      invariant Collected(found, ordered, windows, k)
    {
      if windows[k].Some? && windows[k].value <= 0.0 {
        assert !AllPositive(windows);
        return None;
      }
      var answers := RecencyIn(byId, ordered, windows[k]);
      found := Collect(found, answers, ordered, windows, k);
    }
    AllCollected(found, ordered, rows, windows);
    result := Some(found);
  }

  lemma AllCollected(found: map<nat, map<Option<real>, Answers>>, ordered: seq<Row>, rows: seq<Row>, windows: seq<Option<real>>)
    requires Collected(found, ordered, windows, |windows|) && forall r :: r in ordered <==> r in rows
    ensures forall i, k :: 0 <= i < |rows| && 0 <= k < |windows| ==> RowAnswered(found, rows, rows[i], windows[k])
  {
    hide Answered, Collected;
    forall i, k | 0 <= i < |rows| && 0 <= k < |windows| ensures RowAnswered(found, rows, rows[i], windows[k]) {
      assert rows[i] in ordered;
      CollectedAt(found, ordered, windows, IndexOf(ordered, rows[i]), k);
      AnsweredSame(found[rows[i].id][windows[k]], ordered, rows, rows[i], windows[k]);
    }
  }

  function ById(ordered: seq<Row>): (byId: map<nat, Row>)
    requires UniqueIds(ordered)
    ensures Indexes(byId, ordered)
  {
    map r | r in ordered :: r.id := r
  }

  function Unanswered(ordered: seq<Row>): (found: map<nat, map<Option<real>, Answers>>)
    ensures forall i :: 0 <= i < |ordered| ==> ordered[i].id in found
  {
    map r | r in ordered :: r.id := map[]
  }

  lemma NoneCollected(ordered: seq<Row>, windows: seq<Option<real>>)
    ensures Collected(Unanswered(ordered), ordered, windows, 0)
  {
    hide Unanswered;
  }

  lemma CollectedAt(found: map<nat, map<Option<real>, Answers>>, ordered: seq<Row>, windows: seq<Option<real>>, i: nat, k: nat)
    requires i < |ordered| && k < |windows| && Collected(found, ordered, windows, |windows|)
    ensures ordered[i].id in found && windows[k] in found[ordered[i].id]
    ensures Answered(found[ordered[i].id][windows[k]], ordered, ordered[i], windows[k])
  {
    assert CollectedRow(found[ordered[i].id], ordered, ordered[i], windows, |windows|);
  }

  lemma AnsweredSame(a: Answers, ordered: seq<Row>, rows: seq<Row>, row: Row, window: Option<real>)
    requires Answered(a, ordered, row, window) && forall r :: r in ordered <==> r in rows
    ensures Answered(a, rows, row, window)
  {
    hide IsBest, InWindow;
    assert Earlier(ordered, row, window) == Earlier(rows, row, window);
  }

  /** The fast index and the exhaustive check agree in every window and scope. */
  lemma RecencyIsExhaustive(a: Answers, table: Table, rows: seq<Row>, row: Row, windows: seq<Option<real>>, k: nat)
    requires k < |windows| && Answered(a, rows, row, windows[k]) && Tabulates(table, windows, rows, row)
    ensures windows[k] in table
    ensures forall scope :: scope in a ==> scope in table[windows[k]] && a[scope].tokens == table[windows[k]][scope]
  {
    hide IsBest, Longest;
    var w := windows[k];
    assert RowIs(table[w], rows, row, w);
    forall scope | scope in a ensures scope in table[w] && a[scope].tokens == table[w][scope] {
      assert scope.All? || scope.Within? || scope.Cross?;
      BestIsLongest(rows, row, w, scope, a[scope]);
    }
  }
}
