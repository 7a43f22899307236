// tools/upgrade/locks.ts: which relations an upgrade locked, how strongly, and for how long at least.
module LockSampler {
  import opened Text

  const SAMPLE_INTERVAL_MS := 100

  /** PostgreSQL's table lock modes by strength; any other mode is below them all. */
  function Rank(mode: string): int {
    if mode == "AccessShareLock" then 0
    else if mode == "RowShareLock" then 1
    else if mode == "RowExclusiveLock" then 2
    else if mode == "ShareUpdateExclusiveLock" then 3
    else if mode == "ShareLock" then 4
    else if mode == "ShareRowExclusiveLock" then 5
    else if mode == "ExclusiveLock" then 6
    else if mode == "AccessExclusiveLock" then 7
    else -1
  }

  datatype Row = Row(relation: Option<string>, mode: string, granted: bool)
  datatype Held = Held(relation: string, mode: string, indices: seq<nat>)
  datatype RelationLock = RelationLock(relation: string, mode: string, observations: nat, longestRunSamples: nat,
                                       heldAtLeastMs: Option<nat>)

  // --------------------------------------------------------------- what was seen

  /** Every sample number from `first` on, `length` of them, saw the lock. */
  predicate Block(indices: seq<nat>, first: nat, length: nat) {
    length > 0 && forall i :: first <= i < first + length ==> i in indices
  }

  /** No sample number strictly inside the block was recorded twice. */
  ghost predicate CleanInside(indices: seq<nat>, first: nat, length: nat) {
    forall i: nat :: first < i < first + length - 1 ==> multiset(indices)[i] == 1
  }

  ghost predicate CleanBlock(indices: seq<nat>, first: nat, length: nat) {
    Block(indices, first, length) && CleanInside(indices, first, length)
  }

  /** `n` is the length of the longest clean block, or zero where nothing was seen. */
  ghost predicate LongestClean(indices: seq<nat>, n: nat) {
    && (n > 0 ==> exists a: nat :: CleanBlock(indices, a, n))
    && (forall a: nat, m: nat :: CleanBlock(indices, a, m) ==> m <= n)
  }

  /** `n` is the length of the longest block, or zero where nothing was seen. */
  ghost predicate Longest(indices: seq<nat>, n: nat) {
    && (n > 0 ==> exists a: nat :: Block(indices, a, n))
    && (forall a: nat, m: nat :: Block(indices, a, m) ==> m <= n)
  }

  ghost predicate Distinct(indices: seq<nat>) {
    forall i, j :: 0 <= i < j < |indices| ==> indices[i] != indices[j]
  }

  // ---------------------------------------------------------------------- sorting

  ghost predicate Ascending(s: seq<nat>) {
    forall i, j :: 0 <= i < j < |s| ==> s[i] <= s[j]
  }

  function Insert(x: nat, s: seq<nat>): seq<nat> {
    if s == [] || x <= s[0] then [x] + s else [s[0]] + Insert(x, s[1..])
  }

  function Sort(s: seq<nat>): seq<nat> {
    if s == [] then [] else Insert(s[0], Sort(s[1..]))
  }

  lemma {:induction false} InsertKeeps(x: nat, s: seq<nat>)
    ensures multiset(Insert(x, s)) == multiset(s) + multiset{x}
  {
    if s != [] && x > s[0] {
      InsertKeeps(x, s[1..]);
      assert s == [s[0]] + s[1..];
    }
  }

  lemma {:induction false} InsertAscends(x: nat, s: seq<nat>)
    requires Ascending(s)
    ensures Ascending(Insert(x, s))
  {
    if s != [] && x > s[0] {
      InsertAscends(x, s[1..]);
      InsertKeeps(x, s[1..]);
      Smallest(s[0], s[1..], x, Insert(x, s[1..]));
    }
  }

  lemma Smallest(least: nat, s: seq<nat>, x: nat, with: seq<nat>)
    requires multiset(with) == multiset(s) + multiset{x} && least <= x
    requires forall i :: 0 <= i < |s| ==> least <= s[i]
    ensures forall i :: 0 <= i < |with| ==> least <= with[i]
  {
    forall i | 0 <= i < |with|
      ensures least <= with[i]
    {
      assert with[i] in multiset(with);
    }
  }

  lemma {:induction false} SortSorts(s: seq<nat>)
    ensures Ascending(Sort(s)) && multiset(Sort(s)) == multiset(s)
  {
    if s != [] {
      SortSorts(s[1..]);
      InsertKeeps(s[0], Sort(s[1..]));
      InsertAscends(s[0], Sort(s[1..]));
      assert s == [s[0]] + s[1..];
    }
  }

  // --------------------------------------------------------------- runs in a sorted list

  /** The `n` elements from position `p` on count upwards by one. */
  ghost predicate Rises(s: seq<nat>, p: nat, n: nat) {
    p + n <= |s| && forall j :: p <= j < p + n ==> s[j] == s[p] + (j - p)
  }

  lemma {:induction false} CountOutside(s: seq<nat>, v: nat, p: nat)
    requires p < |s| && s[p] == v && forall j :: 0 <= j < |s| && j != p ==> s[j] != v
    ensures multiset(s)[v] == 1
  {
    assert s == s[..p] + [v] + s[p + 1..];
    assert v !in s[..p] && v !in s[p + 1..];
  }

  lemma RisesIsClean(s: seq<nat>, p: nat, n: nat)
    requires Ascending(s) && n > 0 && Rises(s, p, n)
    ensures CleanBlock(s, s[p], n)
  {
    forall i | s[p] <= i < s[p] + n
      ensures i in s
    {
      assert s[p + (i - s[p])] == i;
    }
    forall i: nat | s[p] < i < s[p] + n - 1
      ensures multiset(s)[i] == 1
    {
      var at := p + (i - s[p]);
      assert s[at - 1] == i - 1 && s[at] == i && s[at + 1] == i + 1;
      CountOutside(s, i, at);
    }
  }

  lemma {:induction false} TwiceCounts(s: seq<nat>, v: nat, p: nat, q: nat)
    requires p < q < |s| && s[p] == v && s[q] == v
    ensures multiset(s)[v] >= 2
  {
    assert s == s[..q] + s[q..];
    assert s[..q][p] == v && s[q..][0] == v;
    assert v in s[..q] && v in s[q..];
  }

  /** The last position of a value that is there. */
  lemma {:induction false} LastPosition(s: seq<nat>, v: nat, from: nat) returns (p: nat)
    requires from < |s| && s[from] == v
    ensures from <= p < |s| && s[p] == v && forall j :: p < j < |s| ==> s[j] != v
    decreases |s| - from
  {
    p := from;
    if j :| from < j < |s| && s[j] == v {
      p := LastPosition(s, v, j);
    }
  }

  lemma {:induction false} CleanRises(s: seq<nat>, a: nat, n: nat) returns (p: nat)
    requires Ascending(s) && CleanBlock(s, a, n)
    ensures p < |s| && Rises(s, p, n) && s[p] == a && (n == 1 || forall j :: p < j < |s| ==> s[j] != a)
  {
    assert a in s;
    var from :| 0 <= from < |s| && s[from] == a;
    p := LastPosition(s, a, from);
    if n > 1 {
      CleanRisesTo(s, a, n, p, n);
    }
  }

  lemma {:induction false} CleanRisesTo(s: seq<nat>, a: nat, n: nat, p: nat, k: nat)
    requires Ascending(s) && CleanBlock(s, a, n) && 1 <= k <= n
    requires p < |s| && s[p] == a && forall j :: p < j < |s| ==> s[j] != a
    ensures Rises(s, p, k)
  {
    if k > 1 {
      CleanRisesTo(s, a, n, p, k - 1);
      var v := a + k - 1;
      assert v in s;
      var q :| 0 <= q < |s| && s[q] == v;
      var last := p + k - 2;
      assert s[last] == v - 1;
      assert q > last;
      assert s[last + 1] == v by {
        assert v - 1 <= s[last + 1] <= v;
        if s[last + 1] == v - 1 {
          if k > 2 {
            TwiceCounts(s, v - 1, last, last + 1);
            assert false;
          }
        }
      }
    }
  }

  /** What holds of positions in the sorted list holds of the sample numbers themselves. */
  lemma SameBlocks(indices: seq<nat>, s: seq<nat>, a: nat, n: nat)
    requires multiset(s) == multiset(indices)
    ensures CleanBlock(s, a, n) <==> CleanBlock(indices, a, n)
  {
    assert forall i: nat :: i in s <==> i in multiset(s);
    assert forall i: nat :: i in indices <==> i in multiset(indices);
  }

  lemma LongestRise(indices: seq<nat>, s: seq<nat>, n: nat)
    requires Ascending(s) && multiset(s) == multiset(indices)
    requires n > 0 ==> exists p: nat :: Rises(s, p, n)
    requires forall p: nat, m: nat :: Rises(s, p, m) ==> m <= n
    ensures LongestClean(indices, n)
  {
    if n > 0 {
      var p: nat :| Rises(s, p, n);
      RisesIsClean(s, p, n);
      SameBlocks(indices, s, s[p], n);
    }
    forall a: nat, m: nat | CleanBlock(indices, a, m)
      ensures m <= n
    {
      SameBlocks(indices, s, a, m);
      var p := CleanRises(s, a, m);
    }
  }

  // --------------------------------------------------------------------- summarise

  /** The run of consecutive values that ends at position `k`. */
  function RunAt(s: seq<nat>, k: nat): nat
    requires k < |s|
  {
    if k > 0 && s[k] == s[k - 1] + 1 then RunAt(s, k - 1) + 1 else 1
  }

  function LongestTo(s: seq<nat>, k: nat): nat
    requires k <= |s|
  {
    if k == 0 then 0
    else if RunAt(s, k - 1) > LongestTo(s, k - 1) then RunAt(s, k - 1) else LongestTo(s, k - 1)
  }

  lemma {:induction false} RunRises(s: seq<nat>, k: nat)
    requires k < |s|
    ensures 0 < RunAt(s, k) <= k + 1 && Rises(s, k + 1 - RunAt(s, k), RunAt(s, k))
  {
    if k > 0 && s[k] == s[k - 1] + 1 {
      RunRises(s, k - 1);
    }
  }

  lemma {:induction false} RiseFits(s: seq<nat>, p: nat, m: nat)
    requires m > 0 && Rises(s, p, m)
    ensures m <= RunAt(s, p + m - 1)
  {
    if m > 1 {
      RiseFits(s, p, m - 1);
      assert s[p + m - 1] == s[p + m - 2] + 1;
    }
  }

  lemma {:induction false} LongestToCovers(s: seq<nat>, k: nat)
    requires k <= |s|
    ensures LongestTo(s, k) > 0 ==> exists p: nat :: Rises(s, p, LongestTo(s, k))
    ensures forall j :: 0 <= j < k ==> RunAt(s, j) <= LongestTo(s, k)
  {
    if k > 0 {
      LongestToCovers(s, k - 1);
      RunRises(s, k - 1);
    }
  }

  lemma LongestToIsLongest(indices: seq<nat>, s: seq<nat>)
    requires Ascending(s) && multiset(s) == multiset(indices)
    ensures LongestClean(indices, LongestTo(s, |s|))
  {
    LongestToCovers(s, |s|);
    forall p: nat, m: nat | Rises(s, p, m)
      ensures m <= LongestTo(s, |s|)
    {
      if m > 0 {
        RiseFits(s, p, m);
      }
    }
    LongestRise(indices, s, LongestTo(s, |s|));
  }

  method Summarise(relation: string, mode: string, indices: seq<nat>) returns (lock: RelationLock)
    ensures lock.relation == relation && lock.mode == mode && lock.observations == |indices|
    ensures LongestClean(indices, lock.longestRunSamples)
    ensures lock.heldAtLeastMs == if lock.longestRunSamples <= 1 then None
      else Some((lock.longestRunSamples - 1) * SAMPLE_INTERVAL_MS)
  {
    var sorted := Sort(indices);
    SortSorts(indices);
    assert |sorted| == |multiset(sorted)| == |indices|;
    var longest, run := 0, 0;
    var previous: Option<nat> := None;
    for k := 0 to |sorted|
      invariant longest == LongestTo(sorted, k)
      invariant k > 0 ==> previous == Some(sorted[k - 1]) && run == RunAt(sorted, k - 1)
      invariant k == 0 ==> previous == None
    {
      run := if previous.Some? && sorted[k] == previous.value + 1 then run + 1 else 1;
      if run > longest {
        longest := run;
      }
      previous := Some(sorted[k]);
    }
    LongestToIsLongest(indices, sorted);
    var atLeast := if longest <= 1 then None else Some((longest - 1) * SAMPLE_INTERVAL_MS);
    lock := RelationLock(relation, mode, |sorted|, longest, atLeast);
  }

  // ------------------------------------------------------- what the summary is worth

  /**
   * The run reported never exceeds the longest block of consecutive samples, and equals it
   * exactly when some longest block has no sample number recorded twice inside it.
   */
  lemma RunNeverOverstates(indices: seq<nat>, reported: nat, longest: nat)
    requires LongestClean(indices, reported) && Longest(indices, longest)
    ensures reported <= longest
    ensures reported == longest
      <==> longest == 0 || exists a: nat :: Block(indices, a, longest) && CleanInside(indices, a, longest)
  {
    if reported > 0 {
      var a: nat :| CleanBlock(indices, a, reported);
      assert Block(indices, a, reported);
      if reported == longest {
        assert Block(indices, a, longest) && CleanInside(indices, a, longest);
      }
    }
    if a: nat :| longest > 0 && Block(indices, a, longest) && CleanInside(indices, a, longest) {
      assert CleanBlock(indices, a, longest);
    }
  }

  lemma {:induction false} DistinctCounts(indices: seq<nat>, v: nat)
    requires Distinct(indices) && v in indices
    ensures multiset(indices)[v] == 1
  {
    var p :| 0 <= p < |indices| && indices[p] == v;
    CountOutside(indices, v, p);
  }

  /** Where no sample number repeats, the run reported is the longest block. */
  lemma DistinctIsExact(indices: seq<nat>, reported: nat, longest: nat)
    requires LongestClean(indices, reported) && Longest(indices, longest) && Distinct(indices)
    ensures reported == longest
  {
    RunNeverOverstates(indices, reported, longest);
    if longest > 0 {
      var a: nat :| Block(indices, a, longest);
      forall i: nat | a < i < a + longest - 1
        ensures multiset(indices)[i] == 1
      {
        DistinctCounts(indices, i);
      }
    }
  }

  /** A repeated sample number can cost a hold its length: samples 1, 2, 2 and 3 are reported as two. */
  lemma RepeatUnderstates()
    ensures LongestClean([1, 2, 2, 3], 2) && Longest([1, 2, 2, 3], 3)
  {
    var indices: seq<nat> := [1, 2, 2, 3];
    assert indices[0] == 1 && indices[1] == 2 && indices[2] == 2 && indices[3] == 3;
    assert multiset(indices)[2] == 2;
    assert Block(indices, 1, 3);
    assert CleanBlock(indices, 1, 2);
    forall a: nat, m: nat | Block(indices, a, m)
      ensures 1 <= a && a + m <= 4
    {
      assert a in indices && a + m - 1 in indices;
    }
    forall a: nat, m: nat | CleanBlock(indices, a, m)
      ensures m <= 2
    {
      assert Block(indices, a, m);
    }
  }

  /** The time claimed never exceeds the time between the first and the last sighting. */
  lemma TimeNeverExceedsSpan(indices: seq<nat>, reported: nat, first: nat, last: nat)
    requires LongestClean(indices, reported) && reported > 0
    requires forall i :: 0 <= i < |indices| ==> first <= indices[i] <= last
    ensures (reported - 1) * SAMPLE_INTERVAL_MS <= (last - first) * SAMPLE_INTERVAL_MS
  {
    var a: nat :| CleanBlock(indices, a, reported);
    assert a in indices && a + reported - 1 in indices;
  }

  // ----------------------------------------------------------------- the sampler

  /** The position of the entry for a relation and mode, or the length of the list. */
  function Find(held: seq<Held>, relation: string, mode: string): (at: nat)
    ensures at <= |held|
    ensures at < |held| ==> held[at].relation == relation && held[at].mode == mode
  {
    if held == [] || (held[0].relation == relation && held[0].mode == mode) then 0
    else 1 + Find(held[1..], relation, mode)
  }

  /** The samples that saw the relation held in that mode, in the order they were recorded. */
  function SeenIn(held: seq<Held>, relation: string, mode: string): seq<nat> {
    var at := Find(held, relation, mode);
    if at < |held| then held[at].indices else []
  }

  predicate Granted(row: Row, relation: string, mode: string) {
    row.relation == Some(relation) && row.granted && row.mode == mode
  }

  /** How often a sample's rows show the relation held in that mode. */
  function Times(rows: seq<Row>, relation: string, mode: string): nat {
    if rows == [] then 0
    else Times(rows[..|rows| - 1], relation, mode) + if Granted(rows[|rows| - 1], relation, mode) then 1 else 0
  }

  function Repeat(index: nat, times: nat): seq<nat> {
    if times == 0 then [] else Repeat(index, times - 1) + [index]
  }

  function Pushed(held: seq<Held>, relation: string, mode: string, index: nat): seq<Held> {
    var at := Find(held, relation, mode);
    if at < |held| then held[at := held[at].(indices := held[at].indices + [index])]
    else held + [Held(relation, mode, [index])]
  }

  /** No relation and mode has two entries. */
  ghost predicate OneEach(held: seq<Held>) {
    forall i, j :: 0 <= i < j < |held| ==> held[i].relation != held[j].relation || held[i].mode != held[j].mode
  }

  lemma {:induction false} FindUnique(held: seq<Held>, i: nat)
    requires OneEach(held) && i < |held|
    ensures Find(held, held[i].relation, held[i].mode) == i
  {
    if i > 0 {
      FindUnique(held[1..], i - 1);
      assert held[0].relation != held[i].relation || held[0].mode != held[i].mode;
    }
  }

  lemma {:induction false} FindMissing(held: seq<Held>, relation: string, mode: string, i: nat)
    requires i < |held| && Find(held, relation, mode) == |held|
    ensures held[i].relation != relation || held[i].mode != mode
  {
    if i > 0 {
      FindMissing(held[1..], relation, mode, i - 1);
    }
  }

  lemma PushedOneEach(held: seq<Held>, relation: string, mode: string, index: nat)
    requires OneEach(held)
    ensures OneEach(Pushed(held, relation, mode, index))
  {
    if Find(held, relation, mode) == |held| {
      forall i | 0 <= i < |held|
        ensures held[i].relation != relation || held[i].mode != mode
      {
        FindMissing(held, relation, mode, i);
      }
    }
  }

  lemma SeenPushed(held: seq<Held>, relation: string, mode: string, index: nat, r: string, m: string)
    requires OneEach(held)
    ensures SeenIn(Pushed(held, relation, mode, index), r, m)
         == SeenIn(held, r, m) + if r == relation && m == mode then [index] else []
  {
    var after, at := Pushed(held, relation, mode, index), Find(held, r, m);
    PushedOneEach(held, relation, mode, index);
    if at < |held| {
      FindUnique(after, at);
    } else if r == relation && m == mode {
      FindUnique(after, |held|);
    } else {
      StillMissing(held, relation, mode, index, r, m);
    }
  }

  lemma StillMissing(held: seq<Held>, relation: string, mode: string, index: nat, r: string, m: string)
    requires Find(held, r, m) == |held| && (r != relation || m != mode)
    ensures Find(Pushed(held, relation, mode, index), r, m) == |Pushed(held, relation, mode, index)|
  {
    var after := Pushed(held, relation, mode, index);
    var at := Find(after, r, m);
    if at < |held| {
      FindMissing(held, r, m, at);
    }
  }

  // ------------------------------------------------------------- when runs are exact

  datatype Take = Take(index: nat, rows: seq<Row>)

  /** What `Record` leaves of a series of samples, in the order they came back. */
  function Recorded(takes: seq<Take>, relation: string, mode: string): seq<nat> {
    if takes == [] then []
    else
      var last := takes[|takes| - 1];
      Recorded(takes[..|takes| - 1], relation, mode) + Repeat(last.index, Times(last.rows, relation, mode))
  }

  /** The samples did not overlap, and none of them showed the lock twice. */
  ghost predicate Orderly(takes: seq<Take>, relation: string, mode: string) {
    && (forall i, j :: 0 <= i < j < |takes| ==> takes[i].index < takes[j].index)
    && (forall i :: 0 <= i < |takes| ==> Times(takes[i].rows, relation, mode) <= 1)
  }

  lemma {:induction false} OrderlyIsDistinct(takes: seq<Take>, relation: string, mode: string)
    requires Orderly(takes, relation, mode)
    ensures Distinct(Recorded(takes, relation, mode))
    ensures forall k :: 0 <= k < |Recorded(takes, relation, mode)| ==>
      Recorded(takes, relation, mode)[k] <= takes[|takes| - 1].index
    ensures takes == [] ==> Recorded(takes, relation, mode) == []
  {
    if takes != [] {
      var before, last := takes[..|takes| - 1], takes[|takes| - 1];
      OrderlyIsDistinct(before, relation, mode);
      assert Repeat(last.index, Times(last.rows, relation, mode)) <= [last.index];
    }
  }

  /** Samples with growing numbers that never show a lock twice report its longest block. */
  lemma OrderlySamplingIsExact(takes: seq<Take>, relation: string, mode: string, reported: nat, longest: nat)
    requires Orderly(takes, relation, mode)
    requires LongestClean(Recorded(takes, relation, mode), reported)
      && Longest(Recorded(takes, relation, mode), longest)
    ensures reported == longest
  {
    OrderlyIsDistinct(takes, relation, mode);
    DistinctIsExact(Recorded(takes, relation, mode), reported, longest);
  }

  /** Each sample came back before the next was sent: the `i`-th to come back has number `i`. */
  ghost predicate InTurn(takes: seq<Take>) {
    forall i :: 0 <= i < |takes| ==> takes[i].index == i
  }

  lemma InTurnIsOrderly(takes: seq<Take>, relation: string, mode: string)
    requires InTurn(takes)
    requires forall i :: 0 <= i < |takes| ==> Times(takes[i].rows, relation, mode) <= 1
    ensures Orderly(takes, relation, mode)
  {
  }

  /** What is counted are the granted rows of that relation and mode. */
  lemma {:induction false} TimesCountsGranted(rows: seq<Row>, relation: string, mode: string)
    ensures Times(rows, relation, mode) == multiset(rows)[Row(Some(relation), mode, true)]
  {
    if rows != [] {
      var rest, last := rows[..|rows| - 1], rows[|rows| - 1];
      assert rows == rest + [last];
      TimesCountsGranted(rest, relation, mode);
    }
  }

  /** Where samples came back in turn, a sample's number is recorded exactly if it showed the lock granted. */
  lemma {:induction false} RecordedIffGranted(takes: seq<Take>, relation: string, mode: string, i: nat)
    requires InTurn(takes)
    ensures i in Recorded(takes, relation, mode)
       <==> i < |takes| && Row(Some(relation), mode, true) in takes[i].rows
    decreases |takes|
  {
    if takes != [] {
      var rest, last := takes[..|takes| - 1], takes[|takes| - 1];
      assert takes == rest + [last];
      RecordedIffGranted(rest, relation, mode, i);
      TimesCountsGranted(last.rows, relation, mode);
      RepeatHas(last.index, Times(last.rows, relation, mode), i);
    }
  }

  lemma {:induction false} RepeatHas(index: nat, times: nat, i: nat)
    ensures i in Repeat(index, times) <==> times > 0 && i == index
  {
    if times > 0 {
      RepeatHas(index, times - 1, i);
    }
  }

  // ------------------------------------------------------------- the strongest mode

  /** The lock is what `Summarise` makes of that entry. */
  ghost predicate SummaryOf(entry: Held, lock: RelationLock) {
    && lock.relation == entry.relation && lock.mode == entry.mode && lock.observations == |entry.indices|
    && LongestClean(entry.indices, lock.longestRunSamples)
    && lock.heldAtLeastMs == if lock.longestRunSamples <= 1 then None
      else Some((lock.longestRunSamples - 1) * SAMPLE_INTERVAL_MS)
  }

  /** Of the entries for its relation, entry `i` has the strongest mode, and is the first that has it. */
  predicate FirstStrongest(held: seq<Held>, i: nat)
    requires i < |held|
  {
    forall j :: 0 <= j < |held| && held[j].relation == held[i].relation ==>
      Rank(held[j].mode) <= Rank(held[i].mode) && (j < i ==> Rank(held[j].mode) < Rank(held[i].mode))
  }

  ghost predicate Strongest(held: seq<Held>, lock: RelationLock) {
    exists i: nat :: i < |held| && SummaryOf(held[i], lock) && FirstStrongest(held, i)
  }

  /** Every relation seen has the summary of its strongest entry, and no other relation has one. */
  ghost predicate Summarised(held: seq<Held>, byRelation: map<string, RelationLock>) {
    && (forall i :: 0 <= i < |held| ==> held[i].relation in byRelation)
    && (forall r :: r in byRelation ==> byRelation[r].relation == r && Strongest(held, byRelation[r]))
  }

  function Merged(byRelation: map<string, RelationLock>, lock: RelationLock): map<string, RelationLock> {
    if lock.relation !in byRelation || Rank(lock.mode) > Rank(byRelation[lock.relation].mode)
    then byRelation[lock.relation := lock] else byRelation
  }

  predicate Exclusive(byRelation: map<string, RelationLock>, r: string) {
    r in byRelation && byRelation[r].mode == "AccessExclusiveLock"
  }

  /** Of those relations locked exclusively, the one seen longest at a stretch; none if there is none. */
  ghost predicate LongestExclusive(byRelation: map<string, RelationLock>, among: set<string>,
                                   found: Option<RelationLock>)
  {
    && (found.Some? ==> exists r :: r in among && Exclusive(byRelation, r) && byRelation[r] == found.value)
    && (forall r :: r in among && Exclusive(byRelation, r) ==>
          found.Some? && byRelation[r].longestRunSamples <= found.value.longestRunSamples)
  }

  lemma StrongestAdds(held: seq<Held>, entry: Held, lock: RelationLock)
    requires Strongest(held, lock)
    requires entry.relation == lock.relation ==> Rank(entry.mode) <= Rank(lock.mode)
    ensures Strongest(held + [entry], lock)
  {
    var i: nat :| i < |held| && SummaryOf(held[i], lock) && FirstStrongest(held, i);
    assert (held + [entry])[i] == held[i];
    assert FirstStrongest(held + [entry], i);
  }

  lemma StrongestReplaces(held: seq<Held>, entry: Held, lock: RelationLock)
    requires SummaryOf(entry, lock)
    requires forall j :: 0 <= j < |held| && held[j].relation == entry.relation ==> Rank(held[j].mode) < Rank(entry.mode)
    ensures Strongest(held + [entry], lock)
  {
    assert (held + [entry])[|held|] == entry;
    assert FirstStrongest(held + [entry], |held|);
  }

  lemma MergeKeeps(held: seq<Held>, byRelation: map<string, RelationLock>, entry: Held, lock: RelationLock)
    requires Summarised(held, byRelation) && SummaryOf(entry, lock)
    ensures Summarised(held + [entry], Merged(byRelation, lock))
  {
    var after := Merged(byRelation, lock);
    forall r | r in after
      ensures after[r].relation == r && Strongest(held + [entry], after[r])
    {
      if r != lock.relation {
        StrongestAdds(held, entry, byRelation[r]);
      } else {
        MergeOwnKeeps(held, byRelation, entry, lock);
      }
    }
    forall i | 0 <= i < |held + [entry]|
      ensures (held + [entry])[i].relation in after
    {
    }
  }

  lemma MergeOwnKeeps(held: seq<Held>, byRelation: map<string, RelationLock>, entry: Held, lock: RelationLock)
    requires Summarised(held, byRelation) && SummaryOf(entry, lock)
    ensures Strongest(held + [entry], Merged(byRelation, lock)[lock.relation])
  {
    var r := lock.relation;
    if r !in byRelation {
      StrongestReplaces(held, entry, lock);
    } else if Rank(lock.mode) > Rank(byRelation[r].mode) {
      StrongestBounds(held, byRelation[r]);
      StrongestReplaces(held, entry, lock);
    } else {
      StrongestAdds(held, entry, byRelation[r]);
    }
  }

  lemma StrongestBounds(held: seq<Held>, lock: RelationLock)
    requires Strongest(held, lock)
    ensures forall j :: 0 <= j < |held| && held[j].relation == lock.relation ==> Rank(held[j].mode) <= Rank(lock.mode)
  {
  }

  /** An exclusive lock seen on a relation is the one reported for it. */
  lemma ExclusiveIsReported(held: seq<Held>, lock: RelationLock, j: nat)
    requires OneEach(held) && Strongest(held, lock)
    requires j < |held| && held[j].relation == lock.relation && held[j].mode == "AccessExclusiveLock"
    ensures SummaryOf(held[j], lock)
  {
    var i: nat :| i < |held| && SummaryOf(held[i], lock) && FirstStrongest(held, i);
    assert Rank(held[j].mode) == 7;
  }

  /** The table lock modes from the weakest to the strongest. */
  const BY_STRENGTH: seq<string> := [
    "AccessShareLock", "RowShareLock", "RowExclusiveLock", "ShareUpdateExclusiveLock", "ShareLock",
    "ShareRowExclusiveLock", "ExclusiveLock", "AccessExclusiveLock"]

  lemma RankOfListed(k: nat)
    requires k < |BY_STRENGTH|
    ensures Rank(BY_STRENGTH[k]) == k
  {
  }

  lemma RankIsListed(mode: string)
    requires Rank(mode) >= 0
    ensures Rank(mode) < |BY_STRENGTH| && BY_STRENGTH[Rank(mode)] == mode
  {
  }

  /** `mode` is a listed mode that stands at `k` or later. */
  ghost predicate AsStrongAs(mode: string, k: nat) {
    exists n: nat :: k <= n < |BY_STRENGTH| && BY_STRENGTH[n] == mode
  }

  /**
   * Of every relation the mode reported is one it was seen in, and as strong as every listed mode it was
   * seen in; a mode that is not listed is reported only where no listed one was seen.
   */
  lemma StrongestModeIsReported(held: seq<Held>, byRelation: map<string, RelationLock>, i: nat)
    requires Summarised(held, byRelation) && i < |held|
    ensures held[i].relation in byRelation
    ensures var mode := byRelation[held[i].relation].mode;
      && (exists n :: 0 <= n < |held| && held[n].relation == held[i].relation && held[n].mode == mode)
      && (forall k: nat :: k < |BY_STRENGTH| && held[i].mode == BY_STRENGTH[k] ==> AsStrongAs(mode, k))
  {
    var lock := byRelation[held[i].relation];
    StrongestBounds(held, lock);
    forall k: nat | k < |BY_STRENGTH| && held[i].mode == BY_STRENGTH[k]
      ensures AsStrongAs(lock.mode, k)
    {
      RankOfListed(k);
      RankIsListed(lock.mode);
    }
  }

  /**
   * The exclusive lock named is of a relation reported in `AccessExclusiveLock`, and none of those was
   * seen longer at a stretch; none is named exactly when there is no such relation.
   */
  lemma NamedExclusiveIsLongest(byRelation: map<string, RelationLock>, found: Option<RelationLock>)
    requires LongestExclusive(byRelation, byRelation.Keys, found)
    ensures found.Some? <==> exists r :: r in byRelation && byRelation[r].mode == "AccessExclusiveLock"
    ensures found.Some? ==> found.value.mode == "AccessExclusiveLock"
    ensures found.Some? ==> exists r :: r in byRelation && byRelation[r] == found.value
    ensures found.Some? ==> forall r :: r in byRelation && byRelation[r].mode == "AccessExclusiveLock" ==>
      byRelation[r].longestRunSamples <= found.value.longestRunSamples
  {
    if r :| r in byRelation && byRelation[r].mode == "AccessExclusiveLock" {
      assert Exclusive(byRelation, r);
    }
    forall r | r in byRelation && byRelation[r].mode == "AccessExclusiveLock"
      ensures Exclusive(byRelation, r)
    {
    }
  }

  /** The milliseconds claimed of a relation lie between the first and the last sample that saw it, 100 apart each. */
  lemma ClaimIsWithinSpan(entry: Held, lock: RelationLock, first: nat, last: nat)
    requires SummaryOf(entry, lock)
    requires forall i :: 0 <= i < |entry.indices| ==> first <= entry.indices[i] <= last
    ensures lock.heldAtLeastMs.Some? <==> lock.longestRunSamples >= 2
    ensures lock.heldAtLeastMs.Some? ==> lock.heldAtLeastMs.value == 100 * (lock.longestRunSamples - 1)
    ensures lock.heldAtLeastMs.Some? ==> lock.heldAtLeastMs.value <= 100 * (last - first)
  {
    if lock.longestRunSamples > 0 {
      TimeNeverExceedsSpan(entry.indices, lock.longestRunSamples, first, last);
    }
  }

  /** `takes` is the history of samples that came back; nothing computed depends on it. */
  class Sampler {
    var samples: nat
    var held: seq<Held>
    ghost var takes: seq<Take>

    ghost predicate Valid()
      reads this
    {
      OneEach(held) && samples == |takes| && forall r, m :: Seen(r, m) == Recorded(takes, r, m)
    }

    function Seen(relation: string, mode: string): seq<nat>
      reads this
    {
      SeenIn(held, relation, mode)
    }

    constructor ()
      ensures Valid() && takes == []
    {
      samples, held, takes := 0, [], [];
    }

    /** The number a sample gets is read before its query is sent, so two samples can share one. */
    method Begin() returns (index: nat)
      requires Valid()
      ensures index == |takes|
    {
      index := samples;
    }

    method Record(index: nat, rows: seq<Row>)
      requires Valid()
      modifies this
      ensures Valid() && takes == old(takes) + [Take(index, rows)]
    {
      samples := samples + 1;
      for k := 0 to |rows|
        invariant OneEach(held) && samples == old(samples) + 1 && takes == old(takes)
        invariant forall r, m :: Seen(r, m) == old(Seen(r, m)) + Repeat(index, Times(rows[..k], r, m))
      {
        var row := rows[k];
        ghost var before := held;
        assert rows[..k + 1][..k] == rows[..k];
        if row.relation.Some? && row.granted {
          PushedOneEach(held, row.relation.value, row.mode, index);
          held := Pushed(held, row.relation.value, row.mode, index);
          forall r, m
            ensures Seen(r, m) == old(Seen(r, m)) + Repeat(index, Times(rows[..k + 1], r, m))
          {
            SeenPushed(before, row.relation.value, row.mode, index, r, m);
          }
        }
      }
      assert rows[..|rows|] == rows;
      takes := takes + [Take(index, rows)];
      assert takes[..|takes| - 1] == old(takes);
    }

    /** A sample that comes back before another is sent keeps the samples in turn. */
    method TakeAlone(rows: seq<Row>)
      requires Valid()
      modifies this
      ensures Valid() && takes == old(takes) + [Take(|old(takes)|, rows)]
      ensures old(InTurn(takes)) ==> InTurn(takes)
    {
      var index := Begin();
      Record(index, rows);
    }

    method Stop() returns (byRelation: map<string, RelationLock>, longestAccessExclusive: Option<RelationLock>)
      requires Valid()
      ensures Summarised(held, byRelation)
      ensures LongestExclusive(byRelation, byRelation.Keys, longestAccessExclusive)
    {
      byRelation := SummariseAll(held);
      longestAccessExclusive := FindLongestExclusive(byRelation);
    }
  }

  /**
   * What `Stop` reports of a relation is exact when the samples came back in turn and none showed
   * the mode twice: the run is the longest block of samples that saw it.
   */
  lemma SamplingInTurnIsExact(sampler: Sampler, byRelation: map<string, RelationLock>, relation: string, longest: nat)
    requires sampler.Valid() && InTurn(sampler.takes) && Summarised(sampler.held, byRelation) && relation in byRelation
    requires forall i :: 0 <= i < |sampler.takes| ==>
      Times(sampler.takes[i].rows, relation, byRelation[relation].mode) <= 1
    requires Longest(sampler.Seen(relation, byRelation[relation].mode), longest)
    ensures byRelation[relation].longestRunSamples == longest
  {
    var lock := byRelation[relation];
    var i: nat :| i < |sampler.held| && SummaryOf(sampler.held[i], lock) && FirstStrongest(sampler.held, i);
    FindUnique(sampler.held, i);
    assert sampler.Seen(relation, lock.mode) == sampler.held[i].indices;
    InTurnIsOrderly(sampler.takes, relation, lock.mode);
    OrderlySamplingIsExact(sampler.takes, relation, lock.mode, lock.longestRunSamples, longest);
  }

  method SummariseAll(held: seq<Held>) returns (byRelation: map<string, RelationLock>)
    ensures Summarised(held, byRelation)
  {
    byRelation := map[];
    for i := 0 to |held|
      invariant Summarised(held[..i], byRelation)
    {
      var entry := held[i];
      var lock := Summarise(entry.relation, entry.mode, entry.indices);
      assert held[..i + 1] == held[..i] + [entry];
      MergeKeeps(held[..i], byRelation, entry, lock);
      byRelation := Merged(byRelation, lock);
    }
    assert held[..|held|] == held;
  }

  method FindLongestExclusive(byRelation: map<string, RelationLock>) returns (found: Option<RelationLock>)
    ensures LongestExclusive(byRelation, byRelation.Keys, found)
  {
    found := None;
    var rest := byRelation.Keys;
    while rest != {}
      invariant rest <= byRelation.Keys
      invariant LongestExclusive(byRelation, byRelation.Keys - rest, found)
      decreases |rest|
    {
      var r :| r in rest;
      ghost var among := byRelation.Keys - rest;
      rest := rest - {r};
      assert byRelation.Keys - rest == among + {r};
      if Exclusive(byRelation, r) && (found.None? || byRelation[r].longestRunSamples > found.value.longestRunSamples) {
        found := Some(byRelation[r]);
      }
    }
    assert byRelation.Keys - {} == byRelation.Keys;
  }
}
