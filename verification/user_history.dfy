/** `UserHistory` of `app/components/UserHistory.tsx`: loading the scanned items of
    every stored session, newest first, and the insights computed from them. Times
    are milliseconds; freshness scores are integers. */
module UserHistory {
  import opened Wrappers
  import opened Text
  import opened Arith
  import opened Sorting
  import Seqs

  datatype HistoryItem = HistoryItem(id: string, item: string, freshness: int, timestamp: int, location: string)

  /** A local-storage entry: its key and the `items` of the session stored there
      (`None` when the session has none). */
  datatype StoredEntry = StoredEntry(key: string, items: Option<seq<HistoryItem>>)

  datatype Trajectory = Improving | Declining | Stable

  datatype Insights = Insights(avgFreshness: int, frequentItems: seq<string>, trajectory: Trajectory,
                               wasteReduction: int)

  const InitialInsights := Insights(0, [], Stable, 0)

  /** The items of the session entries, in storage order. */
  function Collected(entries: seq<StoredEntry>): (r: seq<HistoryItem>)
    ensures entries == [] ==> r == []
  {
    if entries == [] then []
    else
      var k := |entries| - 1;
      Collected(entries[..k])
        + (if StartsWith(entries[k].key, "session-") && entries[k].items.Some? then entries[k].items.value else [])
  }

  /** Storage read in two parts: the items of the first part, then those of the
      second. */
  lemma {:induction false} CollectedConcat(a: seq<StoredEntry>, b: seq<StoredEntry>)
    ensures Collected(a + b) == Collected(a) + Collected(b)
  {
    if b == [] {
      assert a + b == a;
    } else {
      var k := |b| - 1;
      assert (a + b)[..|a + b| - 1] == a + b[..k] && (a + b)[|a + b| - 1] == b[k];
      CollectedConcat(a, b[..k]);
      var last := if StartsWith(b[k].key, "session-") && b[k].items.Some? then b[k].items.value else [];
      Seqs.ConcatAssociative(Collected(a), Collected(b[..k]), last);
    }
  }

  /** One entry contributes its items exactly when it is a session that has some. */
  lemma CollectedSingle(e: StoredEntry)
    ensures Collected([e]) == if StartsWith(e.key, "session-") && e.items.Some? then e.items.value else []
  {
    assert [e][..0] == [];
  }

  /** An item is collected exactly when some session entry with items holds it. */
  lemma {:induction false} InCollected(entries: seq<StoredEntry>, x: HistoryItem)
    ensures x in Collected(entries) <==>
              exists k :: 0 <= k < |entries| && StartsWith(entries[k].key, "session-") && entries[k].items.Some?
                          && x in entries[k].items.value
  {
    if entries != [] {
      var n := |entries| - 1;
      var init := entries[..n];
      InCollected(init, x);
      if x in Collected(init) {
        var j :| 0 <= j < |init| && StartsWith(init[j].key, "session-") && init[j].items.Some?
                 && x in init[j].items.value;
        assert entries[j] == init[j];
      }
      if exists k :: 0 <= k < |entries| && StartsWith(entries[k].key, "session-") && entries[k].items.Some?
                     && x in entries[k].items.value {
        var j :| 0 <= j < |entries| && StartsWith(entries[j].key, "session-") && entries[j].items.Some?
                 && x in entries[j].items.value;
        if j < n {
          assert init[j] == entries[j];
        }
      }
    }
  }

  function Timestamp(x: HistoryItem): int { x.timestamp }

  /** `loadHistory`: all session items gathered in storage order, then sorted by
      timestamp, newest first. */
  method LoadHistory(entries: seq<StoredEntry>) returns (history: seq<HistoryItem>)
    ensures history == SortDesc(Collected(entries), Timestamp)
    ensures multiset(history) == multiset(Collected(entries))
    ensures forall i, j :: 0 <= i < j < |history| ==> history[i].timestamp >= history[j].timestamp
  {
    var items: seq<HistoryItem> := [];
    var i := 0;
    while i < |entries|
      invariant i <= |entries| && items == Collected(entries[..i])
    {
      assert entries[..i + 1][..i] == entries[..i];
      if StartsWith(entries[i].key, "session-") && entries[i].items.Some? {
        items := items + entries[i].items.value;
      }
      i := i + 1;
    }
    assert entries[..i] == entries;
    history := SortDesc(items, Timestamp);
    SortDescSortedStable(items, Timestamp);
  }

  function Freshnesses(history: seq<HistoryItem>): (r: seq<int>)
    ensures |r| == |history| && forall i :: 0 <= i < |r| ==> r[i] == history[i].freshness
  {
    seq(|history|, i requires 0 <= i < |history| => history[i].freshness)
  }

  /** `avgFreshness`: the half-up rounded mean. */
  function AverageFreshness(history: seq<HistoryItem>): (r: int)
    requires history != []
    ensures 2 * |history| * r - |history| <= 2 * Sum(Freshnesses(history)) < 2 * |history| * r + |history|
  {
    RoundDiv(Sum(Freshnesses(history)), |history|)
  }

  lemma AverageFreshnessInRange(history: seq<HistoryItem>)
    requires history != []
    requires forall i :: 0 <= i < |history| ==> 0 <= history[i].freshness <= 100
    ensures 0 <= AverageFreshness(history) <= 100
  {
    SumBounds(Freshnesses(history), 0, 100);
    RoundDivBetween(Sum(Freshnesses(history)), |history|, 0, 100);
  }

  /** How many scanned items have the name. */
  function Count(history: seq<HistoryItem>, name: string): (r: nat)
    ensures r <= |history|
    ensures r > 0 <==> exists i :: 0 <= i < |history| && history[i].item == name
  {
    if history == [] then 0
    else (if history[0].item == name then 1 else 0) + Count(history[1..], name)
  }

  /** Counting over two parts adds up. */
  lemma {:induction false} CountConcat(a: seq<HistoryItem>, b: seq<HistoryItem>, name: string)
    ensures Count(a + b, name) == Count(a, name) + Count(b, name)
  {
    if a == [] {
      assert a + b == b;
    } else {
      assert (a + b)[0] == a[0] && (a + b)[1..] == a[1..] + b;
      CountConcat(a[1..], b, name);
    }
  }

  /** The count of a history is that of all but its last scan, plus that scan. */
  lemma CountLast(history: seq<HistoryItem>, name: string)
    requires history != []
    ensures Count(history, name) == Count(history[..|history| - 1], name)
                                    + (if history[|history| - 1].item == name then 1 else 0)
  {
    var k := |history| - 1;
    assert history == history[..k] + [history[k]];
    CountConcat(history[..k], [history[k]], name);
    assert [history[k]][1..] == [];
  }

  /** The scans of a name are those among all but the last scan, plus that scan. */
  lemma ScansOfNameLast(history: seq<HistoryItem>, name: string)
    requires history != []
    ensures var k := |history| - 1;
            |set i | 0 <= i < |history| && history[i].item == name|
            == |set i | 0 <= i < k && history[..k][i].item == name| + (if history[k].item == name then 1 else 0)
  {
    var k := |history| - 1;
    var before := set i | 0 <= i < k && history[..k][i].item == name;
    var all := set i | 0 <= i < |history| && history[i].item == name;
    if history[k].item == name {
      assert all == before + {k};
    } else {
      assert all == before;
    }
  }

  /** `itemCounts[name]`: the number of scans of the name. */
  lemma {:induction false} CountCountsScans(history: seq<HistoryItem>, name: string)
    ensures Count(history, name) == |set i | 0 <= i < |history| && history[i].item == name|
  {
    if history != [] {
      var k := |history| - 1;
      CountCountsScans(history[..k], name);
      CountLast(history, name);
      ScansOfNameLast(history, name);
    }
  }

  /** The distinct names in order of first appearance: the key order of the
      counting object. */
  function Names(history: seq<HistoryItem>): (r: seq<string>)
    ensures forall i, j :: 0 <= i < j < |r| ==> r[i] != r[j]
    ensures forall n :: n in r <==> exists i :: 0 <= i < |history| && history[i].item == n
  {
    if history == [] then []
    else
      var k := |history| - 1;
      var prev := Names(history[..k]);
      if history[k].item in prev then prev else prev + [history[k].item]
  }

  /** The names by decreasing count; first appearance breaks ties. */
  function SortedNames(history: seq<HistoryItem>): (r: seq<string>)
    ensures multiset(r) == multiset(Names(history)) && |r| == |Names(history)|
    ensures forall i, j :: 0 <= i < j < |r| ==> Count(history, r[i]) >= Count(history, r[j])
    ensures forall i, j :: 0 <= i < j < |r| ==> r[i] != r[j]
  {
    var key := (n: string) => Count(history, n);
    SortDescSortedStable(Names(history), key);
    var r := SortDesc(Names(history), key);
    forall i, j | 0 <= i < j < |r| ensures r[i] != r[j] {
      DistinctPermutation(Names(history), r, i, j);
    }
    r
  }

  /** `frequentItems`: the first three names by decreasing count; they are
      distinct and in non-increasing count order. */
  function FrequentItems(history: seq<HistoryItem>): (r: seq<string>)
    ensures |r| == if |Names(history)| < 3 then |Names(history)| else 3
    ensures r == SortedNames(history)[..|r|]
    ensures forall i, j :: 0 <= i < j < |r| ==> r[i] != r[j] && Count(history, r[i]) >= Count(history, r[j])
  {
    var sorted := SortedNames(history);
    sorted[..if |sorted| < 3 then |sorted| else 3]
  }

  /** Every frequent item was scanned. */
  lemma FrequentItemsScanned(history: seq<HistoryItem>, n: string)
    requires n in FrequentItems(history)
    ensures Count(history, n) > 0
  {
    var sorted := SortedNames(history);
    assert n in sorted;
    assert n in multiset(sorted);
    assert n in multiset(Names(history));
    assert n in Names(history);
    var k :| 0 <= k < |history| && history[k].item == n;
  }

  /** No name left out is more frequent than one chosen. */
  lemma FrequentItemsTopThree(history: seq<HistoryItem>, n: string, m: string)
    requires n in Names(history) && n !in FrequentItems(history) && m in FrequentItems(history)
    ensures Count(history, n) <= Count(history, m)
  {
    var sorted := SortedNames(history);
    var r := FrequentItems(history);
    assert n in multiset(Names(history));
    assert n in multiset(sorted);
    var a :| 0 <= a < |sorted| && sorted[a] == n;
    var b :| 0 <= b < |r| && r[b] == m;
    assert sorted[b] == m;
    assert a >= |r|;
  }

  /** A permutation of a duplicate-free sequence is duplicate-free. */
  lemma DistinctPermutation(s: seq<string>, t: seq<string>, i: nat, j: nat)
    requires forall a, b :: 0 <= a < b < |s| ==> s[a] != s[b]
    requires multiset(s) == multiset(t) && i < j < |t|
    ensures t[i] != t[j]
  {
    CountAtMostOne(s, t[i]);
    assert t == t[..i] + [t[i]] + t[i + 1..j] + [t[j]] + t[j + 1..];
  }

  lemma {:induction false} CountAtMostOne(s: seq<string>, x: string)
    requires forall a, b :: 0 <= a < b < |s| ==> s[a] != s[b]
    ensures multiset(s)[x] <= 1
  {
    if s != [] {
      CountAtMostOne(s[1..], x);
      assert s == [s[0]] + s[1..];
      if s[0] == x {
        assert x !in s[1..];
      }
    }
  }

  function Take(s: seq<int>, from: nat, to: nat): (r: seq<int>)
    ensures |r| <= 5 || to - from > 5
  {
    var lo := if from < |s| then from else |s|;
    var hi := if to < |s| then to else |s|;
    if lo <= hi then s[lo..hi] else []
  }

  /** `freshnessTrajectory`: the first five scores against the next five, both
      summed over five; an older sum of 0 counts as equal to the recent one. With
      integer scores, "average more than 5 above" is "sum more than 25 above". */
  function TrajectoryOf(history: seq<HistoryItem>): (r: Trajectory)
    ensures var recent := Sum(Take(Freshnesses(history), 0, 5));
            var olderSum := Sum(Take(Freshnesses(history), 5, 10));
            var older := if olderSum == 0 then recent else olderSum;
            (r == Improving <==> recent > older + 25) && (r == Declining <==> recent < older - 25)
  {
    var recent := Sum(Take(Freshnesses(history), 0, 5));
    var olderSum := Sum(Take(Freshnesses(history), 5, 10));
    var older := if olderSum == 0 then recent else olderSum;
    if recent > older + 25 then Improving else if recent < older - 25 then Declining else Stable
  }

  /** With five scans or fewer there is nothing to compare against: stable. */
  lemma ShortHistoryIsStable(history: seq<HistoryItem>)
    requires |history| <= 5
    ensures TrajectoryOf(history) == Stable
  {
    assert Take(Freshnesses(history), 5, 10) == [];
  }

  function HighFreshnessCount(history: seq<HistoryItem>): (r: nat)
    ensures r <= |history|
  {
    if history == [] then 0
    else (if history[0].freshness >= 80 then 1 else 0) + HighFreshnessCount(history[1..])
  }

  /** High-freshness counting over two parts adds up. */
  lemma {:induction false} HighFreshnessConcat(a: seq<HistoryItem>, b: seq<HistoryItem>)
    ensures HighFreshnessCount(a + b) == HighFreshnessCount(a) + HighFreshnessCount(b)
  {
    if a == [] {
      assert a + b == b;
    } else {
      assert (a + b)[0] == a[0] && (a + b)[1..] == a[1..] + b;
      HighFreshnessConcat(a[1..], b);
    }
  }

  /** The high-freshness count of a history is that of all but its last scan,
      plus that scan. */
  lemma HighFreshnessLast(history: seq<HistoryItem>)
    requires history != []
    ensures HighFreshnessCount(history) == HighFreshnessCount(history[..|history| - 1])
                                           + (if history[|history| - 1].freshness >= 80 then 1 else 0)
  {
    var k := |history| - 1;
    assert history == history[..k] + [history[k]];
    HighFreshnessConcat(history[..k], [history[k]]);
    assert [history[k]][1..] == [];
  }

  /** The scans with freshness at least 80 are those among all but the last scan,
      plus that scan. */
  lemma HighScansLast(history: seq<HistoryItem>)
    requires history != []
    ensures var k := |history| - 1;
            |set i | 0 <= i < |history| && history[i].freshness >= 80|
            == |set i | 0 <= i < k && history[..k][i].freshness >= 80| + (if history[k].freshness >= 80 then 1 else 0)
  {
    var k := |history| - 1;
    var before := set i | 0 <= i < k && history[..k][i].freshness >= 80;
    var all := set i | 0 <= i < |history| && history[i].freshness >= 80;
    if history[k].freshness >= 80 {
      assert all == before + {k};
    } else {
      assert all == before;
    }
  }

  /** `filter(item => item.freshness >= 80).length`: the number of scans with
      freshness at least 80. */
  lemma {:induction false} HighFreshnessCountsScans(history: seq<HistoryItem>)
    ensures HighFreshnessCount(history) == |set i | 0 <= i < |history| && history[i].freshness >= 80|
  {
    if history != [] {
      var k := |history| - 1;
      HighFreshnessCountsScans(history[..k]);
      HighFreshnessLast(history);
      HighScansLast(history);
    }
  }

  /** `wasteReduction`: the rounded percentage of scans with freshness at least 80. */
  function WasteReduction(history: seq<HistoryItem>): (r: int)
    requires history != []
    ensures 0 <= r <= 100
    ensures 2 * |history| * r - |history| <= 200 * HighFreshnessCount(history) < 2 * |history| * r + |history|
  {
    RoundDivBetween(100 * HighFreshnessCount(history), |history|, 0, 100);
    RoundDiv(100 * HighFreshnessCount(history), |history|)
  }

  /** The insights effect: recomputed for a non-empty history, otherwise left as
      they were. */
  function InsightsAfter(history: seq<HistoryItem>, previous: Insights): (r: Insights)
    ensures history == [] ==> r == previous
    ensures history != [] ==> (r.avgFreshness == AverageFreshness(history)
      && r.frequentItems == FrequentItems(history) && r.trajectory == TrajectoryOf(history)
      && r.wasteReduction == WasteReduction(history) && 0 <= r.wasteReduction <= 100)
  {
    if history == [] then previous
    else Insights(AverageFreshness(history), FrequentItems(history), TrajectoryOf(history), WasteReduction(history))
  }
}
