/** `ScanResultSummary` of `app/components/ScanResultSummary.tsx`: the per-category
    counts, the colour tier, the recommendation text, and the session saved to local
    storage, which the history and rewards views read back. */
module ScanResultSummary {
  import opened Wrappers
  import opened Text
  import I18n
  import UserHistory
  import Sorting

  /** A detected item; `recommendation` is the string the analysis produced. */
  datatype DetectedItem = DetectedItem(id: string, item: string, freshness: int, recommendation: string)

  /** `buy`, `check` and `avoid` of `categoryStats`. */
  function CountOf(items: seq<DetectedItem>, recommendation: string): (r: nat)
    ensures r <= |items|
  {
    if items == [] then 0
    else CountOf(items[..|items| - 1], recommendation) + (if items[|items| - 1].recommendation == recommendation then 1 else 0)
  }

  /** `filter(...).length`: the count is the number of items carrying the
      recommendation. */
  lemma {:induction false} CountOfCountsMatching(items: seq<DetectedItem>, recommendation: string)
    ensures CountOf(items, recommendation) == |set i | 0 <= i < |items| && items[i].recommendation == recommendation|
  {
    if items != [] {
      var k := |items| - 1;
      CountOfCountsMatching(items[..k], recommendation);
      var before := set i | 0 <= i < k && items[..k][i].recommendation == recommendation;
      var all := set i | 0 <= i < |items| && items[i].recommendation == recommendation;
      if items[k].recommendation == recommendation {
        assert all == before + {k};
      } else {
        assert all == before;
      }
    }
  }

  /** The three counts never exceed the number of items, and add up to it exactly
      when every recommendation is one of the three. */
  lemma {:induction false} CategoryCountsBounded(items: seq<DetectedItem>)
    ensures CountOf(items, "buy") + CountOf(items, "check") + CountOf(items, "avoid") <= |items|
    ensures (forall i :: 0 <= i < |items| ==> items[i].recommendation in {"buy", "check", "avoid"}) ==>
              CountOf(items, "buy") + CountOf(items, "check") + CountOf(items, "avoid") == |items|
  {
    if items != [] {
      CategoryCountsBounded(items[..|items| - 1]);
    }
  }

  datatype Tier = Green | Yellow | Red

  /** `getFreshnessColor`. */
  function FreshnessColor(freshness: int): (r: Tier)
    ensures r == Green <==> freshness >= 80
    ensures r == Yellow <==> 60 <= freshness < 80
    ensures r == Red <==> freshness < 60
  {
    if freshness >= 80 then Green else if freshness >= 60 then Yellow else Red
  }

  /** `getRecommendationText`: the translated label of a known recommendation, the
      string itself otherwise. */
  function RecommendationText(language: I18n.Lang, recommendation: string): (r: string)
    ensures recommendation !in {"buy", "check", "avoid"} ==> r == recommendation
    ensures recommendation == "buy" ==> r == I18n.Table(language)["buyRecommended"]
    ensures recommendation == "check" ==> r == I18n.Table(language)["checkCarefully"]
    ensures recommendation == "avoid" ==> r == I18n.Table(language)["avoidItem"]
  {
    var t := I18n.Table(language);
    assert "buyRecommended" in I18n.Fields && "checkCarefully" in I18n.Fields && "avoidItem" in I18n.Fields;
    if recommendation == "buy" then t["buyRecommended"]
    else if recommendation == "check" then t["checkCarefully"]
    else if recommendation == "avoid" then t["avoidItem"]
    else recommendation
  }

  /** Where a session's items are kept, by session type. */
  function Location(sessionType: string): (r: string)
    ensures sessionType == "shopping" ==> r == "store"
    ensures sessionType == "fridge-check" ==> r == "fridge"
    ensures sessionType != "shopping" && sessionType != "fridge-check" ==> r == "pantry"
  {
    if sessionType == "shopping" then "store" else if sessionType == "fridge-check" then "fridge" else "pantry"
  }

  /** The items of the saved session: one per detected item, in order, stamped with
      the scan time and the location. */
  function SessionItems(items: seq<DetectedItem>, sessionType: string, timestamp: int)
    : (r: seq<UserHistory.HistoryItem>)
    ensures |r| == |items|
    ensures forall i :: 0 <= i < |r| ==> (r[i].id == items[i].id && r[i].item == items[i].item
              && r[i].freshness == items[i].freshness && r[i].timestamp == timestamp
              && r[i].location == Location(sessionType))
  {
    seq(|items|, i requires 0 <= i < |items| =>
      UserHistory.HistoryItem(items[i].id, items[i].item, items[i].freshness, timestamp, Location(sessionType)))
  }

  /** The storage key of a session saved at time `now`, as its decimal digits. */
  function SessionKey(nowDigits: string): (r: string)
    ensures StartsWith(r, "session-")
  {
    "session-" + nowDigits
  }

  /** `saveToHistory` as the entry the history view reads back. */
  function SavedEntry(items: seq<DetectedItem>, sessionType: string, timestamp: int, nowDigits: string)
    : UserHistory.StoredEntry
  {
    UserHistory.StoredEntry(SessionKey(nowDigits), Some(SessionItems(items, sessionType, timestamp)))
  }

  lemma {:induction false} WithKeyAll(s: seq<UserHistory.HistoryItem>, t: int)
    requires forall i :: 0 <= i < |s| ==> s[i].timestamp == t
    ensures Sorting.WithKey(s, UserHistory.Timestamp, t) == s
  {
    if s != [] {
      WithKeyAll(s[1..], t);
      assert s == [s[0]] + s[1..];
    }
  }

  /** A saved scan, alone in storage, is loaded by the history view as exactly its
      items in scan order: all share one timestamp and the sort is stable. */
  lemma SavedScanIsLoadedInOrder(items: seq<DetectedItem>, sessionType: string, timestamp: int, nowDigits: string)
    ensures var entries := [SavedEntry(items, sessionType, timestamp, nowDigits)];
            Sorting.SortDesc(UserHistory.Collected(entries), UserHistory.Timestamp)
              == SessionItems(items, sessionType, timestamp)
  {
    var entries := [SavedEntry(items, sessionType, timestamp, nowDigits)];
    var s := SessionItems(items, sessionType, timestamp);
    assert entries[..0] == [];
    assert UserHistory.Collected(entries) == s;
    var sorted := Sorting.SortDesc(s, UserHistory.Timestamp);
    Sorting.SortDescSortedStable(s, UserHistory.Timestamp);
    forall i | 0 <= i < |sorted| ensures sorted[i].timestamp == timestamp {
      assert sorted[i] in multiset(s);
    }
    WithKeyAll(sorted, timestamp);
    WithKeyAll(s, timestamp);
  }
}
