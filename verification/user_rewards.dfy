/** `UserRewards` of `app/components/UserRewards.tsx`: statistics gathered from the
    stored sessions and the achievements they unlock. */
module UserRewards {
  import opened Wrappers
  import opened Text
  import opened Arith

  /** A local-storage entry: its key, the freshness scores of the session's items
      (`None` when it has none), and the session's date as `toDateString` gives it. */
  datatype StoredEntry = StoredEntry(key: string, scores: Option<seq<int>>, date: string)

  datatype UserStats = UserStats(
    totalScans: nat, wasteReduction: int, streakDays: nat, averageFreshness: int, perfectScans: nat)

  predicate Counted(e: StoredEntry) {
    StartsWith(e.key, "session-") && e.scores.Some?
  }

  /** The scores of all counted sessions, in storage order. */
  function Scores(entries: seq<StoredEntry>): seq<int> {
    if entries == [] then []
    else
      var k := |entries| - 1;
      Scores(entries[..k]) + (if Counted(entries[k]) then entries[k].scores.value else [])
  }

  /** The dates of the counted sessions, including those with an empty item list. */
  function Dates(entries: seq<StoredEntry>): set<string> {
    if entries == [] then {}
    else
      var k := |entries| - 1;
      Dates(entries[..k]) + (if Counted(entries[k]) then {entries[k].date} else {})
  }

  function PerfectCount(s: seq<int>): (r: nat)
    ensures r <= |s|
  {
    if s == [] then 0 else PerfectCount(s[..|s| - 1]) + (if s[|s| - 1] >= 95 then 1 else 0)
  }

  /** The perfect count is the number of scores of at least 95. */
  lemma {:induction false} PerfectCountCountsPerfect(s: seq<int>)
    ensures PerfectCount(s) == |set i | 0 <= i < |s| && s[i] >= 95|
  {
    if s != [] {
      var k := |s| - 1;
      PerfectCountCountsPerfect(s[..k]);
      var before := set i | 0 <= i < k && s[..k][i] >= 95;
      var all := set i | 0 <= i < |s| && s[i] >= 95;
      if s[k] >= 95 {
        assert all == before + {k};
      } else {
        assert all == before;
      }
    }
  }

  /** The statistics the loop gathers, stated on the whole list of scores. */
  function StatsOf(entries: seq<StoredEntry>): (r: UserStats)
    ensures r.totalScans == |Scores(entries)| && r.perfectScans == PerfectCount(Scores(entries))
    ensures r.perfectScans <= r.totalScans
    ensures r.totalScans == 0 ==> r.averageFreshness == 0 && r.wasteReduction == 0
    ensures 0 <= r.wasteReduction <= 100
    ensures r.totalScans > 0 ==>
              2 * r.totalScans * r.averageFreshness - r.totalScans <= 2 * Sum(Scores(entries))
                                                                  < 2 * r.totalScans * r.averageFreshness + r.totalScans
    ensures r.totalScans > 0 ==>
              2 * r.totalScans * r.wasteReduction - r.totalScans <= 200 * r.perfectScans
                                                                 < 2 * r.totalScans * r.wasteReduction + r.totalScans
    ensures r.streakDays == Min(|Dates(entries)|, 30) && r.streakDays <= 30
  {
    var s := Scores(entries);
    var n := |s|;
    var perfect := PerfectCount(s);
    assert n > 0 ==> 0 <= RoundDiv(100 * perfect, n) <= 100 by {
      if n > 0 {
        RoundDivBetween(100 * perfect, n, 0, 100);
      }
    }
    UserStats(n, if n > 0 then RoundDiv(100 * perfect, n) else 0, Min(|Dates(entries)|, 30),
              if n > 0 then RoundDiv(Sum(s), n) else 0, perfect)
  }

  /** The average is the half-up rounded mean score, in [0, 100] when every score is. */
  lemma AverageFreshnessInRange(entries: seq<StoredEntry>)
    requires forall i :: 0 <= i < |Scores(entries)| ==> 0 <= Scores(entries)[i] <= 100
    ensures 0 <= StatsOf(entries).averageFreshness <= 100
  {
    var s := Scores(entries);
    if |s| > 0 {
      SumBounds(s, 0, 100);
      RoundDivBetween(Sum(s), |s|, 0, 100);
    }
  }

  /** Storage read one entry further. */
  lemma EntriesStep(entries: seq<StoredEntry>, i: nat)
    requires i < |entries|
    ensures Counted(entries[i]) ==> Scores(entries[..i + 1]) == Scores(entries[..i]) + entries[i].scores.value
    ensures Counted(entries[i]) ==> Dates(entries[..i + 1]) == Dates(entries[..i]) + {entries[i].date}
    ensures !Counted(entries[i]) ==> Scores(entries[..i + 1]) == Scores(entries[..i])
    ensures !Counted(entries[i]) ==> Dates(entries[..i + 1]) == Dates(entries[..i])
  {
    assert entries[..i + 1][..i] == entries[..i];
    assert Scores(entries[..i]) + [] == Scores(entries[..i]);
  }

  /** The running sum and perfect count over scores read one score further. */
  lemma ScoresStep(before: seq<int>, items: seq<int>, j: nat)
    requires j < |items|
    ensures Sum(before + items[..j + 1]) == Sum(before + items[..j]) + items[j]
    ensures PerfectCount(before + items[..j + 1]) == PerfectCount(before + items[..j]) + (if items[j] >= 95 then 1 else 0)
  {
    assert (before + items[..j + 1])[..|before| + j] == before + items[..j];
  }

  /** The inner loop of `calculateStats` over one session's items. */
  method CountItems(totalFreshness: int, perfectScans: nat, before: seq<int>, items: seq<int>)
    returns (totalFreshness': int, perfectScans': nat)
    requires totalFreshness == Sum(before) && perfectScans == PerfectCount(before)
    ensures totalFreshness' == Sum(before + items) && perfectScans' == PerfectCount(before + items)
  {
    totalFreshness', perfectScans' := totalFreshness, perfectScans;
    assert before + items[..0] == before;
    for j := 0 to |items|
      invariant totalFreshness' == Sum(before + items[..j])
      invariant perfectScans' == PerfectCount(before + items[..j])
    {
      ScoresStep(before, items, j);
      totalFreshness' := totalFreshness' + items[j];
      if items[j] >= 95 {
        perfectScans' := perfectScans' + 1;
      }
    }
    assert items[..|items|] == items;
  }

  /** `calculateStats`: one pass over storage with running counters and a set of
      dates. */
  method CalculateStats(entries: seq<StoredEntry>) returns (stats: UserStats)
    ensures stats == StatsOf(entries)
  {
    var totalScans := 0;
    var totalFreshness := 0;
    var perfectScans := 0;
    var scanDates: set<string> := {};
    var i := 0;
    while i < |entries|
      invariant i <= |entries|
      invariant totalScans == |Scores(entries[..i])| && totalFreshness == Sum(Scores(entries[..i]))
      invariant perfectScans == PerfectCount(Scores(entries[..i])) && scanDates == Dates(entries[..i])
    {
      EntriesStep(entries, i);
      if Counted(entries[i]) {
        var items := entries[i].scores.value;
        totalScans := totalScans + |items|;
        scanDates := scanDates + {entries[i].date};
        totalFreshness, perfectScans := CountItems(totalFreshness, perfectScans, Scores(entries[..i]), items);
      }
      i := i + 1;
    }
    assert entries[..i] == entries;
    var n := totalScans;
    stats := UserStats(n, if n > 0 then RoundDiv(100 * perfectScans, n) else 0, Min(|scanDates|, 30),
                       if n > 0 then RoundDiv(totalFreshness, n) else 0, perfectScans);
  }

  datatype Category = Scanner | WasteReducer | Expert | Streak

  datatype Achievement = Achievement(
    id: string, title: string, description: string, unlocked: bool, progress: int, maxProgress: int,
    category: Category)

  const InitialAchievements: seq<Achievement> := [
    Achievement("first-scan", "First Scanner", "Complete your first scan", false, 0, 1, Scanner),
    Achievement("waste-warrior", "Waste Warrior", "Achieve 80% waste reduction", false, 0, 80, WasteReducer),
    Achievement("perfect-week", "Perfect Week", "Scan for 7 consecutive days", false, 0, 7, Streak),
    Achievement("fresh-expert", "Freshness Expert", "Maintain 90% average freshness score", false, 0, 90, Expert),
    Achievement("century-scanner", "Century Scanner", "Complete 100 scans", false, 0, 100, Scanner)
  ]

  /** The statistic an achievement id tracks and the goal the update uses for it. */
  function Goal(id: string, stats: UserStats): Option<(int, int)> {
    if id == "first-scan" then Some((stats.totalScans, 1))
    else if id == "waste-warrior" then Some((stats.wasteReduction, 80))
    else if id == "perfect-week" then Some((stats.streakDays, 7))
    else if id == "fresh-expert" then Some((stats.averageFreshness, 90))
    else if id == "century-scanner" then Some((stats.totalScans, 100))
    else None
  }

  /** One achievement brought up to date: progress is the statistic capped at the
      goal, and it is unlocked once the statistic reaches the goal. */
  function Updated(a: Achievement, stats: UserStats): (r: Achievement)
    ensures r == a.(progress := r.progress, unlocked := r.unlocked)
    ensures Goal(a.id, stats).None? ==> r.progress == 0 && !r.unlocked
    ensures Goal(a.id, stats).Some? ==>
              var (stat, goal) := Goal(a.id, stats).value;
              r.progress == Min(stat, goal) && (r.unlocked <==> stat >= goal)
              && r.progress <= goal && (r.unlocked ==> r.progress == goal)
  {
    match Goal(a.id, stats)
    case None => a.(progress := 0, unlocked := false)
    case Some((stat, goal)) => a.(progress := Min(stat, goal), unlocked := stat >= goal)
  }

  function UpdateAchievements(prev: seq<Achievement>, stats: UserStats): (r: seq<Achievement>)
    ensures |r| == |prev| && forall i :: 0 <= i < |r| ==> r[i] == Updated(prev[i], stats)
  {
    seq(|prev|, i requires 0 <= i < |prev| => Updated(prev[i], stats))
  }

  /** For the component's own achievements the goal used is the declared
      `maxProgress`, so progress never exceeds it and an unlocked achievement is
      complete. */
  lemma UpdatedWithinMaxProgress(stats: UserStats, i: nat)
    requires i < |InitialAchievements|
    ensures var a := UpdateAchievements(InitialAchievements, stats)[i];
            a.progress <= a.maxProgress && (a.unlocked ==> a.progress == a.maxProgress)
            && (a.unlocked <==> Goal(a.id, stats).value.0 >= a.maxProgress)
  {
  }

  /** `nextAchievement`: the first locked achievement with some progress. */
  function NextAchievement(achievements: seq<Achievement>): (r: Option<nat>)
    ensures r.Some? ==> r.value < |achievements| && !achievements[r.value].unlocked
                        && achievements[r.value].progress > 0
    ensures r.Some? ==> forall j :: 0 <= j < r.value ==> achievements[j].unlocked || achievements[j].progress <= 0
    ensures r.None? ==> forall j :: 0 <= j < |achievements| ==> achievements[j].unlocked || achievements[j].progress <= 0
  {
    if achievements == [] then None
    else if !achievements[0].unlocked && achievements[0].progress > 0 then Some(0)
    else match NextAchievement(achievements[1..])
      case None => None
      case Some(k) => Some(k + 1)
  }
}
