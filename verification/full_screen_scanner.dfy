/** `FullScreenScanner` of `app/components/FullScreenScanner.tsx`: the frame
    difference test that decides whether the camera is steady, the auto-capture
    state machine and its countdown, the mapping of a batch result to scanned
    items, their average freshness, and the status shown. Timers are modelled as
    the steps they trigger. */
module FullScreenScanner {
  import opened Wrappers
  import opened Arith
  import Decimal
  import I18n
  import opened AnalysisTypes

  function Abs(x: int): nat { if x < 0 then -x else x }

  /** The summed absolute R, G and B differences of pixel `k` (RGBA, stride 4). */
  function PixelDiff(cur: seq<int>, last: seq<int>, k: nat): nat
    requires 4 * k + 2 < |cur| && 4 * k + 2 < |last|
  {
    Abs(cur[4 * k] - last[4 * k]) + Abs(cur[4 * k + 1] - last[4 * k + 1]) + Abs(cur[4 * k + 2] - last[4 * k + 2])
  }

  /** The channel differences of the first `p` pixels, summed. */
  function DiffSum(cur: seq<int>, last: seq<int>, p: nat): nat
    requires 4 * p <= |cur| && 4 * p <= |last|
  {
    if p == 0 then 0 else DiffSum(cur, last, p - 1) + PixelDiff(cur, last, p - 1)
  }

  /** The steadiness test of `detectMotion`: the mean over pixels of the average
      R, G, B difference is below 10. With `S` the summed channel differences and
      `P` the pixel count, that mean is `S / 3 / P`, so the test is `S < 30 * P`;
      with no pixels the mean is NaN and the frame is not steady. */
  predicate SteadyFrame(cur: seq<int>, last: seq<int>)
    requires |cur| % 4 == 0 && |last| >= |cur|
  {
    |cur| > 0 && DiffSum(cur, last, |cur| / 4) < 30 * (|cur| / 4)
  }

  /** The pixel loop of `detectMotion`. The running sum is kept as three times the
      source's `diff` so that it stays an integer. A previous frame shorter than
      the current one is read past its end, which makes the mean NaN: not steady. */
  method DetectMotion(cur: seq<int>, last: seq<int>) returns (steady: bool)
    requires |cur| % 4 == 0 && |last| % 4 == 0
    ensures steady <==> |last| >= |cur| && SteadyFrame(cur, last)
  {
    if |last| < |cur| {
      return false;
    }
    var pixelCount := |cur| / 4;
    var diff := 0;
    var i, p := 0, 0;
    while i < |cur|
      invariant i == 4 * p && p <= pixelCount
      invariant diff == DiffSum(cur, last, p)
    {
      diff := diff + PixelDiff(cur, last, p);
      i, p := i + 4, p + 1;
    }
    steady := pixelCount > 0 && diff < 30 * pixelCount;
  }

  /** If every pixel changes by less than 10 on average over its channels, the
      frame is steady. */
  lemma {:induction false} DiffSumBelow(cur: seq<int>, last: seq<int>, p: nat)
    requires 4 * p <= |cur| && 4 * p <= |last|
    requires forall k :: 0 <= k < p ==> PixelDiff(cur, last, k) < 30
    ensures DiffSum(cur, last, p) <= 30 * p - (if p > 0 then 1 else 0)
  {
    if p > 0 {
      DiffSumBelow(cur, last, p - 1);
    }
  }

  lemma QuietPixelsMakeSteadyFrame(cur: seq<int>, last: seq<int>)
    requires |cur| % 4 == 0 && |last| >= |cur| && |cur| > 0
    requires forall k :: 0 <= k < |cur| / 4 ==> PixelDiff(cur, last, k) < 30
    ensures SteadyFrame(cur, last)
  {
    DiffSumBelow(cur, last, |cur| / 4);
  }

  /** One tick of the countdown interval: the new value, and whether it triggers
      the capture. */
  function Tick(countdown: int): (r: (int, bool))
    ensures r.1 <==> countdown <= 1
    ensures r.1 ==> r.0 == 0
    ensures !r.1 ==> r.0 == countdown - 1
  {
    if countdown <= 1 then (0, true) else (countdown - 1, false)
  }

  /** `k` ticks from `countdown` while none triggers. */
  function AfterTicks(countdown: int, k: nat): (int, bool)
    decreases k
  {
    if k == 0 then (countdown, false)
    else
      var prev := AfterTicks(countdown, k - 1);
      if prev.1 then prev else Tick(prev.0)
  }

  /** Counting down from `n >= 1`, ticks before the `n`-th leave `n - k` and do
      not capture; the `n`-th tick captures. */
  lemma {:induction false} CountdownCapturesOnNthTick(n: int, k: nat)
    requires n >= 1 && k <= n
    ensures k < n ==> AfterTicks(n, k) == (n - k, false)
    ensures k == n ==> AfterTicks(n, k) == (0, true)
    decreases k
  {
    if k > 0 {
      CountdownCapturesOnNthTick(n, k - 1);
    }
  }

  datatype Status = Analyzing | AutoCapturing | Steady | Unsteady

  /** Status priority shared by `getStabilityColor` and `getStatusText`. */
  function StatusOf(isAnalyzing: bool, autoCapturing: bool, isStable: bool): (r: Status)
    ensures isAnalyzing ==> r == Analyzing
    ensures !isAnalyzing && autoCapturing ==> r == AutoCapturing
    ensures !isAnalyzing && !autoCapturing && isStable ==> r == Steady
    ensures !isAnalyzing && !autoCapturing && !isStable ==> r == Unsteady
  {
    if isAnalyzing then Analyzing else if autoCapturing then AutoCapturing else if isStable then Steady else Unsteady
  }

  function StatusColor(s: Status): string {
    match s
    case Analyzing => "bg-blue-500"
    case AutoCapturing => "bg-green-500"
    case Steady => "bg-yellow-500"
    case Unsteady => "bg-red-500"
  }

  /** The status line in `language`; the countdown is substituted into the
      auto-capture text. */
  function StatusText(s: Status, language: I18n.Lang, countdown: nat): (r: string)
    ensures s == Analyzing ==> r == I18n.Table(language)["analyzing"]
    ensures s == AutoCapturing ==>
              r == I18n.Format(I18n.Table(language)["autoCapturing"], map["seconds" := Decimal.NatToString(countdown)])
    ensures s == Steady ==> r == I18n.Table(language)["detectingItems"]
    ensures s == Unsteady ==> r == I18n.Table(language)["stabilizeCamera"]
  {
    var t := I18n.Table(language);
    assert "analyzing" in I18n.Fields && "autoCapturing" in I18n.Fields
      && "detectingItems" in I18n.Fields && "stabilizeCamera" in I18n.Fields;
    match s
    case Analyzing => t["analyzing"]
    case AutoCapturing => I18n.Format(t["autoCapturing"], map["seconds" := Decimal.NatToString(countdown)])
    case Steady => t["detectingItems"]
    case Unsteady => t["stabilizeCamera"]
  }

  /** The scanner's state. React state is read as current; the timers are
      counted. Every steady frame seen while not yet stable sets one more
      stability timeout, and every timeout that fires starts one more countdown
      interval. The refs hold only the latest of each, so a clear stops only that
      one. All stability timeouts have the same delay and fire in the order they
      were set, so the latest is pending exactly when any is. */
  class Scanner {
    var isScanning: bool
    var isAnalyzing: bool
    var isStable: bool
    var autoCapturing: bool
    var countdown: int
    /** Stability timeouts set and neither fired nor cleared. */
    var pendingTimeouts: nat
    /** Countdown intervals running. */
    var intervals: nat
    /** The interval held by `countdownTimerRef` is running. */
    var refInterval: bool
    /** Captures started, each one sending an analysis request. */
    var captures: nat

    /** The ref's interval is one of the running ones. */
    predicate Valid()
      reads this
    {
      refInterval ==> intervals >= 1
    }

    /** At most one countdown runs, and it is the one the ref holds. */
    predicate Single()
      reads this
    {
      intervals == (if refInterval then 1 else 0)
    }

    constructor ()
      ensures Valid() && Single()
      ensures !isScanning && !isAnalyzing && !isStable && !autoCapturing && countdown == 0
      ensures pendingTimeouts == 0 && intervals == 0 && !refInterval && captures == 0
    {
      isScanning, isAnalyzing, isStable, autoCapturing, countdown := false, false, false, false, 0;
      pendingTimeouts, intervals, refInterval, captures := 0, 0, false, 0;
    }

    function Status(): (r: Status)
      reads this
      ensures r == StatusOf(isAnalyzing, autoCapturing, isStable)
    {
      StatusOf(isAnalyzing, autoCapturing, isStable)
    }

    /** The camera stream started. */
    method CameraStarted()
      modifies this
      ensures isScanning
      ensures isAnalyzing == old(isAnalyzing) && isStable == old(isStable) && autoCapturing == old(autoCapturing)
      ensures countdown == old(countdown) && pendingTimeouts == old(pendingTimeouts)
      ensures intervals == old(intervals) && refInterval == old(refInterval) && captures == old(captures)
    {
      isScanning := true;
    }

    /** `clearInterval(countdownTimerRef.current)`: stops the ref's interval if it
        still runs; the others go on. */
    method ClearRefInterval()
      requires Valid()
      modifies this
      ensures Valid() && !refInterval
      ensures intervals == old(intervals) - (if old(refInterval) then 1 else 0)
      ensures old(Single()) ==> intervals == 0
      ensures isScanning == old(isScanning) && isAnalyzing == old(isAnalyzing) && isStable == old(isStable)
      ensures autoCapturing == old(autoCapturing) && countdown == old(countdown)
      ensures pendingTimeouts == old(pendingTimeouts) && captures == old(captures)
    {
      if refInterval {
        intervals, refInterval := intervals - 1, false;
      }
    }

    /** What `detectMotion` does with the steadiness of a new frame. The motion
        loop runs only while no analysis does. Each steady frame seen before the
        view is stable sets one more stability timeout; an unsteady frame after
        stability stops the auto-capture and clears the latest timeout and the
        ref's interval. Nothing happens when not scanning. */
    method MotionStep(currentlySteady: bool)
      requires Valid() && !isAnalyzing
      modifies this
      ensures Valid()
      ensures isScanning == old(isScanning) && isAnalyzing == old(isAnalyzing) && captures == old(captures)
      ensures old(isScanning) && currentlySteady && !old(isStable) ==>
                pendingTimeouts == old(pendingTimeouts) + 1 && isStable == old(isStable)
                && autoCapturing == old(autoCapturing) && countdown == old(countdown)
                && intervals == old(intervals) && refInterval == old(refInterval)
      ensures old(isScanning) && !currentlySteady && old(isStable) ==>
                !isStable && !autoCapturing && countdown == 0
                && pendingTimeouts == (if old(pendingTimeouts) > 0 then old(pendingTimeouts) - 1 else 0)
                && intervals == old(intervals) - (if old(refInterval) then 1 else 0) && !refInterval
      ensures !old(isScanning) || (currentlySteady == old(isStable)) ==>
                isStable == old(isStable) && autoCapturing == old(autoCapturing) && countdown == old(countdown)
                && pendingTimeouts == old(pendingTimeouts) && intervals == old(intervals)
                && refInterval == old(refInterval)
    {
      if !isScanning {
        return;
      }
      if currentlySteady && !isStable {
        pendingTimeouts := pendingTimeouts + 1;
      } else if !currentlySteady && isStable {
        isStable, autoCapturing, countdown := false, false, 0;
        if pendingTimeouts > 0 {
          pendingTimeouts := pendingTimeouts - 1;
        }
        ClearRefInterval();
      }
    }

    /** The oldest pending stability timeout fires: the view is stable and one
        more countdown interval starts, at 3. */
    method StabilityTimerFires()
      requires Valid() && pendingTimeouts > 0
      modifies this
      ensures Valid()
      ensures isStable && autoCapturing && countdown == 3
      ensures pendingTimeouts == old(pendingTimeouts) - 1
      ensures intervals == old(intervals) + 1 && refInterval
      ensures isScanning == old(isScanning) && isAnalyzing == old(isAnalyzing) && captures == old(captures)
      ensures !isAnalyzing ==> Status() == AutoCapturing
    {
      isStable := true;
      pendingTimeouts := pendingTimeouts - 1;
      StartAutoCapture();
    }

    /** `startAutoCapture`: the countdown restarts at 3 and a new interval is set;
        the ref now holds it, and an interval the ref held before keeps running. */
    method StartAutoCapture()
      requires Valid()
      modifies this
      ensures Valid()
      ensures autoCapturing && countdown == 3
      ensures intervals == old(intervals) + 1 && refInterval
      ensures old(intervals) > 0 ==> !Single()
      ensures isScanning == old(isScanning) && isAnalyzing == old(isAnalyzing) && isStable == old(isStable)
      ensures pendingTimeouts == old(pendingTimeouts) && captures == old(captures)
    {
      autoCapturing := true;
      countdown := 3;
      intervals, refInterval := intervals + 1, true;
    }

    /** `startAutoCapture` as intended: the interval the ref held is cleared before
        the new one is set, so exactly one countdown runs afterwards. */
    method StartAutoCaptureIntended()
      requires Valid()
      modifies this
      ensures Valid()
      ensures autoCapturing && countdown == 3 && refInterval
      ensures intervals == old(intervals) - (if old(refInterval) then 1 else 0) + 1
      ensures old(Single()) ==> Single() && intervals == 1
      ensures isScanning == old(isScanning) && isAnalyzing == old(isAnalyzing) && isStable == old(isStable)
      ensures pendingTimeouts == old(pendingTimeouts) && captures == old(captures)
    {
      ClearRefInterval();
      StartAutoCapture();
    }

    /** The stability timeout as intended: whichever timeout fires, exactly one
        countdown runs afterwards, so a capture stops every countdown. */
    method StabilityTimerFiresIntended()
      requires Valid() && Single() && pendingTimeouts > 0
      modifies this
      ensures Valid() && Single() && intervals == 1
      ensures isStable && autoCapturing && countdown == 3
      ensures pendingTimeouts == old(pendingTimeouts) - 1
      ensures isScanning == old(isScanning) && isAnalyzing == old(isAnalyzing) && captures == old(captures)
    {
      isStable := true;
      pendingTimeouts := pendingTimeouts - 1;
      StartAutoCaptureIntended();
    }

    /** `captureAndAnalyze`, called from a closure that saw `seenAnalyzing` as the
        value of `isAnalyzing`: the button's closure sees the current value, while
        an interval's closure keeps the value of the render that set it. When it
        saw an analysis running nothing happens; otherwise a capture starts,
        auto-capture stops and the ref's interval is cleared. */
    method CaptureAndAnalyze(seenAnalyzing: bool)
      requires Valid()
      modifies this
      ensures Valid()
      ensures seenAnalyzing ==> (isAnalyzing == old(isAnalyzing) && autoCapturing == old(autoCapturing)
                && countdown == old(countdown) && intervals == old(intervals)
                && refInterval == old(refInterval) && captures == old(captures))
      ensures !seenAnalyzing ==> (isAnalyzing && !autoCapturing && countdown == 0 && captures == old(captures) + 1
                && intervals == old(intervals) - (if old(refInterval) then 1 else 0) && !refInterval)
      ensures !seenAnalyzing && old(Single()) ==> intervals == 0
      ensures !seenAnalyzing ==> Status() == Analyzing
      ensures isScanning == old(isScanning) && isStable == old(isStable) && pendingTimeouts == old(pendingTimeouts)
    {
      if seenAnalyzing {
        return;
      }
      isAnalyzing, autoCapturing, countdown := true, false, 0;
      captures := captures + 1;
      ClearRefInterval();
    }

    /** The capture button, disabled while an analysis runs: its closure sees the
        current `isAnalyzing`. */
    method CaptureButton()
      requires Valid() && !isAnalyzing
      modifies this
      ensures Valid()
      ensures isAnalyzing && !autoCapturing && countdown == 0 && captures == old(captures) + 1
      ensures intervals == old(intervals) - (if old(refInterval) then 1 else 0) && !refInterval
      ensures isScanning == old(isScanning) && isStable == old(isStable) && pendingTimeouts == old(pendingTimeouts)
    {
      CaptureAndAnalyze(isAnalyzing);
    }

    /** One tick of one of the running countdown intervals, whose closure saw
        `seenAnalyzing`; every interval counts down the same shared countdown, and
        the tick that sees 1 or less captures. */
    method CountdownTick(seenAnalyzing: bool) returns (captured: bool)
      requires Valid() && intervals > 0
      modifies this
      ensures Valid()
      ensures captured <==> old(countdown) <= 1
      ensures !captured ==> (countdown == old(countdown) - 1 && isAnalyzing == old(isAnalyzing)
                && autoCapturing == old(autoCapturing) && intervals == old(intervals)
                && refInterval == old(refInterval) && captures == old(captures))
      ensures captured ==> countdown == 0
      ensures captured && !seenAnalyzing ==> (isAnalyzing && !autoCapturing && captures == old(captures) + 1
                && intervals == old(intervals) - (if old(refInterval) then 1 else 0) && !refInterval)
      ensures captured && seenAnalyzing ==> (isAnalyzing == old(isAnalyzing) && captures == old(captures)
                && intervals == old(intervals) && refInterval == old(refInterval))
      ensures isScanning == old(isScanning) && isStable == old(isStable) && pendingTimeouts == old(pendingTimeouts)
    {
      var next := Tick(countdown);
      captured := next.1;
      if captured {
        CaptureAndAnalyze(seenAnalyzing);
      }
      countdown := next.0;
    }

    /** A failed analysis lets the user try again. */
    method AnalysisFailed()
      modifies this
      ensures !isAnalyzing
      ensures isScanning == old(isScanning) && isStable == old(isStable) && autoCapturing == old(autoCapturing)
      ensures countdown == old(countdown) && pendingTimeouts == old(pendingTimeouts)
      ensures intervals == old(intervals) && refInterval == old(refInterval) && captures == old(captures)
    {
      isAnalyzing := false;
    }
  }

  /** Two steady frames before the first stability timeout fires set two
      timeouts; both fire and start two intervals. The auto-capture clears only
      the latest, and the other one, whose closure saw no analysis, captures
      again a second later while the first analysis still runs. */
  method OrphanIntervalAsWritten() returns (s: Scanner)
    ensures s.isAnalyzing && s.captures == 2 && s.intervals == 1 && !s.refInterval
  {
    s := new Scanner();
    s.CameraStarted();
    s.MotionStep(true);
    s.MotionStep(true);
    s.StabilityTimerFires();
    s.StabilityTimerFires();
    var c := s.CountdownTick(false);
    c := s.CountdownTick(false);
    c := s.CountdownTick(false);
    assert s.captures == 1 && s.intervals == 1;
    c := s.CountdownTick(false);
  }

  /** The same frames with the intended auto-capture: one countdown runs, and the
      capture stops it, so no second capture can follow. */
  method SingleIntervalIntended() returns (s: Scanner)
    ensures s.isAnalyzing && s.captures == 1 && s.intervals == 0
  {
    s := new Scanner();
    s.CameraStarted();
    s.MotionStep(true);
    s.MotionStep(true);
    s.StabilityTimerFiresIntended();
    s.StabilityTimerFiresIntended();
    var c := s.CountdownTick(false);
    c := s.CountdownTick(false);
    c := s.CountdownTick(false);
  }

  /** A fruit of the batch result as the scanner receives it. */
  datatype BatchFruit = BatchFruit(item: string, freshness: int, recommendation: string, details: string,
                                   confidence: int, position: Option<Position>)

  datatype ScannedItem = ScannedItem(id: string, item: string, freshness: int, recommendation: string,
                                     details: string, confidence: int, position: Position)

  /** The position of the `index`-th item without one: three columns 30 apart,
      rows 25 apart. */
  function DefaultPosition(index: nat): (p: Position)
    ensures p == Position(20 + (index % 3) * 30, 20 + (index / 3) * 25, 15, 20)
    ensures 20 <= p.x <= 80
  {
    Position(20 + (index % 3) * 30, 20 + (index / 3) * 25, 15, 20)
  }

  /** The id of the `index`-th item of a scan at time `now`. */
  function ItemId(now: nat, index: nat): string {
    Decimal.NatToString(now) + "-" + Decimal.NatToString(index)
  }

  /** Items of one scan have distinct ids because the index is part of the id. */
  lemma ItemIdsDistinct(now: nat, i: nat, j: nat)
    requires i != j
    ensures ItemId(now, i) != ItemId(now, j)
  {
    if ItemId(now, i) == ItemId(now, j) {
      Decimal.AffixInjective(Decimal.NatToString(now) + "-", Decimal.NatToString(i), Decimal.NatToString(j), "");
      Decimal.NatToStringInjective(i, j);
    }
  }

  function ScannedItems(fruits: seq<BatchFruit>, now: nat): (r: seq<ScannedItem>)
    ensures |r| == |fruits|
    ensures forall i :: 0 <= i < |r| ==> (r[i].id == ItemId(now, i) && r[i].item == fruits[i].item
              && r[i].freshness == fruits[i].freshness
              && r[i].recommendation == fruits[i].recommendation && r[i].details == fruits[i].details
              && r[i].confidence == fruits[i].confidence
              && r[i].position == fruits[i].position.GetOr(DefaultPosition(i)))
  {
    seq(|fruits|, i requires 0 <= i < |fruits| =>
      var f := fruits[i];
      ScannedItem(ItemId(now, i), f.item, f.freshness, f.recommendation, f.details, f.confidence,
                  f.position.GetOr(DefaultPosition(i))))
  }

  function Freshnesses(items: seq<ScannedItem>): (r: seq<int>)
    ensures |r| == |items| && forall i :: 0 <= i < |r| ==> r[i] == items[i].freshness
  {
    seq(|items|, i requires 0 <= i < |items| => items[i].freshness)
  }

  /** `averageFreshness` as written: `Math.round(sum / items.length)`, which is NaN
      (`None`) when the batch found nothing. */
  function AverageAsWritten(items: seq<ScannedItem>): (r: Option<int>)
    ensures items == [] <==> r.None?
    ensures r.Some? ==> 2 * |items| * r.value - |items| <= 2 * Sum(Freshnesses(items)) < 2 * |items| * r.value + |items|
  {
    if items == [] then None else Some(RoundDiv(Sum(Freshnesses(items)), |items|))
  }

  /** An empty scan yields a NaN average. */
  lemma EmptyScanAverageIsNaN()
    ensures AverageAsWritten([]).None?
  {
  }

  /** The average with the empty case guarded as the batch analyzer does: 0 for no
      items, and always a score in [0, 100] when the items' scores are. */
  function AverageFreshness(items: seq<ScannedItem>): (r: int)
    ensures items == [] ==> r == 0
    ensures items != [] ==> Some(r) == AverageAsWritten(items)
    ensures (forall i :: 0 <= i < |items| ==> 0 <= items[i].freshness <= 100) ==> 0 <= r <= 100
  {
    if items == [] then 0
    else
      assert (forall i :: 0 <= i < |items| ==> 0 <= items[i].freshness <= 100) ==>
               0 <= RoundDiv(Sum(Freshnesses(items)), |items|) <= 100 by {
        if forall i :: 0 <= i < |items| ==> 0 <= items[i].freshness <= 100 {
          SumBounds(Freshnesses(items), 0, 100);
          RoundDivBetween(Sum(Freshnesses(items)), |items|, 0, 100);
        }
      }
      RoundDiv(Sum(Freshnesses(items)), |items|)
  }
}
