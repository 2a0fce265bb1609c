/**
  The dashboard calorie tracker (components/dashboard/CalorieTracker.tsx): the
  calories left for the day, the percentage of the goal eaten, the three-way
  status badge, the fill of the progress ring, the remaining/over tile and the
  seven-day series.
*/
module CalorieTracker {

  /** Calories left: the goal, less what was eaten, plus what was burned. */
  function Remaining(dailyGoal: real, consumed: real, burned: real): (r: real)
    ensures r + consumed == dailyGoal + burned
  {
    dailyGoal - consumed + burned
  }

  /** `consumed / dailyGoal * 100`; the source has no guard against a zero goal. */
  function Progress(consumed: real, dailyGoal: real): (p: real)
    requires dailyGoal != 0.0
    ensures p * dailyGoal == consumed * 100.0
  {
    consumed / dailyGoal * 100.0
  }

  /** The badge: its text and its colour variant. */
  datatype Status = OverGoal | OnTrack | UnderGoal

  function StatusOf(progress: real): (s: Status)
    ensures s == OverGoal <==> progress > 100.0
    ensures s == OnTrack <==> 80.0 < progress <= 100.0
    ensures s == UnderGoal <==> progress <= 80.0
  {
    if progress > 100.0 then OverGoal else if progress > 80.0 then OnTrack else UnderGoal
  }

  /** The badge text: a distinct caption per status. */
  function StatusText(s: Status): (t: string)
    ensures t == "Over Goal" <==> s == OverGoal
    ensures t == "On Track" <==> s == OnTrack
    ensures t == "Under Goal" <==> s == UnderGoal
  {
    match s
    case OverGoal => "Over Goal"
    case OnTrack => "On Track"
    case UnderGoal => "Under Goal"
  }

  /** The badge colour variant: a distinct variant per status. */
  function StatusVariant(s: Status): (v: string)
    ensures v == "crimson" <==> s == OverGoal
    ensures v == "lemonade" <==> s == OnTrack
    ensures v == "electric" <==> s == UnderGoal
  {
    match s
    case OverGoal => "crimson"
    case OnTrack => "lemonade"
    case UnderGoal => "electric"
  }

  /** The boundaries: exactly 100 % is on track, exactly 80 % is under goal. */
  lemma StatusBoundaries()
    ensures StatusText(StatusOf(100.0)) == "On Track" && StatusVariant(StatusOf(100.0)) == "lemonade"
    ensures StatusText(StatusOf(80.0)) == "Under Goal" && StatusVariant(StatusOf(80.0)) == "electric"
    ensures StatusText(StatusOf(100.5)) == "Over Goal" && StatusVariant(StatusOf(100.5)) == "crimson"
  {
  }

  /** The fraction of the ring drawn, `Math.min(progress / 100, 1)`. */
  function RingFill(progress: real): (f: real)
    ensures f <= 1.0
    ensures progress <= 100.0 ==> f == progress / 100.0
    ensures progress >= 100.0 ==> f == 1.0
  {
    if progress / 100.0 < 1.0 then progress / 100.0 else 1.0
  }

  /** The remaining tile: a magnitude, its caption, and whether the trend arrow points up. */
  datatype Tile = Tile(amount: real, caption: string, trendUp: bool)

  function RemainingTile(remaining: real): (t: Tile)
    ensures t.amount >= 0.0 && (t.amount == remaining || t.amount == -remaining)
    ensures t.caption == "Remaining" <==> remaining > 0.0
    ensures t.caption == "Over" <==> remaining <= 0.0
    ensures t.trendUp <==> remaining > 0.0
  {
    Tile(if remaining < 0.0 then -remaining else remaining,
         if remaining > 0.0 then "Remaining" else "Over",
         remaining > 0.0)
  }

  /** Eating exactly the goal plus what was burned leaves 0, which is shown as "Over". */
  lemma ZeroRemainingShowsOver(dailyGoal: real, burned: real)
    ensures RemainingTile(Remaining(dailyGoal, dailyGoal + burned, burned)).caption == "Over"
    ensures RemainingTile(Remaining(dailyGoal, dailyGoal + burned, burned)).amount == 0.0
  {
  }

  /** One bar of the weekly chart. */
  datatype DayCalories = DayCalories(day: string, calories: real)

  /** Six fixed sample days, then today's intake on Sunday. */
  function WeeklySeries(consumed: real): (w: seq<DayCalories>)
    ensures |w| == 7
    ensures w[6] == DayCalories("Sun", consumed)
    ensures forall i :: 0 <= i < 6 ==> w[i].calories >= 1800.0
  {
    [DayCalories("Mon", 1850.0), DayCalories("Tue", 2100.0), DayCalories("Wed", 1950.0),
     DayCalories("Thu", 2200.0), DayCalories("Fri", 1800.0), DayCalories("Sat", 2300.0),
     DayCalories("Sun", consumed)]
  }

  /**
    For a positive goal the badge tracks intake against the goal: over it
    exactly when more than the goal was eaten, under it exactly when at most
    four fifths were.
  */
  lemma {:induction false} StatusAgainstGoal(consumed: real, dailyGoal: real)
    requires dailyGoal > 0.0
    ensures StatusOf(Progress(consumed, dailyGoal)) == OverGoal <==> consumed > dailyGoal
    ensures StatusOf(Progress(consumed, dailyGoal)) == UnderGoal <==> consumed * 5.0 <= dailyGoal * 4.0
  {
    ScaledComparison(Progress(consumed, dailyGoal), consumed, dailyGoal);
  }

  /** From `p * goal == consumed * 100` with a positive goal, the two thresholds on p translate to intake. */
  lemma ScaledComparison(p: real, consumed: real, dailyGoal: real)
    requires dailyGoal > 0.0 && p * dailyGoal == consumed * 100.0
    ensures p > 100.0 <==> consumed > dailyGoal
    ensures p <= 80.0 <==> consumed * 5.0 <= dailyGoal * 4.0
  {
    assert (p - 100.0) * dailyGoal == consumed * 100.0 - dailyGoal * 100.0;
    assert (p - 80.0) * dailyGoal == consumed * 100.0 - dailyGoal * 80.0;
    if p > 100.0 {
      assert (p - 100.0) * dailyGoal > 0.0;
    } else {
      assert (100.0 - p) * dailyGoal >= 0.0;
    }
    if p <= 80.0 {
      assert (80.0 - p) * dailyGoal >= 0.0;
    } else {
      assert (p - 80.0) * dailyGoal > 0.0;
    }
  }
}
