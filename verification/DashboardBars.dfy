// platform_dashboard_bars_view: the last seven days as bars.
module DashboardBars {
  import opened CampaignMetrics

  datatype Day = Day(environment: string, date: int)

  datatype Bar = Bar(date: int, count: int, height: int, emphasis: bool, displayOrder: int)

  // coalesce(event_count, 0) over the left join: a day without a row counts zero
  function CountOn(performance: map<Day, int>, day: Day): int {
    if day in performance then performance[day] else 0
  }

  // The counts of the seven days up to today, oldest first.
  function Counts(performance: map<Day, int>, env: string, today: int): (counts: seq<int>)
    ensures |counts| == 7
  {
    seq(7, i requires 0 <= i < 7 => CountOn(performance, Day(env, today - 6 + i)))
  }

  function MaxOf(counts: seq<int>): int
    requires counts != []
  {
    var last := counts[|counts| - 1];
    if |counts| == 1 then last
    else
      var m := MaxOf(counts[..|counts| - 1]);
      if last >= m then last else m
  }

  // greatest(18, least(94, round(count * 94.0 / greatest(max, 1))::int))
  function Height(count: int, max: int): int {
    var top := if max > 1 then max else 1;
    var rounded := RoundHalf(count as real * 94.0 / top as real);
    var capped := if rounded < 94 then rounded else 94;
    if capped > 18 then capped else 18
  }

  // order by event_count desc, bucket_date desc
  predicate Before(counts: seq<int>, j: nat, i: nat)
    requires i < |counts| && j < |counts|
  {
    counts[j] > counts[i] || (counts[j] == counts[i] && j > i)
  }

  // row_number(): one more than the rows that come before
  function EmphasisRank(counts: seq<int>, i: nat): nat
    requires i < |counts|
  {
    1 + |set j: nat | j < |counts| && Before(counts, j, i)|
  }

  function Bars(performance: map<Day, int>, env: string, today: int): (bars: seq<Bar>)
    ensures |bars| == 7
  {
    var counts := Counts(performance, env, today);
    seq(7, i requires 0 <= i < 7 =>
      Bar(today - 6 + i, counts[i], Height(counts[i], MaxOf(counts)), EmphasisRank(counts, i) == 1, i + 1))
  }

  // ---------- heights ----------

  lemma HeightMonotone(c: int, d: int, max: int)
    requires c <= d
    ensures Height(c, max) <= Height(d, max)
  {
    var top := if max > 1 then max else 1;
    DivideMonotone(c as real * 94.0, d as real * 94.0, top as real);
    RoundHalfMonotone(c as real * 94.0 / top as real, d as real * 94.0 / top as real);
  }

  lemma DivideMonotone(x: real, y: real, z: real)
    requires x <= y && z > 0.0
    ensures x / z <= y / z
  {
  }

  lemma FullHeight(max: int)
    requires max >= 1
    ensures Height(max, max) == 94
  {
    FullShare(max);
  }

  // Between the caps a height is the count's share of 94 to within a half; the lower cap stands for every
  // share of less than 18.5.
  lemma HeightIsProportional(count: int, max: int)
    requires count <= max && max >= 1
    ensures var h, share := Height(count, max) as real, count as real * 94.0 / max as real;
            share <= h + 0.5 && (h > 18.0 ==> h - 0.5 <= share)
  {
    var share, full := count as real * 94.0 / max as real, max as real * 94.0 / max as real;
    FullShare(max);
    DivideMonotone(count as real * 94.0, max as real * 94.0, max as real);
    RoundHalfIsNearest(share);
    RoundHalfMonotone(share, full);
  }

  lemma FullShare(max: int)
    requires max >= 1
    ensures max as real * 94.0 / max as real == 94.0
  {
    var m := max as real;
    assert m * 94.0 / m == 94.0;
  }

  lemma {:induction false} MaxOfIsGreatest(counts: seq<int>)
    requires counts != []
    ensures forall i :: 0 <= i < |counts| ==> counts[i] <= MaxOf(counts)
    ensures exists i :: 0 <= i < |counts| && counts[i] == MaxOf(counts)
  {
    if |counts| == 1 {
      assert counts[0] == MaxOf(counts);
    } else {
      var init := counts[..|counts| - 1];
      MaxOfIsGreatest(init);
      var i :| 0 <= i < |init| && init[i] == MaxOf(init);
      assert counts[i] == MaxOf(init);
      assert counts[|counts| - 1] >= MaxOf(init) || counts[i] == MaxOf(counts);
      forall k | 0 <= k < |counts|
        ensures counts[k] <= MaxOf(counts)
      {
        if k < |init| { assert counts[k] == init[k]; }
      }
    }
  }

  // ---------- the emphasised day ----------

  // The latest of the days with the highest count.
  ghost predicate LatestHighest(counts: seq<int>, i: nat) {
    && i < |counts|
    && (forall j :: 0 <= j < |counts| ==> counts[j] <= counts[i])
    && (forall j :: i < j < |counts| ==> counts[j] < counts[i])
  }

  lemma RankOneIffLatestHighest(counts: seq<int>, i: nat)
    requires i < |counts|
    ensures EmphasisRank(counts, i) == 1 <==> LatestHighest(counts, i)
  {
    var ahead := set j: nat | j < |counts| && Before(counts, j, i);
    if LatestHighest(counts, i) {
      assert ahead == {};
    } else if ahead == {} {
      forall j | 0 <= j < |counts|
        ensures counts[j] <= counts[i] && (j > i ==> counts[j] < counts[i])
      {
        var k: nat := j;
        assert k !in ahead;
        assert !Before(counts, k, i);
      }
    }
  }

  lemma {:induction false} LatestHighestExists(counts: seq<int>) returns (i: nat)
    requires counts != []
    ensures LatestHighest(counts, i)
  {
    var n := |counts| - 1;
    if n == 0 {
      i := 0;
    } else {
      var init := counts[..n];
      i := LatestHighestExists(init);
      assert forall j :: 0 <= j < n ==> init[j] == counts[j];
      if counts[n] >= counts[i] {
        i := n;
      }
    }
  }

  // ---------- the view ----------

  // Seven bars, one per day, in date order, each with its own day's count; heights between 18 and 94,
  // in the order of the counts.
  lemma BarsMeaning(performance: map<Day, int>, env: string, today: int)
    ensures var bars := Bars(performance, env, today);
            && |bars| == 7
            && (forall i :: 0 <= i < 7 ==> bars[i].date == today - 6 + i && bars[i].displayOrder == i + 1)
            && (forall i :: 0 <= i < 7 ==> bars[i].count == CountOn(performance, Day(env, bars[i].date)))
            && (forall i :: 0 <= i < 7 ==> 18 <= bars[i].height <= 94)
            && (forall i, j :: 0 <= i < 7 && 0 <= j < 7 && bars[i].count <= bars[j].count ==>
                  bars[i].height <= bars[j].height)
  {
    var counts := Counts(performance, env, today);
    var max := MaxOf(counts);
    forall i, j | 0 <= i < 7 && 0 <= j < 7 && counts[i] <= counts[j]
      ensures Height(counts[i], max) <= Height(counts[j], max)
    {
      HeightMonotone(counts[i], counts[j], max);
    }
  }

  // A bar counts its own day's events in its own environment, and a day without a row none.
  lemma BarCounts(performance: map<Day, int>, env: string, today: int, i: nat)
    requires i < 7
    ensures var day, count := Day(env, today - 6 + i), Bars(performance, env, today)[i].count;
            (day in performance ==> count == performance[day]) && (day !in performance ==> count == 0)
  {
    assert Bars(performance, env, today)[i].count == Counts(performance, env, today)[i];
    assert Counts(performance, env, today)[i] == CountOn(performance, Day(env, today - 6 + i));
  }

  // Exactly one bar is emphasised: the latest of those with the highest count, whose height is 94 once
  // that count is positive. Below it heights are proportional.
  lemma EmphasisMeaning(performance: map<Day, int>, env: string, today: int) returns (best: nat)
    ensures var bars := Bars(performance, env, today);
            && best < 7
            && (forall i :: 0 <= i < 7 ==> (bars[i].emphasis <==> i == best))
            && (forall i :: 0 <= i < 7 ==> bars[i].count <= bars[best].count)
            && (forall i :: best < i < 7 ==> bars[i].count < bars[best].count)
            && (bars[best].count >= 1 ==> bars[best].height == 94)
            && (forall i :: 0 <= i < 7 ==> bars[i].height == Height(bars[i].count, bars[best].count))
  {
    var counts := Counts(performance, env, today);
    var max := MaxOf(counts);
    MaxOfIsGreatest(counts);
    best := LatestHighestExists(counts);
    assert counts[best] == max;
    forall i: nat | i < 7
      ensures EmphasisRank(counts, i) == 1 <==> i == best
    {
      RankOneIffLatestHighest(counts, i);
    }
    if max >= 1 {
      FullHeight(max);
    }
  }
}
