// Campaign totals and deliverability: platform_campaign_live_metrics_view, email_stats of the dashboard
// metrics and performance of the campaign summary.
module CampaignMetrics {
  import opened Sequences
  import opened Wrappers
  import AppTables

  // ---------- numeric ----------

  // round(numeric): halves away from zero
  function RoundHalf(x: real): int {
    if x >= 0.0 then (x + 0.5).Floor else -((0.5 - x).Floor)
  }

  // round(numeric, 2)
  function Round2(x: real): real {
    RoundHalf(x * 100.0) as real / 100.0
  }

  lemma RoundHalfMonotone(x: real, y: real)
    requires x <= y
    ensures RoundHalf(x) <= RoundHalf(y)
  {
  }

  lemma RoundHalfIsNearest(x: real)
    ensures RoundHalf(x) as real - 0.5 <= x <= RoundHalf(x) as real + 0.5
  {
  }

  // Signs do not matter, and a half goes away from zero.
  lemma RoundHalfIsSymmetric(x: real)
    ensures RoundHalf(-x) == -RoundHalf(x)
    ensures x >= 0.0 && x == x.Floor as real + 0.5 ==> RoundHalf(x) == x.Floor + 1
  {
  }

  // ---------- tables ----------

  datatype Campaign = Campaign(environment: string, id: string, status: string)

  type Analytics = AppTables.AnalyticsRow

  predicate Matches(c: Campaign, a: Analytics) {
    a.key.environment == c.environment && a.key.id == c.id
  }

  ghost predicate CampaignKeys(campaigns: seq<Campaign>) {
    forall i, j :: 0 <= i < j < |campaigns| ==>
      !(campaigns[i].environment == campaigns[j].environment && campaigns[i].id == campaigns[j].id)
  }

  ghost predicate AnalyticsKeys(analytics: seq<Analytics>) {
    forall i, j :: 0 <= i < j < |analytics| ==>
      analytics[i].key != analytics[j].key
  }

  ghost predicate AnalyticsHaveCampaigns(campaigns: seq<Campaign>, analytics: seq<Analytics>) {
    forall j :: 0 <= j < |analytics| ==> MatchesSome(campaigns, analytics[j])
  }

  // ---------- the two ways of adding up ----------

  function MatchesOf(c: Campaign, analytics: seq<Analytics>): seq<Option<Analytics>> {
    if analytics == [] then []
    else
      var init, last := MatchesOf(c, analytics[..|analytics| - 1]), analytics[|analytics| - 1];
      if Matches(c, last) then init + [Some(last)] else init
  }

  // campaign left join metrics: a row per match, or one row of nulls
  function JoinOne(c: Campaign, analytics: seq<Analytics>): seq<Option<Analytics>> {
    if MatchesOf(c, analytics) == [] then [None] else MatchesOf(c, analytics)
  }

  // The joined rows of one environment.
  function LeftJoin(campaigns: seq<Campaign>, analytics: seq<Analytics>, env: string): seq<Option<Analytics>> {
    if campaigns == [] then []
    else
      var init, c := LeftJoin(campaigns[..|campaigns| - 1], analytics, env), campaigns[|campaigns| - 1];
      if c.environment == env then init + JoinOne(c, analytics) else init
  }

  datatype Sums = Sums(delivered: int, bounced: int) {
    function Plus(o: Sums): Sums {
      Sums(delivered + o.delivered, bounced + o.bounced)
    }
  }

  function SumJoined(rows: seq<Option<Analytics>>): Sums {
    if rows == [] then Sums(0, 0)
    else
      var init, last := SumJoined(rows[..|rows| - 1]), rows[|rows| - 1];
      match last case None => init case Some(a) => init.Plus(Sums(a.counts.delivered, a.counts.bounces))
  }

  // select sum(...) from platform_campaign_analytics ... group by environment
  function SumDirect(analytics: seq<Analytics>, env: string): Sums {
    if analytics == [] then Sums(0, 0)
    else
      var init, last := SumDirect(analytics[..|analytics| - 1], env), analytics[|analytics| - 1];
      if last.key.environment == env then init.Plus(Sums(last.counts.delivered, last.counts.bounces)) else init
  }

  // group by campaign.environment: a row only where the environment has a campaign
  function Performance(campaigns: seq<Campaign>, analytics: seq<Analytics>, env: string): Option<Sums> {
    if exists i :: 0 <= i < |campaigns| && campaigns[i].environment == env
    then Some(SumJoined(LeftJoin(campaigns, analytics, env)))
    else None
  }

  function SumsOf(row: Option<Analytics>): Sums {
    match row case None => Sums(0, 0) case Some(a) => Sums(a.counts.delivered, a.counts.bounces)
  }

  lemma SumJoinedSnoc(rows: seq<Option<Analytics>>, row: Option<Analytics>)
    ensures SumJoined(rows + [row]) == SumJoined(rows).Plus(SumsOf(row))
  {
    assert (rows + [row])[..|rows|] == rows;
  }

  lemma {:induction false} SumJoinedAppend(a: seq<Option<Analytics>>, b: seq<Option<Analytics>>)
    ensures SumJoined(a + b) == SumJoined(a).Plus(SumJoined(b))
  {
    if b == [] {
      assert a + b == a;
    } else {
      var init, last := b[..|b| - 1], b[|b| - 1];
      SumJoinedAppend(a, init);
      assert b == init + [last] && a + b == (a + init) + [last];
      SumJoinedSnoc(init, last);
      SumJoinedSnoc(a + init, last);
    }
  }

  lemma JoinOneSum(c: Campaign, analytics: seq<Analytics>)
    ensures SumJoined(JoinOne(c, analytics)) == SumJoined(MatchesOf(c, analytics))
  {
    var nulls: seq<Option<Analytics>> := [None];
    assert nulls[..0] == [];
  }

  lemma MatchesSnoc(c: Campaign, analytics: seq<Analytics>, a: Analytics)
    ensures SumJoined(MatchesOf(c, analytics + [a])) ==
            SumJoined(MatchesOf(c, analytics)).Plus(Share(Matches(c, a), a))
  {
    assert (analytics + [a])[..|analytics|] == analytics;
    SumJoinedSnoc(MatchesOf(c, analytics), Some(a));
  }

  // The joined sums campaign by campaign.
  ghost function SumByCampaign(campaigns: seq<Campaign>, analytics: seq<Analytics>, env: string): Sums {
    if campaigns == [] then Sums(0, 0)
    else
      var init, c := SumByCampaign(campaigns[..|campaigns| - 1], analytics, env), campaigns[|campaigns| - 1];
      if c.environment == env then init.Plus(SumJoined(MatchesOf(c, analytics))) else init
  }

  lemma {:induction false} JoinSumsByCampaign(campaigns: seq<Campaign>, analytics: seq<Analytics>, env: string)
    ensures SumJoined(LeftJoin(campaigns, analytics, env)) == SumByCampaign(campaigns, analytics, env)
  {
    if campaigns == [] {
    } else {
      var init, c := campaigns[..|campaigns| - 1], campaigns[|campaigns| - 1];
      JoinSumsByCampaign(init, analytics, env);
      var left := LeftJoin(init, analytics, env);
      if c.environment == env {
        var one := JoinOne(c, analytics);
        assert LeftJoin(campaigns, analytics, env) == left + one;
        SumJoinedAppend(left, one);
        JoinOneSum(c, analytics);
      } else {
        assert LeftJoin(campaigns, analytics, env) == left;
      }
    }
  }

  lemma {:induction false} NothingToSum(campaigns: seq<Campaign>, env: string)
    ensures SumByCampaign(campaigns, [], env) == Sums(0, 0)
  {
    if campaigns != [] {
      NothingToSum(campaigns[..|campaigns| - 1], env);
    }
  }

  predicate MatchesSome(campaigns: seq<Campaign>, a: Analytics) {
    exists i :: 0 <= i < |campaigns| && Matches(campaigns[i], a)
  }

  lemma MatchesSomeLast(campaigns: seq<Campaign>, a: Analytics)
    requires campaigns != [] && CampaignKeys(campaigns)
    ensures var init, c := campaigns[..|campaigns| - 1], campaigns[|campaigns| - 1];
            && (MatchesSome(campaigns, a) <==> MatchesSome(init, a) || Matches(c, a))
            && !(MatchesSome(init, a) && Matches(c, a))
  {
    var init, c := campaigns[..|campaigns| - 1], campaigns[|campaigns| - 1];
    assert forall i :: 0 <= i < |init| ==> init[i] == campaigns[i];
    if MatchesSome(init, a) {
      var i :| 0 <= i < |init| && Matches(init[i], a);
      assert Matches(campaigns[i], a);
    }
  }

  function Share(matched: bool, a: Analytics): Sums {
    if matched then Sums(a.counts.delivered, a.counts.bounces) else Sums(0, 0)
  }

  // One more analytics row adds its own counts once, for the one campaign it matches.
  lemma {:induction false} SumSnoc(campaigns: seq<Campaign>, analytics: seq<Analytics>, a: Analytics, env: string)
    requires CampaignKeys(campaigns)
    ensures SumByCampaign(campaigns, analytics + [a], env) ==
            SumByCampaign(campaigns, analytics, env).Plus(
              Share(a.key.environment == env && MatchesSome(campaigns, a), a))
  {
    if campaigns == [] {
    } else {
      var init, c := campaigns[..|campaigns| - 1], campaigns[|campaigns| - 1];
      var more := analytics + [a];
      SumSnoc(init, analytics, a, env);
      MatchesSomeLast(campaigns, a);
      if c.environment == env {
        assert SumByCampaign(campaigns, analytics, env) ==
               SumByCampaign(init, analytics, env).Plus(SumJoined(MatchesOf(c, analytics)));
        assert SumByCampaign(campaigns, more, env) ==
               SumByCampaign(init, more, env).Plus(SumJoined(MatchesOf(c, more)));
        MatchesSnoc(c, analytics, a);
      } else {
        assert SumByCampaign(campaigns, analytics, env) == SumByCampaign(init, analytics, env);
        assert SumByCampaign(campaigns, more, env) == SumByCampaign(init, more, env);
      }
    }
  }

  lemma {:induction false} JoinSumsToDirect(campaigns: seq<Campaign>, analytics: seq<Analytics>, env: string)
    requires CampaignKeys(campaigns) && AnalyticsHaveCampaigns(campaigns, analytics)
    ensures SumByCampaign(campaigns, analytics, env) == SumDirect(analytics, env)
  {
    if analytics == [] {
      NothingToSum(campaigns, env);
    } else {
      var init, a := analytics[..|analytics| - 1], analytics[|analytics| - 1];
      assert analytics == init + [a];
      assert forall j :: 0 <= j < |init| ==> init[j] == analytics[j];
      assert MatchesSome(campaigns, analytics[|analytics| - 1]);
      JoinSumsToDirect(campaigns, init, env);
      SumSnoc(campaigns, init, a, env);
    }
  }

  // A row adds its delivered and bounced recipients to the totals of its own environment.
  lemma TotalsAddUp(analytics: seq<Analytics>, a: Analytics, env: string)
    ensures var before, after := SumDirect(analytics, env), SumDirect(analytics + [a], env);
            if a.key.environment == env
            then after.delivered == before.delivered + a.counts.delivered
                 && after.bounced == before.bounced + a.counts.bounces
            else after == before
  {
    assert (analytics + [a])[..|analytics|] == analytics;
  }

  lemma {:induction false} NoAnalyticsNoSums(analytics: seq<Analytics>, env: string)
    requires forall j :: 0 <= j < |analytics| ==> analytics[j].key.environment != env
    ensures SumDirect(analytics, env) == Sums(0, 0)
  {
    if analytics != [] {
      NoAnalyticsNoSums(analytics[..|analytics| - 1], env);
    }
  }

  // In every state that satisfies the keys the campaign summary and the dashboard report the same
  // totals: the join neither loses nor repeats an analytics row. Without a campaign the summary has
  // no row, and the dashboard's totals are zero.
  lemma ViewsAgreeOnTotals(campaigns: seq<Campaign>, analytics: seq<Analytics>, env: string)
    requires CampaignKeys(campaigns) && AnalyticsHaveCampaigns(campaigns, analytics)
    ensures match Performance(campaigns, analytics, env)
            case Some(sums) => sums == SumDirect(analytics, env)
            case None => SumDirect(analytics, env) == Sums(0, 0)
  {
    if Performance(campaigns, analytics, env).Some? {
      JoinSumsToDirect(campaigns, analytics, env);
      JoinSumsByCampaign(campaigns, analytics, env);
    } else {
      forall j | 0 <= j < |analytics|
        ensures analytics[j].key.environment != env
      {
        assert MatchesSome(campaigns, analytics[j]);
        var i :| 0 <= i < |campaigns| && Matches(campaigns[i], analytics[j]);
        assert campaigns[i].environment == analytics[j].key.environment;
      }
      NoAnalyticsNoSums(analytics, env);
    }
  }

  lemma {:induction false} MatchesAreFew(c: Campaign, analytics: seq<Analytics>)
    requires AnalyticsKeys(analytics)
    ensures |MatchesOf(c, analytics)| <= 1
    ensures MatchesOf(c, analytics) == [] <==> forall j :: 0 <= j < |analytics| ==> !Matches(c, analytics[j])
  {
    if analytics != [] {
      var init, last := analytics[..|analytics| - 1], analytics[|analytics| - 1];
      MatchesAreFew(c, init);
      assert forall j :: 0 <= j < |init| ==> init[j] == analytics[j];
    }
  }

  function CountIn(campaigns: seq<Campaign>, env: string): nat {
    if campaigns == [] then 0
    else CountIn(campaigns[..|campaigns| - 1], env) + if campaigns[|campaigns| - 1].environment == env then 1 else 0
  }

  // The join has exactly one row per campaign of the environment.
  lemma {:induction false} JoinDoesNotFanOut(campaigns: seq<Campaign>, analytics: seq<Analytics>, env: string)
    requires AnalyticsKeys(analytics)
    ensures |LeftJoin(campaigns, analytics, env)| == CountIn(campaigns, env)
  {
    if campaigns != [] {
      JoinDoesNotFanOut(campaigns[..|campaigns| - 1], analytics, env);
      MatchesAreFew(campaigns[|campaigns| - 1], analytics);
    }
  }

  // ---------- deliverability ----------

  function DeliverabilityRate(s: Sums): real {
    if s.delivered + s.bounced > 0 then Round2(s.delivered as real * 100.0 / (s.delivered + s.bounced) as real) else 0.0
  }

  // greatest(0, least(100, round(rate)::int))
  function Progress(s: Sums): int {
    var rounded := RoundHalf(DeliverabilityRate(s));
    var low := if rounded < 100 then rounded else 100;
    if low > 0 then low else 0
  }

  ghost predicate NonNegative(analytics: seq<Analytics>) {
    forall j :: 0 <= j < |analytics| ==> analytics[j].counts.delivered >= 0 && analytics[j].counts.bounces >= 0
  }

  lemma {:induction false} SumsAreNonNegative(analytics: seq<Analytics>, env: string)
    requires NonNegative(analytics)
    ensures SumDirect(analytics, env).delivered >= 0 && SumDirect(analytics, env).bounced >= 0
  {
    if analytics != [] {
      SumsAreNonNegative(analytics[..|analytics| - 1], env);
    }
  }

  lemma RatioInRange(delivered: int, total: int)
    requires 0 <= delivered <= total && total > 0
    ensures 0.0 <= delivered as real * 100.0 / total as real <= 100.0
  {
    var d, t := delivered as real, total as real;
    assert d * 100.0 / t == 100.0 * (d / t);
    assert 0.0 <= d / t <= 1.0;
  }

  lemma RateInRange(s: Sums)
    requires s.delivered >= 0 && s.bounced >= 0
    ensures 0.0 <= DeliverabilityRate(s) <= 100.0
  {
    if s.delivered + s.bounced > 0 {
      var ratio := s.delivered as real * 100.0 / (s.delivered + s.bounced) as real;
      RatioInRange(s.delivered, s.delivered + s.bounced);
      RoundHalfMonotone(0.0, ratio * 100.0);
      RoundHalfMonotone(ratio * 100.0, 10000.0);
    }
  }

  lemma Round2IsClose(x: real)
    ensures x - 0.005 <= Round2(x) <= x + 0.005
  {
    RoundHalfIsNearest(x * 100.0);
  }

  // The rate is the delivered share in percent, off by at most half a hundredth.
  lemma RateIsTheDeliveredShare(s: Sums)
    requires s.delivered + s.bounced > 0
    ensures var share := s.delivered as real * 100.0 / (s.delivered + s.bounced) as real;
            share - 0.005 <= DeliverabilityRate(s) <= share + 0.005
  {
    Round2IsClose(s.delivered as real * 100.0 / (s.delivered + s.bounced) as real);
  }

  // With non-negative counts, deliverability is a percentage, and the clamp of the progress never acts.
  lemma DeliverabilityIsAPercentage(campaigns: seq<Campaign>, analytics: seq<Analytics>, env: string)
    requires CampaignKeys(campaigns) && AnalyticsHaveCampaigns(campaigns, analytics) && NonNegative(analytics)
    ensures var performance := Performance(campaigns, analytics, env);
            performance.Some? ==>
              && 0.0 <= DeliverabilityRate(performance.value) <= 100.0
              && Progress(performance.value) == RoundHalf(DeliverabilityRate(performance.value))
  {
    ViewsAgreeOnTotals(campaigns, analytics, env);
    SumsAreNonNegative(analytics, env);
    var s := SumDirect(analytics, env);
    RateInRange(s);
    RoundHalfMonotone(0.0, DeliverabilityRate(s));
    RoundHalfMonotone(DeliverabilityRate(s), 100.0);
  }

  // ---------- the views over the store's tables ----------

  // The rows of a keyed table in some order, each once.
  ghost predicate ListsKeys<T>(table: map<AppTables.Id, T>, ids: seq<AppTables.Id>) {
    && (forall i :: 0 <= i < |ids| ==> ids[i] in table)
    && (forall id :: id in table ==> id in ids)
    && Distinct(ids)
  }

  function CampaignRows(t: AppTables.Tables, ids: seq<AppTables.Id>): seq<Campaign>
    requires forall i :: 0 <= i < |ids| ==> ids[i] in t.campaigns
  {
    seq(|ids|, i requires 0 <= i < |ids| => Campaign(ids[i].environment, ids[i].id, t.campaigns[ids[i]].status))
  }

  function AnalyticsRows(t: AppTables.Tables, ids: seq<AppTables.Id>): seq<Analytics>
    requires forall i :: 0 <= i < |ids| ==> ids[i] in t.analytics
  {
    seq(|ids|, i requires 0 <= i < |ids| => AppTables.AnalyticsRow(ids[i], t.analytics[ids[i]]))
  }

  // In every state the store can reach (its foreign keys hold), the two views report the same totals.
  lemma StoreTotalsAgree(t: AppTables.Tables, campaignIds: seq<AppTables.Id>, analyticsIds: seq<AppTables.Id>,
                         env: string)
    requires AppTables.ForeignKeys(t) && ListsKeys(t.campaigns, campaignIds) && ListsKeys(t.analytics, analyticsIds)
    ensures var campaigns, analytics := CampaignRows(t, campaignIds), AnalyticsRows(t, analyticsIds);
            match Performance(campaigns, analytics, env)
            case Some(sums) => sums == SumDirect(analytics, env)
            case None => SumDirect(analytics, env) == Sums(0, 0)
  {
    var campaigns, analytics := CampaignRows(t, campaignIds), AnalyticsRows(t, analyticsIds);
    forall j | 0 <= j < |analytics|
      ensures MatchesSome(campaigns, analytics[j])
    {
      var i :| 0 <= i < |campaignIds| && campaignIds[i] == analyticsIds[j];
      assert Matches(campaigns[i], analytics[j]);
    }
    forall i, j | 0 <= i < j < |campaigns|
      ensures !(campaigns[i].environment == campaigns[j].environment && campaigns[i].id == campaigns[j].id)
    {
      assert campaignIds[i] != campaignIds[j];
    }
    ViewsAgreeOnTotals(campaigns, analytics, env);
  }
}
