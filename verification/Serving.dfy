// Publishing the serving tables, and reading totals back through Trino.
module Serving {
  import opened Wrappers
  import opened Decimal
  import AppTables

  // ---------- from appdb through the mart to ClickHouse ----------

  type AnalyticsRow = AppTables.AnalyticsRow

  // Times in microseconds.
  datatype PerformanceRow = PerformanceRow(campaignId: string, delivered: int, opens: int, clicks: int,
                                           firstSeenAt: int, lastSeenAt: int)

  datatype EngagementRow = EngagementRow(pageUrl: Option<string>, eventName: Option<string>,
                                         events: int, users: int, firstSeenAt: int, lastSeenAt: int)

  // mart_campaign_performance, materialised by the dbt run
  function Mart(rows: seq<AnalyticsRow>): seq<PerformanceRow> {
    seq(|rows|, i requires 0 <= i < |rows| =>
      var r := rows[i];
      PerformanceRow(r.key.id, r.counts.delivered, r.counts.opens, r.counts.clicks,
                     r.counts.firstSeenAt.GetOr(r.counts.refreshedAt), r.counts.lastSeenAt.GetOr(r.counts.refreshedAt)))
  }

  // date_trunc('second', ...)
  function ToSecond(t: int): int {
    t / 1000000 * 1000000
  }

  function ServedPerformance(mart: seq<PerformanceRow>): seq<PerformanceRow> {
    seq(|mart|, i requires 0 <= i < |mart| =>
      mart[i].(firstSeenAt := ToSecond(mart[i].firstSeenAt), lastSeenAt := ToSecond(mart[i].lastSeenAt)))
  }

  function ServedEngagement(mart: seq<EngagementRow>): seq<EngagementRow> {
    seq(|mart|, i requires 0 <= i < |mart| =>
      mart[i].(pageUrl := Some(mart[i].pageUrl.GetOr("")), eventName := Some(mart[i].eventName.GetOr("")),
               firstSeenAt := ToSecond(mart[i].firstSeenAt), lastSeenAt := ToSecond(mart[i].lastSeenAt)))
  }

  // ---------- what the served rows hold ----------

  // A time cut to its second.
  predicate IsSecondOf(t: int, served: int) {
    served <= t < served + 1000000 && served % 1000000 == 0
  }

  function SeenAt(seen: Option<int>, refreshedAt: int): int {
    if seen.Some? then seen.value else refreshedAt
  }

  predicate Serves(r: AnalyticsRow, row: PerformanceRow) {
    && row.campaignId == r.key.id
    && row.delivered == r.counts.delivered && row.opens == r.counts.opens && row.clicks == r.counts.clicks
    && IsSecondOf(SeenAt(r.counts.firstSeenAt, r.counts.refreshedAt), row.firstSeenAt)
    && IsSecondOf(SeenAt(r.counts.lastSeenAt, r.counts.refreshedAt), row.lastSeenAt)
  }

  predicate ServesEngagement(r: EngagementRow, row: EngagementRow) {
    && row.pageUrl == Some(if r.pageUrl == None then "" else r.pageUrl.value)
    && row.eventName == Some(if r.eventName == None then "" else r.eventName.value)
    && row.events == r.events && row.users == r.users
    && IsSecondOf(r.firstSeenAt, row.firstSeenAt) && IsSecondOf(r.lastSeenAt, row.lastSeenAt)
  }

  // After a complete publish the tables hold, row by row, what the analytics table had at the dbt run and
  // the engagement mart has.
  lemma PublishedRows(before: Tables, rows: seq<AnalyticsRow>, engagement: seq<EngagementRow>)
    ensures var t := AfterStatements(before, Mart(rows), engagement, 4);
            && |t.performance| == |rows| && |t.engagement| == |engagement|
            && (forall i :: 0 <= i < |rows| ==> Serves(rows[i], t.performance[i]))
            && (forall i :: 0 <= i < |engagement| ==> ServesEngagement(engagement[i], t.engagement[i]))
  {
  }

  // ---------- publish_serving_tables ----------

  datatype Tables = Tables(performance: seq<PerformanceRow>, engagement: seq<EngagementRow>)

  // The serving tables after the first n of the four statements.
  function AfterStatements(before: Tables, performance: seq<PerformanceRow>, engagement: seq<EngagementRow>,
                           n: nat): Tables {
    Tables(
      if n == 0 then before.performance else if n == 1 then [] else ServedPerformance(performance),
      if n <= 2 then before.engagement else if n == 3 then [] else ServedEngagement(engagement))
  }

  class ServingStore {
    var performance: seq<PerformanceRow>
    var engagement: seq<EngagementRow>

    function Contents(): Tables
      reads this
    {
      Tables(performance, engagement)
    }

    constructor (t: Tables)
      ensures Contents() == t
    {
      performance, engagement := t.performance, t.engagement;
    }

    // With stopAfter, the run fails once that many of the four statements have taken effect.
    method Publish(performanceMart: seq<PerformanceRow>, engagementMart: seq<EngagementRow>, stopAfter: Option<nat>)
      returns (done: bool)
      modifies this
      ensures done <==> stopAfter.None? || stopAfter.value > 4
      ensures Contents() == AfterStatements(old(Contents()), performanceMart, engagementMart, stopAfter.GetOr(4))
    {
      done := false;
      if stopAfter == Some(0) { return; }
      performance := [];
      if stopAfter == Some(1) { return; }
      performance := performance + ServedPerformance(performanceMart);
      if stopAfter == Some(2) { return; }
      engagement := [];
      if stopAfter == Some(3) { return; }
      engagement := engagement + ServedEngagement(engagementMart);
      done := stopAfter != Some(4);
    }
  }

  function Served(performance: seq<PerformanceRow>, engagement: seq<EngagementRow>): Tables {
    Tables(ServedPerformance(performance), ServedEngagement(engagement))
  }

  // Neither table is empty, and neither is as in the other pair.
  predicate Filled(t: Tables) {
    t.performance != [] && t.engagement != []
  }

  predicate Differ(t: Tables, u: Tables) {
    t.performance != u.performance && t.engagement != u.engagement
  }

  // The two tables do not switch together: while both really change, the pair is the old or the new one
  // exactly before the first statement and after the last.
  lemma SwitchInTurn(before: Tables, performance: seq<PerformanceRow>, engagement: seq<EngagementRow>, n: nat)
    requires Filled(before) && Filled(Served(performance, engagement))
    requires Differ(before, Served(performance, engagement))
    ensures var t := AfterStatements(before, performance, engagement, n);
            t == before || t == Served(performance, engagement) <==> n == 0 || n >= 4
  {
  }

  // ---------- any number of attempts, stopped anywhere and on any marts ----------

  // Both marts as they are at one moment.
  datatype Marts = Marts(performance: seq<PerformanceRow>, engagement: seq<EngagementRow>)

  // The marts when the second and when the fourth statement reads them; dbt may run in between.
  datatype Attempt = Attempt(early: Marts, late: Marts, n: nat)

  function Early(a: Attempt): Tables {
    Served(a.early.performance, a.early.engagement)
  }

  function Late(a: Attempt): Tables {
    Served(a.late.performance, a.late.engagement)
  }

  function AfterAttempts(before: Tables, attempts: seq<Attempt>): Tables {
    if attempts == [] then before
    else
      var last := attempts[|attempts| - 1];
      AfterStatements(AfterAttempts(before, attempts[..|attempts| - 1]),
                      last.early.performance, last.late.engagement, last.n)
  }

  // The class runs any list of attempts exactly as the functions say.
  method PublishAll(store: ServingStore, attempts: seq<Attempt>)
    modifies store
    ensures store.Contents() == AfterAttempts(old(store.Contents()), attempts)
  {
    for i := 0 to |attempts|
      invariant store.Contents() == AfterAttempts(old(store.Contents()), attempts[..i])
    {
      assert attempts[..i + 1][..i] == attempts[..i];
      var done := store.Publish(attempts[i].early.performance, attempts[i].late.engagement, Some(attempts[i].n));
    }
    assert attempts[..|attempts|] == attempts;
  }

  // A complete run leaves what it read, whatever the attempts before it did.
  lemma RerunReachesNew(before: Tables, attempts: seq<Attempt>, early: Marts, late: Marts)
    ensures AfterAttempts(before, attempts + [Attempt(early, late, 4)]) ==
            Served(early.performance, late.engagement)
  {
    var all := attempts + [Attempt(early, late, 4)];
    assert all[|all| - 1] == Attempt(early, late, 4);
  }

  // ---------- when the two tables belong together ----------

  const BLANK := Tables([], [])

  // The pair is the first one, or the marts of one moment.
  ghost predicate Matching(before: Tables, attempts: seq<Attempt>, t: Tables) {
    t == before || exists i :: 0 <= i < |attempts| && (t == Early(attempts[i]) || t == Late(attempts[i]))
  }

  ghost predicate Version(before: Tables, attempts: seq<Attempt>, t: Tables) {
    t == BLANK || Matching(before, attempts, t)
  }

  lemma MatchingSnoc(before: Tables, attempts: seq<Attempt>, last: Attempt, t: Tables)
    ensures Matching(before, attempts + [last], t) <==>
            Matching(before, attempts, t) || t == Early(last) || t == Late(last)
  {
    var all := attempts + [last];
    assert all[|attempts|] == last;
    assert forall i :: 0 <= i < |attempts| ==> all[i] == attempts[i];
  }

  // The pair whose performance table is there: that of the last attempt that got to it, blank when it
  // only emptied it.
  function PerformanceVersion(before: Tables, attempts: seq<Attempt>): Tables {
    if attempts == [] then before
    else
      var last := attempts[|attempts| - 1];
      if last.n == 0 then PerformanceVersion(before, attempts[..|attempts| - 1])
      else if last.n == 1 then BLANK
      else Early(last)
  }

  function EngagementVersion(before: Tables, attempts: seq<Attempt>): Tables {
    if attempts == [] then before
    else
      var last := attempts[|attempts| - 1];
      if last.n <= 2 then EngagementVersion(before, attempts[..|attempts| - 1])
      else if last.n == 3 then BLANK
      else Late(last)
  }

  // Each table is always the whole of one version's, never a mixture: no assumption on the marts.
  lemma {:induction false} NeverMixed(before: Tables, attempts: seq<Attempt>)
    ensures var p, e := PerformanceVersion(before, attempts), EngagementVersion(before, attempts);
            && AfterAttempts(before, attempts) == Tables(p.performance, e.engagement)
            && Version(before, attempts, p) && Version(before, attempts, e)
  {
    if attempts != [] {
      var init, last := attempts[..|attempts| - 1], attempts[|attempts| - 1];
      assert attempts == init + [last];
      NeverMixed(before, init);
      MatchingSnoc(before, init, last, PerformanceVersion(before, attempts));
      MatchingSnoc(before, init, last, EngagementVersion(before, attempts));
    }
  }

  // Any two versions are the same pair or differ in both tables.
  ghost predicate Coherent(before: Tables, attempts: seq<Attempt>) {
    forall t, u :: Version(before, attempts, t) && Version(before, attempts, u) ==> t == u || Differ(t, u)
  }

  // The two tables match exactly when they are of one version; if both are only emptied, when empty
  // tables are a version too, as they are at the first start.
  lemma MatchingIffSameVersion(before: Tables, attempts: seq<Attempt>)
    requires Coherent(before, attempts)
    ensures var p, e := PerformanceVersion(before, attempts), EngagementVersion(before, attempts);
            Matching(before, attempts, AfterAttempts(before, attempts)) <==>
            p == e && (p != BLANK || Matching(before, attempts, BLANK))
  {
    NeverMixed(before, attempts);
    var p, e := PerformanceVersion(before, attempts), EngagementVersion(before, attempts);
    var t := AfterAttempts(before, attempts);
    if Matching(before, attempts, t) {
      assert Version(before, attempts, t);
      assert !Differ(t, p) && !Differ(t, e);
    }
  }

  ghost predicate AllFilled(before: Tables, attempts: seq<Attempt>) {
    Filled(before) && forall i :: 0 <= i < |attempts| ==> Filled(Early(attempts[i])) && Filled(Late(attempts[i]))
  }

  // The same by how far the last attempts got: one that did nothing does not matter; a complete one must
  // have read marts of one version; one that stopped after its second statement must have met the
  // engagement rows of its own version; any other tears the tables apart.
  predicate Together(before: Tables, attempts: seq<Attempt>) {
    attempts == [] ||
    (var init, last := attempts[..|attempts| - 1], attempts[|attempts| - 1];
     if last.n == 0 then Together(before, init)
     else if last.n == 2 then EngagementVersion(before, init) == Early(last)
     else last.n >= 4 && Early(last) == Late(last))
  }

  lemma {:induction false} TogetherIsSameVersion(before: Tables, attempts: seq<Attempt>)
    requires AllFilled(before, attempts)
    ensures var p, e := PerformanceVersion(before, attempts), EngagementVersion(before, attempts);
            Together(before, attempts) <==> p == e && p != BLANK
  {
    if attempts != [] {
      var last := attempts[|attempts| - 1];
      assert Filled(Early(last));
      TogetherIsSameVersion(before, attempts[..|attempts| - 1]);
    }
  }

  lemma MatchingIffTogether(before: Tables, attempts: seq<Attempt>)
    requires Coherent(before, attempts) && AllFilled(before, attempts)
    ensures Matching(before, attempts, AfterAttempts(before, attempts)) <==> Together(before, attempts)
  {
    MatchingIffSameVersion(before, attempts);
    TogetherIsSameVersion(before, attempts);
    assert !Matching(before, attempts, BLANK);
  }

  // The first publish, into empty tables: they match before it fills the first one, and once it is
  // complete if both marts were read from one version.
  lemma FirstPublish(a: Attempt)
    requires Filled(Early(a)) && Filled(Late(a)) && (Early(a) == Late(a) || Differ(Early(a), Late(a)))
    ensures Matching(BLANK, [a], AfterAttempts(BLANK, [a])) <==> a.n <= 1 || (a.n >= 4 && Early(a) == Late(a))
  {
    assert [a][..0] == [];
    assert Matching(BLANK, [a], BLANK);
    forall t, u | Version(BLANK, [a], t) && Version(BLANK, [a], u)
      ensures t == u || Differ(t, u)
    {
    }
    MatchingIffSameVersion(BLANK, [a]);
  }

  // ---------- when every attempt brings something new ----------

  // Each attempt read one version, and no two versions have a table in common.
  ghost predicate AllDiffer(before: Tables, attempts: seq<Attempt>) {
    && AllFilled(before, attempts)
    && (forall i :: 0 <= i < |attempts| ==>
          Early(attempts[i]) == Late(attempts[i]) && Differ(before, Early(attempts[i])))
    && (forall i, j :: 0 <= i < j < |attempts| ==> Differ(Early(attempts[i]), Early(attempts[j])))
  }

  // The last attempt that did anything, if there is one, got through.
  predicate Settled(attempts: seq<Attempt>) {
    attempts == [] ||
    (var last := attempts[|attempts| - 1]; last.n >= 4 || (last.n == 0 && Settled(attempts[..|attempts| - 1])))
  }

  lemma AllDifferIsCoherent(before: Tables, attempts: seq<Attempt>)
    requires AllDiffer(before, attempts)
    ensures Coherent(before, attempts)
  {
  }

  lemma {:induction false} SettledIsTogether(before: Tables, attempts: seq<Attempt>)
    requires AllDiffer(before, attempts)
    ensures Together(before, attempts) <==> Settled(attempts)
  {
    if attempts != [] {
      var n := |attempts| - 1;
      var init, last := attempts[..n], attempts[n];
      SettledIsTogether(before, init);
      NeverMixed(before, init);
      var e := EngagementVersion(before, init);
      assert e != Early(last) by {
        if e != BLANK && e != before {
          var i :| 0 <= i < n && (e == Early(init[i]) || e == Late(init[i]));
          assert init[i] == attempts[i] && Differ(Early(attempts[i]), Early(attempts[n]));
        }
      }
    }
  }

  // Then the two tables match exactly when the last attempt that did anything got through.
  lemma MatchingIffSettled(before: Tables, attempts: seq<Attempt>)
    requires AllDiffer(before, attempts)
    ensures Matching(before, attempts, AfterAttempts(before, attempts)) <==> Settled(attempts)
  {
    AllDifferIsCoherent(before, attempts);
    MatchingIffTogether(before, attempts);
    SettledIsTogether(before, attempts);
  }

  // ---------- publishes that overlap ----------

  // Statement k of a publish that means to leave the tables as in goal.
  function Statement(t: Tables, goal: Tables, k: nat): Tables {
    if k == 0 then t.(performance := [])
    else if k == 1 then t.(performance := t.performance + goal.performance)
    else if k == 2 then t.(engagement := [])
    else if k == 3 then t.(engagement := t.engagement + goal.engagement)
    else t
  }

  // One after the other the statements are those of Publish.
  lemma StatementsInTurn(before: Tables, performance: seq<PerformanceRow>, engagement: seq<EngagementRow>, n: nat)
    ensures AfterStatements(before, performance, engagement, n + 1) ==
            Statement(AfterStatements(before, performance, engagement, n), Served(performance, engagement), n)
  {
    assert [] + ServedPerformance(performance) == ServedPerformance(performance);
    assert [] + ServedEngagement(engagement) == ServedEngagement(engagement);
  }

  // The tables, and how many of its statements each publish has executed.
  datatype Server = Server(tables: Tables, next: map<nat, nat>)

  function Turn(s: Server, marts: map<nat, Tables>, p: nat): Server
    requires p in marts
  {
    var k := if p in s.next then s.next[p] else 0;
    Server(Statement(s.tables, marts[p], k), s.next[p := k + 1])
  }

  // A schedule says whose statement is next.
  function Interleaved(before: Tables, marts: map<nat, Tables>, schedule: seq<nat>): Server
    requires forall i :: 0 <= i < |schedule| ==> schedule[i] in marts
  {
    if schedule == [] then Server(before, map[])
    else Turn(Interleaved(before, marts, schedule[..|schedule| - 1]), marts, schedule[|schedule| - 1])
  }

  // The publishes whose next statement is k; for k = 1 and k = 3 they have emptied a table and not
  // filled it yet.
  function At(s: Server, k: nat): set<nat> {
    set p | p in s.next && s.next[p] == k
  }

  ghost predicate Alone(s: Server) {
    forall p, q :: p in s.next && q in s.next && s.next[p] == s.next[q] && (s.next[p] == 1 || s.next[p] == 3) ==> p == q
  }

  ghost predicate AloneThroughout(before: Tables, marts: map<nat, Tables>, schedule: seq<nat>)
    requires forall i :: 0 <= i < |schedule| ==> schedule[i] in marts
  {
    schedule == [] ||
    ( && AloneThroughout(before, marts, schedule[..|schedule| - 1])
      && Alone(Interleaved(before, marts, schedule[..|schedule| - 1])))
  }

  ghost predicate Whole(before: Tables, marts: map<nat, Tables>, t: Tables) {
    && (t.performance == before.performance || t.performance == []
        || exists p :: p in marts && t.performance == marts[p].performance)
    && (t.engagement == before.engagement || t.engagement == []
        || exists p :: p in marts && t.engagement == marts[p].engagement)
  }

  // A table someone has emptied and not filled yet is empty.
  ghost predicate EmptiedIsEmpty(s: Server) {
    forall p :: p in s.next ==>
      && (s.next[p] == 1 ==> s.tables.performance == [])
      && (s.next[p] == 3 ==> s.tables.engagement == [])
  }

  lemma TurnKeepsWhole(before: Tables, marts: map<nat, Tables>, s: Server, p: nat)
    requires p in marts && Whole(before, marts, s.tables) && EmptiedIsEmpty(s) && Alone(s)
    ensures Whole(before, marts, Turn(s, marts, p).tables) && EmptiedIsEmpty(Turn(s, marts, p))
  {
    var k := if p in s.next then s.next[p] else 0;
    assert [] + marts[p].performance == marts[p].performance;
    assert [] + marts[p].engagement == marts[p].engagement;
    if k == 1 {
      assert Turn(s, marts, p).tables.performance == marts[p].performance;
    } else if k == 3 {
      assert Turn(s, marts, p).tables.engagement == marts[p].engagement;
    }
  }

  // Any number of publishes, interleaved: while no two of them have emptied the same table before filling
  // it, each table is always the first one, empty, or the whole of one mart.
  lemma {:induction false} OverlapFreeIsWhole(before: Tables, marts: map<nat, Tables>, schedule: seq<nat>)
    requires forall i :: 0 <= i < |schedule| ==> schedule[i] in marts
    requires AloneThroughout(before, marts, schedule)
    ensures var s := Interleaved(before, marts, schedule); Whole(before, marts, s.tables) && EmptiedIsEmpty(s)
  {
    if schedule != [] {
      var init, p := schedule[..|schedule| - 1], schedule[|schedule| - 1];
      OverlapFreeIsWhole(before, marts, init);
      TurnKeepsWhole(before, marts, Interleaved(before, marts, init), p);
    }
  }

  lemma {:induction false} SumAppend(a: seq<PerformanceRow>, b: seq<PerformanceRow>)
    ensures SumPerformance(a + b) == SumPerformance(a).Plus(SumPerformance(b))
  {
    if b == [] {
      assert a + b == a;
    } else {
      var init, last := b[..|b| - 1], b[|b| - 1];
      SumAppend(a, init);
      assert (a + b)[..|a + b| - 1] == a + init && (a + b)[|a + b| - 1] == last;
    }
  }

  lemma NeitherPart<T>(a: seq<T>, b: seq<T>)
    requires a != [] && b != []
    ensures a + b != [] && a + b != a && a + b != b
  {
    assert |a + b| == |a| + |b|;
  }

  lemma FillPerformance(s: Server, marts: map<nat, Tables>, p: nat)
    requires p in marts && p in At(s, 1)
    ensures Turn(s, marts, p) ==
            Server(s.tables.(performance := s.tables.performance + marts[p].performance), s.next[p := 2])
  {
  }

  lemma FillEngagement(s: Server, marts: map<nat, Tables>, p: nat)
    requires p in marts && p in At(s, 3)
    ensures Turn(s, marts, p) ==
            Server(s.tables.(engagement := s.tables.engagement + marts[p].engagement), s.next[p := 4])
  {
  }

  // And the moment two have, their next statements leave both marts in the table: it is neither one's mart,
  // and the totals read from it are those of both.
  lemma OverlapMixes(s: Server, marts: map<nat, Tables>, p: nat, q: nat)
    requires p in marts && q in marts && p != q && p in At(s, 1) && q in At(s, 1)
    requires s.tables.performance == [] && marts[p].performance != [] && marts[q].performance != []
    ensures var t := Turn(Turn(s, marts, p), marts, q).tables.performance;
            && t == marts[p].performance + marts[q].performance
            && t != [] && t != marts[p].performance && t != marts[q].performance
            && SumPerformance(t) == SumPerformance(marts[p].performance).Plus(SumPerformance(marts[q].performance))
  {
    FillPerformance(s, marts, p);
    FillPerformance(Turn(s, marts, p), marts, q);
    SumAppend(marts[p].performance, marts[q].performance);
    NeitherPart(marts[p].performance, marts[q].performance);
    assert [] + marts[p].performance == marts[p].performance;
  }

  lemma OverlapMixesEngagement(s: Server, marts: map<nat, Tables>, p: nat, q: nat)
    requires p in marts && q in marts && p != q && p in At(s, 3) && q in At(s, 3)
    requires s.tables.engagement == [] && marts[p].engagement != [] && marts[q].engagement != []
    ensures var t := Turn(Turn(s, marts, p), marts, q).tables.engagement;
            && t == marts[p].engagement + marts[q].engagement
            && t != [] && t != marts[p].engagement && t != marts[q].engagement
  {
    FillEngagement(s, marts, p);
    FillEngagement(Turn(s, marts, p), marts, q);
    NeitherPart(marts[p].engagement, marts[q].engagement);
    assert [] + marts[p].engagement == marts[p].engagement;
  }

  // ---------- numbers on the way back ----------

  const TWO_53: nat := 0x20_0000_0000_0000

  // The spacing of doubles around m: the least power of two u, from unit on, with m < 2^53 u.
  function Spacing(m: nat, unit: nat): (u: nat)
    requires unit > 0
    ensures u >= unit && m < TWO_53 * u
    decreases m - unit
  {
    if m < TWO_53 * unit then unit else Spacing(m, 2 * unit)
  }

  // How many spacings the nearest double has, ties to even.
  function NearestCount(m: nat, u: nat): nat
    requires u > 0
  {
    var q, r := m / u, m % u;
    if 2 * r < u || (2 * r == u && q % 2 == 0) then q else q + 1
  }

  // The double nearest to a natural number.
  function NearestDouble(m: nat): int {
    NearestCount(m, Spacing(m, 1)) * Spacing(m, 1)
  }

  // No double is nearer: the result is a multiple of the spacing, off by at most half of it, and in the
  // middle it is the even multiple.
  lemma NearestIsNearest(m: nat)
    ensures var u, d := Spacing(m, 1), NearestDouble(m);
            && d % u == 0
            && 2 * d - u <= 2 * m <= 2 * d + u
            && (2 * m == 2 * d - u || 2 * m == 2 * d + u ==> (d / u) % 2 == 0)
  {
    var u := Spacing(m, 1);
    CountIsNearest(m, u);
    MultipleOf(NearestCount(m, u), u);
  }

  lemma CountIsNearest(m: nat, u: nat)
    requires u > 0
    ensures var k := NearestCount(m, u);
            && 2 * (k * u) - u <= 2 * m <= 2 * (k * u) + u
            && (2 * m == 2 * (k * u) - u || 2 * m == 2 * (k * u) + u ==> k % 2 == 0)
  {
    var q, r := m / u, m % u;
    OneMore(q, u);
    NearerOf(m, q * u, u, r, NearestCount(m, u) * u);
  }

  lemma OneMore(q: nat, u: nat)
    ensures (q + 1) * u == q * u + u
  {
  }

  lemma NearerOf(m: int, low: int, u: int, r: int, d: int)
    requires m == low + r && 0 <= r < u && (d == low || d == low + u)
    requires d == low ==> 2 * r <= u
    requires d == low + u ==> 2 * r >= u
    ensures 2 * d - u <= 2 * m <= 2 * d + u
    ensures 2 * m == 2 * d - u || 2 * m == 2 * d + u ==> 2 * r == u
  {
  }

  lemma MultipleOf(q: nat, u: nat)
    requires u > 0
    ensures (q * u) % u == 0 && (q * u) / u == q
  {
    QuotientOf(q * u, u, q);
  }

  lemma QuotientOf(x: nat, u: nat, q: nat)
    requires u > 0 && x == q * u
    ensures x / u == q && x % u == 0
  {
    var d, r := x / u, x % u;
    assert x == d * u + r;
    if d < q {
      Scaled(d + 1, q, u);
    } else if d > q {
      Scaled(q + 1, d, u);
    }
  }

  lemma Scaled(a: nat, b: nat, u: nat)
    requires a <= b
    ensures a * u <= b * u
  {
  }

  // json decodes a number into a float64
  function JsonNumber(n: int): int {
    if n < 0 then 0 - NearestDouble(-n) else NearestDouble(n)
  }

  // A number survives exactly when it is a multiple of the spacing of doubles at its size.
  lemma DoubleIsExactIff(m: nat)
    ensures NearestDouble(m) == m <==> m % Spacing(m, 1) == 0
    ensures m <= TWO_53 ==> NearestDouble(m) == m
  {
    var u := Spacing(m, 1);
    var q, r := m / u, m % u;
    assert m == q * u + r;
    assert (q + 1) * u == q * u + u;
    if m == TWO_53 {
      assert u == Spacing(m, 2) == 2;
    }
  }

  // The first integer that does not survive.
  lemma FirstInexactTotal()
    ensures JsonNumber(TWO_53 + 1) == TWO_53
  {
    var m := TWO_53 + 1;
    assert Spacing(m, 1) == Spacing(m, 2) == 2;
  }

  // A decoded value of a result row.
  datatype Json = Double(value: int) | Digits(text: string) | OtherJson

  function ParseInt(s: string): Option<int> {
    var digits := if s != "" && (s[0] == '-' || s[0] == '+') then s[1..] else s;
    if digits == "" || !AllDigits(digits) then None
    else
      var n: int := if s[0] == '-' then 0 - Undec(digits) else Undec(digits);
      if InInt64(n) then Some(n) else None
  }

  function Int64FromNumber(v: Json): int {
    match v
    case Double(n) => n
    case Digits(s) => ParseInt(s).GetOr(0)
    case OtherJson => 0
  }

  // A number's own text reads back, when it is in range.
  lemma ParseIntReads(n: int)
    ensures ParseInt(IntText(n)) == if InInt64(n) then Some(n) else None
  {
    var size: nat := if n < 0 then -n else n;
    UndecDec(size);
    if n < 0 {
      assert IntText(n)[0] == '-' && IntText(n)[1..] == Dec(size);
    } else {
      assert IntText(n) == Dec(size) && IsDigit(Dec(size)[0]);
    }
  }

  lemma NumbersRead(n: int)
    ensures Int64FromNumber(Double(n)) == n
    ensures Int64FromNumber(Digits(IntText(n))) == if InInt64(n) then n else 0
  {
    ParseIntReads(n);
  }

  // ---------- query: following the pages of a result ----------

  datatype Reply<T> = Page(data: seq<T>, more: bool, error: bool) | Lost

  // Reply n is the last page, and nothing failed on the way there.
  ghost predicate EndsAt<T>(replies: seq<Reply<T>>, n: nat) {
    && n < |replies| && replies[n].Page? && !replies[n].error && !replies[n].more
    && forall i :: 0 <= i < n ==> replies[i].Page? && !replies[i].error && replies[i].more
  }

  function DataOf<T>(replies: seq<Reply<T>>): seq<T> {
    if replies == [] then []
    else
      var last := replies[|replies| - 1];
      DataOf(replies[..|replies| - 1]) + if last.Page? then last.data else []
  }

  // The server's replies stand for the network; running out of them is a lost reply.
  method Query<T>(replies: seq<Reply<T>>) returns (rows: Option<seq<T>>, ghost n: nat)
    ensures rows.Some? ==> EndsAt(replies, n) && rows.value == DataOf(replies[..n + 1])
    ensures rows.None? ==> forall m: nat :: !EndsAt(replies, m)
  {
    var collected := [];
    for i := 0 to |replies|
      invariant forall j :: 0 <= j < i ==> replies[j].Page? && !replies[j].error && replies[j].more
      invariant collected == DataOf(replies[..i])
    {
      var payload := replies[i];
      assert replies[..i + 1][..i] == replies[..i];
      if payload.Lost? || payload.error {
        return None, i;
      }
      if |payload.data| > 0 {
        collected := collected + payload.data;
      }
      if !payload.more {
        return Some(collected), i;
      }
    }
    rows, n := None, |replies|;
  }

  // ---------- LoadAnalytics ----------

  datatype Totals = Totals(opens: int, clicks: int, delivered: int) {
    function Plus(o: Totals): Totals {
      Totals(opens + o.opens, clicks + o.clicks, delivered + o.delivered)
    }
  }

  function SumPerformance(rows: seq<PerformanceRow>): Totals {
    if rows == [] then Totals(0, 0, 0)
    else
      var t, r := SumPerformance(rows[..|rows| - 1]), rows[|rows| - 1];
      Totals(t.opens + r.opens, t.clicks + r.clicks, t.delivered + r.delivered)
  }

  function SumAnalytics(rows: seq<AnalyticsRow>): Totals {
    if rows == [] then Totals(0, 0, 0)
    else
      var t, r := SumAnalytics(rows[..|rows| - 1]), rows[|rows| - 1].counts;
      Totals(t.opens + r.opens, t.clicks + r.clicks, t.delivered + r.delivered)
  }

  // select coalesce(sum(...), 0), ...: one row of three JSON numbers
  function TotalsRow(rows: seq<PerformanceRow>): seq<Json> {
    var t := SumPerformance(rows);
    [Double(JsonNumber(t.opens)), Double(JsonNumber(t.clicks)), Double(JsonNumber(t.delivered))]
  }

  // The totals of the first row when the query ends, and none exactly when it does not.
  ghost predicate Loads(replies: seq<Reply<seq<Json>>>, totals: Option<Totals>) {
    && (forall n: nat :: EndsAt(replies, n) ==> totals == Some(ReadTotals(DataOf(replies[..n + 1]))))
    && (totals.None? <==> forall n: nat :: !EndsAt(replies, n))
  }

  method LoadAnalytics(replies: seq<Reply<seq<Json>>>) returns (totals: Option<Totals>)
    ensures Loads(replies, totals)
  {
    var rows, n := Query(replies);
    if rows.None? {
      return None;
    }
    assert forall m: nat :: EndsAt(replies, m) ==> m == n;
    totals := Some(ReadTotals(rows.value));
  }

  function ReadTotals(rows: seq<seq<Json>>): Totals {
    if |rows| > 0 && |rows[0]| >= 3
    then Totals(Int64FromNumber(rows[0][0]), Int64FromNumber(rows[0][1]), Int64FromNumber(rows[0][2]))
    else Totals(0, 0, 0)
  }

  lemma {:induction false} ServedSums(rows: seq<AnalyticsRow>)
    ensures SumPerformance(ServedPerformance(Mart(rows))) == SumAnalytics(rows)
  {
    if rows != [] {
      var init := rows[..|rows| - 1];
      ServedSums(init);
      var served := ServedPerformance(Mart(rows));
      assert served[..|served| - 1] == ServedPerformance(Mart(init));
    }
  }

  predicate Exact(n: int) {
    0 - TWO_53 <= n <= TWO_53
  }

  predicate InInt64(n: int) {
    -0x8000_0000_0000_0000 <= n < 0x8000_0000_0000_0000
  }

  // After a complete publish, whatever LoadAnalytics gives back once the sums have come through, in however
  // many pages, is the sums over platform_campaign_analytics as of the dbt run: exactly while they are
  // within 2^53, and rounded to doubles as long as those fit an int64.
  lemma PublishedTotals(before: Tables, rows: seq<AnalyticsRow>, engagement: seq<EngagementRow>,
                        replies: seq<Reply<seq<Json>>>, n: nat, totals: Option<Totals>)
    requires Loads(replies, totals) && EndsAt(replies, n)
    requires DataOf(replies[..n + 1]) == [TotalsRow(AfterStatements(before, Mart(rows), engagement, 4).performance)]
    ensures var sums := SumAnalytics(rows);
            var opens, clicks, delivered := JsonNumber(sums.opens), JsonNumber(sums.clicks), JsonNumber(sums.delivered);
            && (Exact(sums.opens) && Exact(sums.clicks) && Exact(sums.delivered) ==> totals == Some(sums))
            && (InInt64(opens) && InInt64(clicks) && InInt64(delivered) ==>
                  totals == Some(Totals(opens, clicks, delivered)))
  {
    ServedSums(rows);
    var sums := SumAnalytics(rows);
    JsonNumberIsExact(sums.opens);
    JsonNumberIsExact(sums.clicks);
    JsonNumberIsExact(sums.delivered);
  }

  lemma JsonNumberIsExact(n: int)
    ensures Exact(n) ==> JsonNumber(n) == n
  {
    if n < 0 {
      DoubleIsExactIff(-n);
    } else {
      DoubleIsExactIff(n);
    }
  }
}
