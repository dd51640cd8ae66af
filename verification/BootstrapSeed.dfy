// The rows that 02_platform_bootstrap.sql inserts into the tables the store writes: a legal start.
module BootstrapSeed {
  import opened Sequences
  import opened Text
  import opened Decimal
  import opened AppTables
  import opened StoreSpec
  import opened StoreFacts
  import opened StoreTheorems

  const ENVIRONMENT := "local"

  const FILTERS: seq<string> := ["All Contacts", "High Value", "Inactive", "Newly Verified"]

  const CAMPAIGNS: seq<string> :=
    [ "spring-capital-briefing", "monthly-security-digest", "product-unveiling-zenith",
      "quarterly-insight-report", "member-reengagement-arc" ]

  const FEATURED: seq<string> :=
    ["evelyn-sterling", "marcus-aurelius-ii", "julian-thorne", "amira-sterling", "noah-vesper", "lila-somerset"]

  // Segment labels and filter tags of the featured subscribers, in their order.
  const LABELS: seq<seq<string>> :=
    [ ["VVIP", "Q4 Launch"], ["Art Collector"], ["Board List", "Europe"], ["High Intent", "VIP"],
      ["New Investors", "APAC"], ["Legacy Circle"] ]

  // As positions in FILTERS.
  const TAGS: seq<seq<nat>> := [[1, 3], [2], [1], [1], [3], [2]]

  // ---------- lists numbered from 1 ----------

  // The ids of one environment, numbered in order.
  function Numbered(env: string, ids: seq<string>): map<Id, int> {
    if ids == [] then map[]
    else Numbered(env, ids[..|ids| - 1])[Id(env, ids[|ids| - 1]) := |ids|]
  }

  lemma {:induction false} NumberedIsOrdered(env: string, ids: seq<string>)
    requires Distinct(ids)
    ensures var orders := Numbered(env, ids);
            && Ordered(orders)
            && (forall k :: k in orders <==> k.environment == env && k.id in ids)
            && (forall k :: k in orders ==> orders[k] <= |ids|)
  {
    if ids != [] {
      var init, last := ids[..|ids| - 1], ids[|ids| - 1];
      assert ids == init + [last];
      NumberedIsOrdered(env, init);
    }
  }

  // ---------- generated subscribers ----------

  // format('%05s', n) pads with spaces.
  function Padded(s: string): string
    decreases 5 - |s|
  {
    if |s| >= 5 then s else Padded(" " + s)
  }

  function SeedMember(n: nat): string {
    "seed-member-" + Padded(Dec(n))
  }

  lemma {:induction false} PaddingTrims(s: string)
    ensures TrimLeft(Padded(s)) == TrimLeft(s)
    decreases 5 - |s|
  {
    if |s| < 5 {
      PaddingTrims(" " + s);
      assert (" " + s)[1..] == s;
    }
  }

  lemma SeedMembersAreDistinct(m: nat, n: nat)
    requires SeedMember(m) == SeedMember(n)
    ensures m == n
  {
    assert SeedMember(m)[12..] == Padded(Dec(m)) && SeedMember(n)[12..] == Padded(Dec(n));
    PaddingTrims(Dec(m));
    PaddingTrims(Dec(n));
    DecIsTrimmed(m);
    DecIsTrimmed(n);
    UndecDec(m);
    UndecDec(n);
  }

  lemma DecIsTrimmed(n: nat)
    ensures TrimLeft(Dec(n)) == Dec(n)
  {
    assert IsDigit(Dec(n)[0]);
  }

  // The first count of them, from 1001 up.
  function Generated(env: string, count: nat): map<Id, int> {
    if count == 0 then map[] else Generated(env, count - 1)[Id(env, SeedMember(count)) := 1000 + count]
  }

  ghost predicate IsGenerated(id: string, count: nat) {
    exists n: nat :: id == SeedMember(n) && n <= count
  }

  lemma AddGenerated(orders: map<Id, int>, env: string, count: nat)
    requires Ordered(orders) && forall k :: k in orders ==> k.environment == env && 1000 < orders[k] < 1000 + count
    ensures Ordered(orders[Id(env, SeedMember(count)) := 1000 + count])
  {
  }

  lemma {:induction false} GeneratedIsOrdered(env: string, count: nat)
    ensures var orders := Generated(env, count);
            && Ordered(orders)
            && (forall k :: k in orders ==> k.environment == env && 1000 < orders[k] <= 1000 + count)
            && (forall k :: k in orders ==> IsGenerated(k.id, count))
  {
    if count > 0 {
      GeneratedIsOrdered(env, count - 1);
      AddGenerated(Generated(env, count - 1), env, count);
    }
  }

  // None of the inserts meets a key that is there.
  lemma {:induction false} GeneratedKeysAreFresh(env: string, count: nat, n: nat)
    requires n > count
    ensures Id(env, SeedMember(n)) !in Generated(env, count)
  {
    GeneratedIsOrdered(env, count);
    if Id(env, SeedMember(n)) in Generated(env, count) {
      var m: nat :| SeedMember(n) == SeedMember(m) && m <= count;
      SeedMembersAreDistinct(m, n);
    }
  }

  // ---------- segments ----------

  function SegmentsOf(env: string, owners: seq<string>, labels: seq<seq<string>>): map<LabelId, int>
    requires |owners| == |labels|
  {
    if owners == [] then map[]
    else
      var n := |owners| - 1;
      WithSegments(SegmentsOf(env, owners[..n], labels[..n]), Id(env, owners[n]), labels[n])
  }

  lemma {:induction false} SegmentsAreListed(env: string, owners: seq<string>, labels: seq<seq<string>>)
    requires |owners| == |labels| && Distinct(owners)
    requires forall i :: 0 <= i < |labels| ==> Distinct(labels[i])
    ensures var segments := SegmentsOf(env, owners, labels);
            && (forall i :: 0 <= i < |owners| ==> ListsSegments(segments, Id(env, owners[i]), labels[i]))
            && (forall k :: k in segments ==> k.owner.environment == env && k.owner.id in owners)
  {
    if owners != [] {
      var n := |owners| - 1;
      var before, owner := SegmentsOf(env, owners[..n], labels[..n]), Id(env, owners[n]);
      assert owners == owners[..n] + [owners[n]];
      SegmentsAreListed(env, owners[..n], labels[..n]);
      SegmentsHold(before, owner, labels[n]);
      SegmentsMeaning(before, owner, labels[n]);
      forall i | 0 <= i < n
        ensures ListsSegments(SegmentsOf(env, owners, labels), Id(env, owners[i]), labels[i])
      {
        assert ListsSegments(before, Id(env, owners[..n][i]), labels[..n][i]);
      }
    }
  }

  // ---------- the seed ----------

  function SubscriberOrdersOf(env: string, featured: seq<string>, count: nat): map<Id, int> {
    Generated(env, count) + Numbered(env, featured)
  }

  function AssignmentsOf(env: string, owners: seq<string>, filters: seq<string>, tags: seq<seq<nat>>): set<LabelId>
    requires |owners| == |tags|
    requires forall i, j :: 0 <= i < |tags| && 0 <= j < |tags[i]| ==> tags[i][j] < |filters|
  {
    set i, j | 0 <= i < |tags| && 0 <= j < |tags[i]| :: LabelId(Id(env, owners[i]), filters[tags[i][j]])
  }

  function CampaignsOf(orders: map<Id, int>, campaign: Id -> Campaign): map<Id, Campaign> {
    map k | k in orders :: campaign(k).(displayOrder := orders[k])
  }

  function SubscribersOf(orders: map<Id, int>, subscriber: Id -> Subscriber): map<Id, Subscriber> {
    map k | k in orders :: subscriber(k).(displayOrder := orders[k])
  }

  lemma OrdersAreGiven(orders: map<Id, int>, campaign: Id -> Campaign, subscriber: Id -> Subscriber)
    ensures CampaignOrders(CampaignsOf(orders, campaign)) == orders
    ensures SubscriberOrders(SubscribersOf(orders, subscriber)) == orders
  {
  }

  // The tables with the given lists, and any other columns.
  function TablesOf(env: string, filters: seq<string>, campaigns: seq<string>, featured: seq<string>, count: nat,
                    labels: seq<seq<string>>, tags: seq<seq<nat>>,
                    campaign: Id -> Campaign, analytics: Id -> CampaignAnalytics, subscriber: Id -> Subscriber): Tables
    requires |featured| == |labels| == |tags|
    requires forall i, j :: 0 <= i < |tags| && 0 <= j < |tags[i]| ==> tags[i][j] < |filters|
  {
    var numbers, orders := Numbered(env, campaigns), SubscriberOrdersOf(env, featured, count);
    Tables(
      {env},
      CampaignsOf(numbers, campaign),
      map k | k in numbers :: analytics(k),
      SubscribersOf(orders, subscriber),
      SegmentsOf(env, featured, labels),
      Numbered(env, filters),
      AssignmentsOf(env, featured, filters, tags))
  }

  lemma SubscriberOrdersAreOrdered(env: string, featured: seq<string>, count: nat)
    requires Distinct(featured) && |featured| <= 1000
    ensures Ordered(SubscriberOrdersOf(env, featured, count))
    ensures forall k :: k in SubscriberOrdersOf(env, featured, count) ==> k.environment == env
    ensures forall id :: id in featured ==> Id(env, id) in SubscriberOrdersOf(env, featured, count)
  {
    GeneratedIsOrdered(env, count);
    NumberedIsOrdered(env, featured);
  }

  lemma SegmentsAreNumbered(t: Tables, env: string, featured: seq<string>, labels: seq<seq<string>>)
    requires |featured| == |labels| && Distinct(featured) && forall i :: 0 <= i < |labels| ==> Distinct(labels[i])
    requires t.segments == SegmentsOf(env, featured, labels)
    requires forall k :: k in t.subscribers ==> k.environment == env
    ensures SegmentsNumbered(t)
  {
    SegmentsAreListed(env, featured, labels);
    forall owner | owner in t.subscribers
      ensures exists list :: ListsSegments(t.segments, owner, list)
    {
      if owner.id in featured {
        var i :| 0 <= i < |featured| && featured[i] == owner.id;
        assert ListsSegments(t.segments, owner, labels[i]);
      } else {
        assert ListsSegments(t.segments, owner, []);
      }
    }
  }

  lemma AssignmentsHaveParents(env: string, owners: seq<string>, filters: seq<string>, tags: seq<seq<nat>>, k: LabelId)
    requires |owners| == |tags|
    requires forall i, j :: 0 <= i < |tags| && 0 <= j < |tags[i]| ==> tags[i][j] < |filters|
    requires k in AssignmentsOf(env, owners, filters, tags)
    ensures k.owner.environment == env && k.owner.id in owners && k.name in filters
  {
    var i, j :| 0 <= i < |tags| && 0 <= j < |tags[i]| && k == LabelId(Id(env, owners[i]), filters[tags[i][j]]);
  }

  lemma TablesAreOrdered(env: string, filters: seq<string>, campaigns: seq<string>, featured: seq<string>, count: nat,
                         labels: seq<seq<string>>, tags: seq<seq<nat>>,
                         campaign: Id -> Campaign, analytics: Id -> CampaignAnalytics, subscriber: Id -> Subscriber)
    requires Distinct(filters) && Distinct(campaigns) && Distinct(featured) && |featured| <= 1000
    requires |featured| == |labels| == |tags| && forall i :: 0 <= i < |labels| ==> Distinct(labels[i])
    requires forall i, j :: 0 <= i < |tags| && 0 <= j < |tags[i]| ==> tags[i][j] < |filters|
    ensures var t := TablesOf(env, filters, campaigns, featured, count, labels, tags, campaign, analytics, subscriber);
            Ordered(CampaignOrders(t.campaigns)) && Ordered(SubscriberOrders(t.subscribers)) && Ordered(t.filters)
  {
    var t := TablesOf(env, filters, campaigns, featured, count, labels, tags, campaign, analytics, subscriber);
    NumberedIsOrdered(env, campaigns);
    NumberedIsOrdered(env, filters);
    SubscriberOrdersAreOrdered(env, featured, count);
    OrdersAreGiven(Numbered(env, campaigns), campaign, subscriber);
    OrdersAreGiven(SubscriberOrdersOf(env, featured, count), campaign, subscriber);
  }

  // Every key of the given tables is in the one environment, with its parents.
  lemma ParentsAreThere(t: Tables, env: string, filters: seq<string>, featured: seq<string>,
                        labels: seq<seq<string>>, tags: seq<seq<nat>>)
    requires |featured| == |labels| == |tags| && forall i :: 0 <= i < |labels| ==> Distinct(labels[i])
    requires Distinct(filters) && Distinct(featured)
    requires forall i, j :: 0 <= i < |tags| && 0 <= j < |tags[i]| ==> tags[i][j] < |filters|
    requires env in t.environments && t.analytics.Keys == t.campaigns.Keys
    requires forall k :: k in t.campaigns ==> k.environment == env
    requires forall k :: k in t.subscribers ==> k.environment == env
    requires forall id :: id in featured ==> Id(env, id) in t.subscribers
    requires t.segments == SegmentsOf(env, featured, labels) && t.filters == Numbered(env, filters)
    requires t.assignments == AssignmentsOf(env, featured, filters, tags)
    ensures ForeignKeys(t)
  {
    NumberedIsOrdered(env, filters);
    SegmentsAreListed(env, featured, labels);
    forall k | k in t.assignments
      ensures k.owner in t.subscribers && Id(k.owner.environment, k.name) in t.filters
    {
      AssignmentsHaveParents(env, featured, filters, tags, k);
    }
  }

  lemma TablesAreLegal(env: string, filters: seq<string>, campaigns: seq<string>, featured: seq<string>, count: nat,
                       labels: seq<seq<string>>, tags: seq<seq<nat>>,
                       campaign: Id -> Campaign, analytics: Id -> CampaignAnalytics, subscriber: Id -> Subscriber)
    requires Distinct(filters) && Distinct(campaigns) && Distinct(featured) && |featured| <= 1000
    requires |featured| == |labels| == |tags| && forall i :: 0 <= i < |labels| ==> Distinct(labels[i])
    requires forall i, j :: 0 <= i < |tags| && 0 <= j < |tags[i]| ==> tags[i][j] < |filters|
    ensures Legal(TablesOf(env, filters, campaigns, featured, count, labels, tags, campaign, analytics, subscriber))
  {
    var t := TablesOf(env, filters, campaigns, featured, count, labels, tags, campaign, analytics, subscriber);
    TablesAreOrdered(env, filters, campaigns, featured, count, labels, tags, campaign, analytics, subscriber);
    NumberedIsOrdered(env, campaigns);
    SubscriberOrdersAreOrdered(env, featured, count);
    SegmentsAreNumbered(t, env, featured, labels);
    ParentsAreThere(t, env, filters, featured, labels, tags);
  }

  // ---------- the seed's own lists ----------

  lemma DistinctByFirst(ids: seq<string>)
    requires forall i :: 0 <= i < |ids| ==> ids[i] != ""
    requires forall i, j :: 0 <= i < j < |ids| ==> ids[i][0] != ids[j][0]
    ensures Distinct(ids)
  {
  }

  lemma FiltersAreDistinct()
    ensures Distinct(FILTERS)
  {
    DistinctByFirst(FILTERS);
  }

  lemma FeaturedAreDistinct()
    ensures Distinct(FEATURED)
  {
    DistinctByFirst(FEATURED);
  }

  // The generated subscribers do not meet the featured ones either.
  lemma MembersAreNotFeatured(n: nat)
    ensures SeedMember(n) !in FEATURED
  {
    assert SeedMember(n)[0] == 's';
    assert forall i :: 0 <= i < |FEATURED| ==> FEATURED[i][0] != 's';
  }

  lemma CampaignsAreDistinct()
    ensures Distinct(CAMPAIGNS)
  {
    assert CAMPAIGNS[1][1] == 'o' && CAMPAIGNS[4][1] == 'e';
    assert CAMPAIGNS[0][0] == 's' && CAMPAIGNS[1][0] == 'm' && CAMPAIGNS[2][0] == 'p';
    assert CAMPAIGNS[3][0] == 'q' && CAMPAIGNS[4][0] == 'm';
  }

  lemma LabelsAreDistinct(i: nat)
    requires i < |LABELS|
    ensures Distinct(LABELS[i])
  {
    assert "VVIP"[1] == 'V' && "Q4 Launch"[1] == '4';
    assert "Board List"[0] == 'B' && "Europe"[0] == 'E';
    assert "High Intent"[0] == 'H' && "VIP"[0] == 'V';
    assert "New Investors"[0] == 'N' && "APAC"[0] == 'A';
  }

  // Right after the reseed, with count generated subscribers (12836 in the script) and whatever the other
  // columns hold, the tables are legal.
  lemma SeedIsLegal(count: nat, campaign: Id -> Campaign, analytics: Id -> CampaignAnalytics,
                    subscriber: Id -> Subscriber)
    ensures |FEATURED| == |LABELS| == |TAGS|
    ensures forall i, j :: 0 <= i < |TAGS| && 0 <= j < |TAGS[i]| ==> TAGS[i][j] < |FILTERS|
    ensures Legal(TablesOf(ENVIRONMENT, FILTERS, CAMPAIGNS, FEATURED, count, LABELS, TAGS,
                           campaign, analytics, subscriber))
  {
    FiltersAreDistinct();
    CampaignsAreDistinct();
    FeaturedAreDistinct();
    forall i | 0 <= i < |LABELS|
      ensures Distinct(LABELS[i])
    {
      LabelsAreDistinct(i);
    }
    TablesAreLegal(ENVIRONMENT, FILTERS, CAMPAIGNS, FEATURED, count, LABELS, TAGS, campaign, analytics, subscriber);
  }
}
