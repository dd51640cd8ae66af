// The keyed tables of appdb that interaction commands write, and what makes their contents legal.
module AppTables {
  import opened Wrappers

  const MAX_INT4 := 0x7FFF_FFFF
  const MIN_INT4 := -0x8000_0000

  predicate IsInt4(n: int) {
    MIN_INT4 <= n <= MAX_INT4
  }

  // Two-column primary key (environment, id).
  datatype Id = Id(environment: string, id: string)

  // Three-column primary key (environment, subscriber_id, label).
  datatype LabelId = LabelId(owner: Id, name: string)

  datatype Campaign = Campaign(
    title: string, summary: string, status: string, audienceCount: int, audienceLabel: string,
    actionLabel: string, tone: string, displayOrder: int)

  datatype CampaignAnalytics = CampaignAnalytics(
    delivered: int, opens: int, clicks: int, bounces: int,
    firstSeenAt: Option<int>, lastSeenAt: Option<int>, refreshedAt: int)

  // A row of platform_campaign_analytics with its key.
  datatype AnalyticsRow = AnalyticsRow(key: Id, counts: CampaignAnalytics)

  datatype Subscriber = Subscriber(
    name: string, email: string, securityStatus: string, createdAt: int, lastInteractionAt: Option<int>,
    tone: string, isFeatured: bool, displayOrder: int)

  datatype Tables = Tables(
    environments: set<string>,
    campaigns: map<Id, Campaign>,
    analytics: map<Id, CampaignAnalytics>,
    subscribers: map<Id, Subscriber>,
    segments: map<LabelId, int>,
    filters: map<Id, int>,
    assignments: set<LabelId>)

  // ---------- foreign keys ----------

  ghost predicate ForeignKeys(t: Tables) {
    && (forall k :: k in t.campaigns ==> k.environment in t.environments)
    && (forall k :: k in t.analytics ==> k.environment in t.environments && k in t.campaigns)
    && (forall k :: k in t.subscribers ==> k.environment in t.environments)
    && (forall k :: k in t.segments ==> k.owner in t.subscribers)
    && (forall k :: k in t.filters ==> k.environment in t.environments)
    && (forall k :: k in t.assignments ==>
          k.owner in t.subscribers && Id(k.owner.environment, k.name) in t.filters)
  }

  // ---------- display orders ----------

  function CampaignOrders(campaigns: map<Id, Campaign>): map<Id, int> {
    map k | k in campaigns :: campaigns[k].displayOrder
  }

  function SubscriberOrders(subscribers: map<Id, Subscriber>): map<Id, int> {
    map k | k in subscribers :: subscribers[k].displayOrder
  }

  // Positive, and no two rows of an environment share one.
  ghost predicate Ordered(orders: map<Id, int>) {
    && (forall k :: k in orders ==> orders[k] >= 1)
    && (forall k, l :: k in orders && l in orders && k != l && k.environment == l.environment
          ==> orders[k] != orders[l])
  }

  function Maximum(s: set<int>): (m: int)
    requires exists x :: x in s
    ensures m in s && forall x :: x in s ==> x <= m
  {
    MaximumExists(s);
    var m :| m in s && forall x :: x in s ==> x <= m;
    m
  }

  lemma {:induction false} MaximumExists(s: set<int>)
    requires exists x :: x in s
    ensures exists m :: m in s && forall x :: x in s ==> x <= m
  {
    var y :| y in s;
    var rest := s - {y};
    assert forall x :: x in s ==> x == y || x in rest;
    if exists x :: x in rest {
      MaximumExists(rest);
      var m :| m in rest && forall x :: x in rest ==> x <= m;
      LargerOf(s, rest, m, y);
    }
  }

  lemma LargerOf(s: set<int>, rest: set<int>, m: int, y: int)
    requires m in s && y in s && (forall x :: x in rest ==> x <= m) && forall x :: x in s ==> x == y || x in rest
    ensures exists top :: top in s && forall x :: x in s ==> x <= top
  {
    var top := if m <= y then y else m;
    assert top in s && forall x :: x in s ==> x <= top;
  }

  // select coalesce(max(display_order), 0) + 1 ... where environment = $1
  function NextOrder(orders: map<Id, int>, environment: string): (next: int)
    ensures forall k :: k in orders && k.environment == environment ==> orders[k] < next
    ensures next == 1 || exists k :: k in orders && k.environment == environment && orders[k] == next - 1
  {
    var used := set k | k in orders && k.environment == environment :: orders[k];
    assert forall k :: k in orders && k.environment == environment ==> orders[k] in used;
    if exists x :: x in used then Maximum(used) + 1 else 1
  }

  lemma NextOrderIsPositive(orders: map<Id, int>, environment: string)
    requires Ordered(orders)
    ensures NextOrder(orders, environment) >= 1
  {
  }

  lemma InsertKeepsOrdered(orders: map<Id, int>, key: Id)
    requires Ordered(orders)
    ensures key !in orders ==> Ordered(orders[key := NextOrder(orders, key.environment)])
  {
    NextOrderIsPositive(orders, key.environment);
  }

  // ---------- segments ----------

  // An owner's segments are exactly these labels, numbered from 1 in this order.
  ghost predicate ListsSegments(segments: map<LabelId, int>, owner: Id, labels: seq<string>) {
    && (forall i :: 0 <= i < |labels| ==>
          LabelId(owner, labels[i]) in segments && segments[LabelId(owner, labels[i])] == i + 1)
    && (forall k :: k in segments && k.owner == owner ==> k.name in labels)
  }

  ghost predicate SegmentsNumbered(t: Tables) {
    forall owner :: owner in t.subscribers ==> exists labels :: ListsSegments(t.segments, owner, labels)
  }

  ghost predicate Legal(t: Tables) {
    && ForeignKeys(t)
    && Ordered(CampaignOrders(t.campaigns))
    && Ordered(SubscriberOrders(t.subscribers))
    && Ordered(t.filters)
    && SegmentsNumbered(t)
  }
}
