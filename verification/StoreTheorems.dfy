// What runs of store commands keep, and what an accepted subscriber leaves in the tables.
module StoreTheorems {
  import opened Sequences
  import opened Text
  import opened Wrappers
  import opened Commands
  import opened AppTables
  import opened StoreSpec
  import opened StoreFacts

  // ---------- one table at a time ----------

  lemma CampaignUpsertKeepsOrders(campaigns: map<Id, Campaign>, key: Id, r: Request)
    requires r.Brief? && Ordered(CampaignOrders(campaigns))
    ensures var order := OrderFor(CampaignOrders(campaigns), key);
            Ordered(CampaignOrders(UpsertCampaign(campaigns, key, CampaignRow(r, order))))
  {
    var orders := CampaignOrders(campaigns);
    var after := CampaignOrders(UpsertCampaign(campaigns, key, CampaignRow(r, OrderFor(orders, key))));
    InsertKeepsOrdered(orders, key);
    assert after == if key in orders then orders else orders[key := NextOrder(orders, key.environment)];
  }

  lemma ScheduleKeepsOrders(campaigns: map<Id, Campaign>, key: Id)
    ensures CampaignOrders(ScheduleCampaign(campaigns, key)) == CampaignOrders(campaigns)
  {
  }

  lemma SubscriberUpsertKeepsOrders(subscribers: map<Id, Subscriber>, key: Id, r: Request, instant: int)
    requires r.Enrol? && Ordered(SubscriberOrders(subscribers))
    ensures var order := OrderFor(SubscriberOrders(subscribers), key);
            Ordered(SubscriberOrders(UpsertSubscriber(subscribers, key, SubscriberRow(r, order, instant))))
  {
    var orders := SubscriberOrders(subscribers);
    var after := SubscriberOrders(UpsertSubscriber(subscribers, key, SubscriberRow(r, OrderFor(orders, key), instant)));
    InsertKeepsOrdered(orders, key);
    assert after == if key in orders then orders else orders[key := NextOrder(orders, key.environment)];
  }

  // Ensuring filters keeps every existing order, adds exactly the missing tags, and keeps the orders legal.
  lemma {:induction false} FiltersMeaning(filters: map<Id, int>, env: string, tags: seq<string>)
    requires CleanTags(tags)
    ensures var after := WithFilters(filters, env, tags);
            && (forall k :: k in after <==> k in filters || (k.environment == env && k.id in tags))
            && (forall k :: k in filters ==> after[k] == filters[k])
            && (Ordered(filters) ==> Ordered(after))
  {
    if tags != [] {
      var init, tag := tags[..|tags| - 1], tags[|tags| - 1];
      FiltersMeaning(filters, env, init);
      TrimmedIsFixed(tag);
      assert forall name :: name in tags <==> name in init || name == tag;
      var sofar := WithFilters(filters, env, init);
      if Ordered(filters) {
        InsertKeepsOrdered(sofar, Id(env, tag));
      }
    }
  }

  lemma {:induction false} SegmentsMeaning(segments: map<LabelId, int>, owner: Id, labels: seq<string>)
    requires Distinct(labels) && forall k :: k in segments ==> k.owner != owner
    ensures ListsSegments(WithSegments(segments, owner, labels), owner, labels)
  {
    SegmentsHold(segments, owner, labels);
    if labels != [] {
      var init, last := labels[..|labels| - 1], labels[|labels| - 1];
      SegmentsMeaning(segments, owner, init);
      var before := WithSegments(segments, owner, init);
      forall i | 0 <= i < |labels|
        ensures WithSegments(segments, owner, labels)[LabelId(owner, labels[i])] == i + 1
      {
        if i < |init| {
          assert labels[i] == init[i] && labels[i] != last;
        }
      }
    }
  }

  lemma OtherSegmentsKept(segments: map<LabelId, int>, owner: Id, labels: seq<string>, other: Id)
    requires other != owner
    ensures var after := WithSegments(WithoutOwner(segments, owner), owner, labels);
            forall k: LabelId :: k.owner == other ==>
              (k in after <==> k in segments) && (k in after ==> after[k] == segments[k])
  {
    SegmentsHold(WithoutOwner(segments, owner), owner, labels);
  }

  // ---------- what an accepted subscriber leaves behind ----------

  ghost predicate SameForOthers(t: Tables, t': Tables, key: Id) {
    && (forall k :: k != key ==> (k in t'.subscribers <==> k in t.subscribers))
    && (forall k :: k != key && k in t.subscribers ==> t'.subscribers[k] == t.subscribers[k])
    && (forall k: LabelId :: k.owner != key ==> (k in t'.segments <==> k in t.segments))
    && (forall k: LabelId :: k.owner != key && k in t.segments ==> t'.segments[k] == t.segments[k])
    && (forall k: LabelId :: k.owner != key ==> (k in t'.assignments <==> k in t.assignments))
  }

  lemma SubscriberMeaning(t: Tables, env: string, r: Request, instant: int)
    requires r.Enrol? && CleanTags(r.tags) && SubscriberAccepted(t, env, r)
    ensures var key, t' := Id(env, r.id), SubscriberWritten(t, env, r, instant);
            && key in t'.subscribers
            && ListsSegments(t'.segments, key, r.labels)
            && (forall tag :: LabelId(key, tag) in t'.assignments <==> tag in r.tags)
            && (forall k :: k in t'.filters <==> k in t.filters || (k.environment == env && k.id in r.tags))
            && (forall k :: k in t.filters ==> t'.filters[k] == t.filters[k])
            && SameForOthers(t, t', key)
            && t'.campaigns == t.campaigns && t'.analytics == t.analytics && t'.environments == t.environments
    ensures var key, t' := Id(env, r.id), SubscriberWritten(t, env, r, instant);
            key in t.subscribers ==>
              && t'.subscribers[key].displayOrder == t.subscribers[key].displayOrder
              && t'.subscribers[key].createdAt == t.subscribers[key].createdAt
  {
    var key := Id(env, r.id);
    SegmentsMeaning(WithoutOwner(t.segments, key), key, r.labels);
    SegmentsHold(WithoutOwner(t.segments, key), key, r.labels);
    FiltersMeaning(t.filters, env, r.tags);
  }

  // What the subscriber's own row holds: the request, an existing order and creation time or new ones.
  lemma SubscriberRowMeaning(t: Tables, env: string, r: Request, instant: int)
    requires r.Enrol? && Ordered(SubscriberOrders(t.subscribers))
    ensures var key, row := Id(env, r.id), SubscriberWritten(t, env, r, instant).subscribers[Id(env, r.id)];
            && row.name == r.name && row.email == r.email
            && row.securityStatus == r.securityStatus && row.tone == r.tone
            && row.isFeatured && row.lastInteractionAt == Some(instant)
            && (if key in t.subscribers
                then && row.displayOrder == t.subscribers[key].displayOrder
                     && row.createdAt == t.subscribers[key].createdAt
                else && row.createdAt == instant
                     && forall k :: k in t.subscribers && k.environment == env ==>
                          t.subscribers[k].displayOrder < row.displayOrder)
  {
    var orders, next := SubscriberOrders(t.subscribers), NextOrder(SubscriberOrders(t.subscribers), env);
    assert forall k :: k in t.subscribers && k.environment == env ==> k in orders && orders[k] < next;
  }

  // What a brief leaves: its own row in the campaign table, counters at zero unless there were some, and
  // everything else as it was.
  lemma BriefMeaning(t: Tables, env: string, r: Request, instant: int)
    requires r.Brief?
    ensures var key, t' := Id(env, r.id), StateAfter(t, env, r, instant, 2);
            && t'.campaigns.Keys == t.campaigns.Keys + {key} && t'.analytics.Keys == t.analytics.Keys + {key}
            && (forall k :: k in t.campaigns && k != key ==> t'.campaigns[k] == t.campaigns[k])
            && (forall k :: k in t.analytics ==> t'.analytics[k] == t.analytics[k])
            && (key !in t.analytics ==> t'.analytics[key] == CampaignAnalytics(0, 0, 0, 0, None, None, instant))
            && t' == t.(campaigns := t'.campaigns, analytics := t'.analytics)
  {
    BriefSteps(t, env, r, instant);
  }

  lemma CampaignRowMeaning(t: Tables, env: string, r: Request)
    requires r.Brief? && Ordered(CampaignOrders(t.campaigns))
    ensures var key, row := Id(env, r.id), BriefUpserted(t, env, r).campaigns[Id(env, r.id)];
            && row.title == r.title && row.summary == r.summary && row.status == r.status && row.tone == r.tone
            && row.audienceCount == r.audienceCount
            && row.audienceLabel == r.audienceLabel && row.actionLabel == r.actionLabel
            && (if key in t.campaigns
                then row.displayOrder == t.campaigns[key].displayOrder
                else forall k :: k in t.campaigns && k.environment == env ==>
                       t.campaigns[k].displayOrder < row.displayOrder)
  {
    var orders, next := CampaignOrders(t.campaigns), NextOrder(CampaignOrders(t.campaigns), env);
    assert forall k :: k in t.campaigns && k.environment == env ==> k in orders && orders[k] < next;
  }

  // A launch rewrites four texts of its campaign and nothing else.
  lemma LaunchMeaning(t: Tables, env: string, id: string, instant: int)
    requires Id(env, id) in t.campaigns
    ensures var key, t' := Id(env, id), StateAfter(t, env, Launch(id), instant, 1);
            && t' == t.(campaigns := t'.campaigns) && t'.campaigns.Keys == t.campaigns.Keys
            && (forall k :: k in t.campaigns && k != key ==> t'.campaigns[k] == t.campaigns[k])
            && t'.campaigns[key] == Campaign(t.campaigns[key].title, "Test send queued just now", "Scheduled",
                 t.campaigns[key].audienceCount, t.campaigns[key].audienceLabel, "Inspect performance", "primary",
                 t.campaigns[key].displayOrder)
  {
  }

  lemma NextOrderAfterInsert(filters: map<Id, int>, env: string, id: string)
    requires Ordered(filters) && Id(env, id) !in filters
    ensures NextOrder(filters[Id(env, id) := NextOrder(filters, env)], env) == NextOrder(filters, env) + 1
  {
    var key, next := Id(env, id), NextOrder(filters, env);
    var after := filters[key := next];
    InsertKeepsOrdered(filters, key);
    NextOrderIsPositive(filters, env);
    assert after[key] == next;
    assert forall k :: k in after && k.environment == env ==> after[k] <= next;
  }

  // There is room for the filters when every tag could still be numbered.
  lemma {:induction false} FiltersHaveRoom(filters: map<Id, int>, env: string, tags: seq<string>)
    requires CleanTags(tags) && Ordered(filters) && NextOrder(filters, env) + |tags| <= MAX_INT4 + 1
    ensures FiltersFit(filters, env, tags)
    ensures NextOrder(WithFilters(filters, env, tags), env) <= NextOrder(filters, env) + |tags|
  {
    if tags != [] {
      var init, tag := tags[..|tags| - 1], tags[|tags| - 1];
      FiltersHaveRoom(filters, env, init);
      FiltersMeaning(filters, env, init);
      TrimmedIsFixed(tag);
      var sofar := WithFilters(filters, env, init);
      if Id(env, tag) !in sofar {
        NextOrderAfterInsert(sofar, env, tag);
      }
    }
  }

  // With its environment present and integers to spare, a subscriber is accepted exactly when its
  // cleaned segment labels are pairwise distinct; repeated filter tags do no harm.
  lemma AcceptedIffDistinctLabels(t: Tables, env: string, r: Request)
    requires Legal(t) && r.Enrol? && CleanTags(r.tags) && env in t.environments
    requires NextOrder(SubscriberOrders(t.subscribers), env) <= MAX_INT4
    requires NextOrder(t.filters, env) + |r.tags| <= MAX_INT4 + 1
    ensures SubscriberAccepted(t, env, r) <==> Distinct(r.labels)
  {
    FiltersHaveRoom(t.filters, env, r.tags);
  }

  // ---------- every step keeps the tables legal ----------

  lemma BriefKeepsLegal(t: Tables, env: string, r: Request, instant: int)
    requires Legal(t) && r.Brief? && BriefAccepted(t, env, r)
    ensures Legal(BriefUpserted(t, env, r))
    ensures Legal(BriefSeeded(BriefUpserted(t, env, r), env, r, instant))
  {
    CampaignUpsertKeepsOrders(t.campaigns, Id(env, r.id), r);
  }

  lemma LaunchKeepsLegal(t: Tables, key: Id)
    requires Legal(t)
    ensures Legal(t.(campaigns := ScheduleCampaign(t.campaigns, key)))
  {
    ScheduleKeepsOrders(t.campaigns, key);
  }

  lemma EnrolKeepsSegmentsNumbered(t: Tables, env: string, r: Request, instant: int)
    requires SegmentsNumbered(t) && r.Enrol? && Distinct(r.labels)
    ensures SegmentsNumbered(SubscriberWritten(t, env, r, instant))
  {
    var key, t' := Id(env, r.id), SubscriberWritten(t, env, r, instant);
    forall owner | owner in t'.subscribers
      ensures exists labels :: ListsSegments(t'.segments, owner, labels)
    {
      if owner == key {
        SegmentsMeaning(WithoutOwner(t.segments, key), key, r.labels);
      } else {
        var labels :| ListsSegments(t.segments, owner, labels);
        OtherSegmentsKept(t.segments, key, r.labels, owner);
        assert ListsSegments(t'.segments, owner, labels);
      }
    }
  }

  lemma EnrolKeepsLegal(t: Tables, env: string, r: Request, instant: int)
    requires Legal(t) && r.Enrol? && CleanTags(r.tags) && SubscriberAccepted(t, env, r)
    ensures Legal(SubscriberWritten(t, env, r, instant))
  {
    SubscriberUpsertKeepsOrders(t.subscribers, Id(env, r.id), r, instant);
    FiltersMeaning(t.filters, env, r.tags);
    EnrolKeepsSegmentsNumbered(t, env, r, instant);
    EnrolKeepsForeignKeys(t, env, r, instant);
  }

  lemma EnrolKeepsForeignKeys(t: Tables, env: string, r: Request, instant: int)
    requires ForeignKeys(t) && r.Enrol? && CleanTags(r.tags) && SubscriberAccepted(t, env, r)
    ensures ForeignKeys(SubscriberWritten(t, env, r, instant))
  {
    SubscriberMeaning(t, env, r, instant);
    var t' := SubscriberWritten(t, env, r, instant);
    assert forall k :: k in t.subscribers ==> k in t'.subscribers;
  }

  lemma StepKeepsLegal(t: Tables, env: string, command: Command, now: Moment, n: nat, succeeded: bool, t': Tables)
    requires Legal(t) && StoreStep(t, env, RequestOf(command, now), now.instant, n, succeeded, t')
    ensures Legal(t')
  {
    var r := RequestOf(command, now);
    if n > 0 {
      match r {
        case Brief(_, _, _, _, _, _, _, _) => BriefKeepsLegal(t, env, r, now.instant);
        case Launch(id) => LaunchKeepsLegal(t, Id(env, id));
        case Enrol(_, _, _, _, _, _, _) =>
          EnrolTagsAreClean(command, now);
          EnrolKeepsLegal(t, env, r, now.instant);
      }
    }
  }

  // ---------- serial runs ----------

  // A finished call of Apply: which environment's server made it, and how it went.
  datatype Call = Call(environment: string, command: Command, now: Moment, writes: nat, succeeded: bool)

  ghost predicate Run(states: seq<Tables>, calls: seq<Call>) {
    && |states| == |calls| + 1
    && forall i :: 0 <= i < |calls| ==> CallStep(states[i], calls[i], states[i + 1])
  }

  ghost predicate CallStep(t: Tables, call: Call, t': Tables) {
    StoreStep(t, call.environment, RequestOf(call.command, call.now), call.now.instant, call.writes, call.succeeded, t')
  }

  // From a legal start every serial run of commands, failing anywhere, stays legal.
  lemma {:induction false} RunKeepsLegal(states: seq<Tables>, calls: seq<Call>)
    requires Run(states, calls) && Legal(states[0])
    ensures forall i :: 0 <= i < |states| ==> Legal(states[i])
    decreases |calls|
  {
    if calls != [] {
      var n, last := |calls| - 1, calls[|calls| - 1];
      RunKeepsLegal(states[..n + 1], calls[..n]);
      assert states[..n + 1][n] == states[n];
      assert CallStep(states[n], last, states[n + 1]);
      StepKeepsLegal(states[n], last.environment, last.command, last.now, last.writes, last.succeeded, states[n + 1]);
      forall i | 0 <= i < |states|
        ensures Legal(states[i])
      {
        if i <= n { assert states[..n + 1][i] == states[i]; }
      }
    }
  }

  // ---------- sending a failed command again ----------

  // Timestamps apart.
  function UntimedAnalytics(analytics: map<Id, CampaignAnalytics>): map<Id, CampaignAnalytics> {
    map k | k in analytics :: analytics[k].(refreshedAt := 0)
  }

  function UntimedSubscribers(subscribers: map<Id, Subscriber>): map<Id, Subscriber> {
    map k | k in subscribers :: subscribers[k].(createdAt := 0, lastInteractionAt := None)
  }

  function Untimed(t: Tables): Tables {
    t.(analytics := UntimedAnalytics(t.analytics), subscribers := UntimedSubscribers(t.subscribers))
  }

  lemma UpsertCampaignTwice(campaigns: map<Id, Campaign>, key: Id, r: Request, o: int, o': int)
    requires r.Brief?
    ensures UpsertCampaign(UpsertCampaign(campaigns, key, CampaignRow(r, o)), key, CampaignRow(r, o'))
         == UpsertCampaign(campaigns, key, CampaignRow(r, o))
  {
  }

  lemma SeedTwice(analytics: map<Id, CampaignAnalytics>, key: Id, first: int, second: int)
    ensures UntimedAnalytics(SeedAnalytics(SeedAnalytics(analytics, key, first), key, second))
         == UntimedAnalytics(SeedAnalytics(analytics, key, second))
  {
  }

  lemma UpsertSubscriberTwice(subscribers: map<Id, Subscriber>, key: Id, r: Request, o: int, o': int,
                              first: int, second: int)
    requires r.Enrol?
    ensures UntimedSubscribers(UpsertSubscriber(
              UpsertSubscriber(subscribers, key, SubscriberRow(r, o, first)), key, SubscriberRow(r, o', second)))
         == UntimedSubscribers(UpsertSubscriber(subscribers, key, SubscriberRow(r, o, second)))
  {
  }

  lemma SegmentsTwice(segments: map<LabelId, int>, owner: Id, labels: seq<string>)
    ensures WithoutOwner(WithSegments(WithoutOwner(segments, owner), owner, labels), owner)
         == WithoutOwner(segments, owner)
  {
    SegmentsHold(WithoutOwner(segments, owner), owner, labels);
  }

  lemma AssignmentsTwice(assignments: set<LabelId>, owner: Id, tags: seq<string>)
    ensures Unassigned(WithAssignments(Unassigned(assignments, owner), owner, tags), owner)
         == Unassigned(assignments, owner)
  {
  }

  lemma {:induction false} FiltersPresent(filters: map<Id, int>, env: string, tags: seq<string>)
    requires CleanTags(tags) && forall i :: 0 <= i < |tags| ==> Id(env, tags[i]) in filters
    ensures WithFilters(filters, env, tags) == filters
    ensures Ordered(filters) ==> FiltersFit(filters, env, tags)
  {
    if tags != [] {
      FiltersPresent(filters, env, tags[..|tags| - 1]);
      TrimmedIsFixed(tags[|tags| - 1]);
    }
  }

  lemma FiltersTwice(filters: map<Id, int>, env: string, tags: seq<string>)
    requires CleanTags(tags)
    ensures var after := WithFilters(filters, env, tags);
            WithFilters(after, env, tags) == after && (Ordered(filters) ==> FiltersFit(after, env, tags))
  {
    FiltersMeaning(filters, env, tags);
    FiltersPresent(WithFilters(filters, env, tags), env, tags);
  }

  lemma BriefAgain(t: Tables, env: string, r: Request, first: int, n: nat, second: int)
    requires r.Brief? && n <= 2
    ensures var t' := StateAfter(t, env, r, first, n);
            Untimed(StateAfter(t', env, r, second, 2)) == Untimed(StateAfter(t, env, r, second, 2))
  {
    if n > 0 {
      var key, orders := Id(env, r.id), CampaignOrders(t.campaigns);
      var t' := StateAfter(t, env, r, first, n);
      BriefSteps(t, env, r, first);
      BriefSteps(t, env, r, second);
      BriefSteps(t', env, r, second);
      UpsertCampaignTwice(t.campaigns, key, r, OrderFor(orders, key), OrderFor(CampaignOrders(t'.campaigns), key));
      SeedTwice(t.analytics, key, first, second);
    }
  }

  lemma EnrolAgain(t: Tables, env: string, r: Request, first: int, second: int)
    requires r.Enrol? && CleanTags(r.tags)
    ensures var t' := SubscriberWritten(t, env, r, first);
            Untimed(SubscriberWritten(t', env, r, second)) == Untimed(SubscriberWritten(t, env, r, second))
  {
    var key, orders := Id(env, r.id), SubscriberOrders(t.subscribers);
    var t' := SubscriberWritten(t, env, r, first);
    UpsertSubscriberTwice(t.subscribers, key, r, OrderFor(orders, key), OrderFor(SubscriberOrders(t'.subscribers), key),
                          first, second);
    SegmentsTwice(t.segments, key, r.labels);
    AssignmentsTwice(t.assignments, key, r.tags);
    FiltersTwice(t.filters, env, r.tags);
  }

  lemma AcceptedAgain(t: Tables, env: string, r: Request, instant: int, n: nat)
    requires Legal(t) && (r.Enrol? ==> CleanTags(r.tags))
    requires n <= |StorePlan(r)| && (n > 0 ==> StoreAccepted(t, env, r))
    ensures StoreAccepted(StateAfter(t, env, r, instant, n), env, r) <==> StoreAccepted(t, env, r)
  {
    if n > 0 {
      match r {
        case Brief(_, _, _, _, _, _, _, _) => BriefAcceptedAgain(t, env, r, instant, n);
        case Launch(_) =>
        case Enrol(_, _, _, _, _, _, _) => EnrolAcceptedAgain(t, env, r, instant);
      }
    }
  }

  lemma BriefAcceptedAgain(t: Tables, env: string, r: Request, instant: int, n: nat)
    requires Legal(t) && r.Brief? && 0 < n <= 2 && BriefAccepted(t, env, r)
    ensures BriefAccepted(StateAfter(t, env, r, instant, n), env, r)
  {
    BriefKeepsLegal(t, env, r, instant);
    BriefSteps(t, env, r, instant);
    assert OrderFits(CampaignOrders(BriefUpserted(t, env, r).campaigns), Id(env, r.id));
  }

  lemma EnrolAcceptedAgain(t: Tables, env: string, r: Request, instant: int)
    requires Legal(t) && r.Enrol? && CleanTags(r.tags) && SubscriberAccepted(t, env, r)
    ensures SubscriberAccepted(SubscriberWritten(t, env, r, instant), env, r)
  {
    EnrolKeepsLegal(t, env, r, instant);
    FiltersTwice(t.filters, env, r.tags);
  }

  lemma LaunchAgain(campaigns: map<Id, Campaign>, key: Id)
    ensures ScheduleCampaign(ScheduleCampaign(campaigns, key), key) == ScheduleCampaign(campaigns, key)
  {
  }

  lemma RowsAgain(t: Tables, env: string, r: Request, first: int, n: nat, second: int)
    requires n <= |StorePlan(r)| && (r.Enrol? ==> CleanTags(r.tags))
    ensures var t', all := StateAfter(t, env, r, first, n), |StorePlan(r)|;
            Untimed(StateAfter(t', env, r, second, all)) == Untimed(StateAfter(t, env, r, second, all))
  {
    match r {
      case Brief(_, _, _, _, _, _, _, _) => BriefAgain(t, env, r, first, n, second);
      case Launch(id) => LaunchAgain(t.campaigns, Id(env, id));
      case Enrol(_, _, _, _, _, _, _) => if n == 1 { EnrolAgain(t, env, r, first, second); }
      case Nothing =>
    }
  }

  // A call that stopped anywhere, then the same request with nothing in between: it is taken exactly
  // when it would have been at first, and leaves the same rows as one uninterrupted call.
  lemma RetryEqualsOnce(t: Tables, env: string, r: Request, first: int, n: nat, second: int)
    requires Legal(t) && (r.Enrol? ==> CleanTags(r.tags))
    requires n <= |StorePlan(r)| && (n > 0 ==> StoreAccepted(t, env, r))
    ensures var t', all := StateAfter(t, env, r, first, n), |StorePlan(r)|;
            && (StoreAccepted(t', env, r) <==> StoreAccepted(t, env, r))
            && Untimed(StateAfter(t', env, r, second, all)) == Untimed(StateAfter(t, env, r, second, all))
  {
    AcceptedAgain(t, env, r, first, n);
    RowsAgain(t, env, r, first, n, second);
  }
}
