// What the store commands ask for, and what they do to the tables, write by write.
module StoreSpec {
  import opened Sequences
  import opened Text
  import opened Wrappers
  import opened Commands
  import opened Names
  import opened AppTables

  // The clock of one call: to the second for generated ids, and the instant now() returns.
  datatype Moment = Moment(second: CivilSecond, instant: int)

  // A command as the store reads it: trimmed, and with the defaults filled in.
  datatype Request =
    | Brief(id: string, title: string, summary: string, status: string, audienceCount: int,
            audienceLabel: string, actionLabel: string, tone: string)
    | Launch(id: string)
    | Enrol(id: string, name: string, email: string, securityStatus: string, tone: string,
            labels: seq<string>, tags: seq<string>)
    | Nothing

  function CampaignIdOf(command: Command): string {
    FirstNonBlank([TrimSpace(command.campaignId), TrimSpace(command.subjectId)])
  }

  // The title defaults to defaultCampaignTitle(action); the only action that gets here trims to
  // "create-brief", whose title is "Create Brief".
  function BriefOf(command: Command): Request {
    var m := command.metadata;
    Brief(
      CampaignIdOf(command),
      MetadataString(m, "title", "Create Brief"),
      MetadataString(m, "summary", "Created from the operator console just now"),
      MetadataString(m, "status", "Draft"),
      MetadataInt(m, "audienceCount", 6400),
      MetadataString(m, "audienceLabel", "Curated audience pending review"),
      MetadataString(m, "actionLabel", "Launch test send"),
      MetadataString(m, "tone", "tertiary"))
  }

  function EnrolOf(command: Command, now: Moment): Request {
    var m := command.metadata;
    var id := SubscriberIdOf(command.subjectId, m, now.second);
    Enrol(
      id,
      MetadataString(m, "name", "Curated Contact"),
      MetadataString(m, "email", id + "@curator.local"),
      MetadataString(m, "securityStatus", "Encrypted"),
      MetadataString(m, "tone", "primary"),
      StringsOf(m, "assignedSegments", ["Priority Review"]),
      StringsOf(m, "filterTags", ["Newly Verified"]))
  }

  // The switch of Apply.
  function RequestOf(command: Command, now: Moment): Request {
    var action := TrimSpace(command.action);
    if action == "create-brief" then BriefOf(command)
    else if action == "launch-test-send" then Launch(CampaignIdOf(command))
    else if action == "add-subscriber" then EnrolOf(command, now)
    else Nothing
  }

  // ---------- campaigns ----------

  // A display order of zero and a missing row look the same to the caller.
  function LookupOrder(orders: map<Id, int>, key: Id): int {
    if key in orders then orders[key] else 0
  }

  function OrderFor(orders: map<Id, int>, key: Id): int {
    if LookupOrder(orders, key) != 0 then LookupOrder(orders, key) else NextOrder(orders, key.environment)
  }

  function CampaignRow(r: Request, order: int): Campaign
    requires r.Brief?
  {
    Campaign(r.title, r.summary, r.status, r.audienceCount, r.audienceLabel, r.actionLabel, r.tone, order)
  }

  // insert ... on conflict (environment, campaign_id) do update, which leaves display_order alone
  function UpsertCampaign(campaigns: map<Id, Campaign>, key: Id, row: Campaign): map<Id, Campaign> {
    campaigns[key := if key in campaigns then row.(displayOrder := campaigns[key].displayOrder) else row]
  }

  // insert ... on conflict (environment, campaign_id) do nothing
  function SeedAnalytics(analytics: map<Id, CampaignAnalytics>, key: Id, instant: int): map<Id, CampaignAnalytics> {
    if key in analytics then analytics
    else analytics[key := CampaignAnalytics(0, 0, 0, 0, None, None, instant)]
  }

  function BriefUpserted(t: Tables, env: string, r: Request): Tables
    requires r.Brief?
  {
    var key := Id(env, r.id);
    t.(campaigns := UpsertCampaign(t.campaigns, key, CampaignRow(r, OrderFor(CampaignOrders(t.campaigns), key))))
  }

  function BriefSeeded(t: Tables, env: string, r: Request, instant: int): Tables
    requires r.Brief?
  {
    t.(analytics := SeedAnalytics(t.analytics, Id(env, r.id), instant))
  }

  predicate BriefAccepted(t: Tables, env: string, r: Request)
    requires r.Brief?
  {
    && r.id != ""
    && env in t.environments
    && IsInt4(r.audienceCount)
    && OrderFits(CampaignOrders(t.campaigns), Id(env, r.id))
  }

  predicate OrderFits(orders: map<Id, int>, key: Id) {
    LookupOrder(orders, key) != 0 || NextOrder(orders, key.environment) <= MAX_INT4
  }

  function ScheduledRow(row: Campaign): Campaign {
    row.(status := "Scheduled", summary := "Test send queued just now",
         actionLabel := "Inspect performance", tone := "primary")
  }

  function ScheduleCampaign(campaigns: map<Id, Campaign>, key: Id): map<Id, Campaign> {
    if key in campaigns then campaigns[key := ScheduledRow(campaigns[key])] else campaigns
  }

  // ---------- subscribers ----------

  function SubscriberRow(r: Request, order: int, instant: int): Subscriber
    requires r.Enrol?
  {
    Subscriber(r.name, r.email, r.securityStatus, instant, Some(instant), r.tone, true, order)
  }

  // insert ... on conflict (environment, subscriber_id) do update, which leaves display_order and created_at alone
  function UpsertSubscriber(subscribers: map<Id, Subscriber>, key: Id, row: Subscriber): map<Id, Subscriber> {
    subscribers[key :=
      if key in subscribers
      then row.(displayOrder := subscribers[key].displayOrder, createdAt := subscribers[key].createdAt)
      else row]
  }

  function WithoutOwner(segments: map<LabelId, int>, owner: Id): map<LabelId, int> {
    map k | k in segments && k.owner != owner :: segments[k]
  }

  function Unassigned(assignments: set<LabelId>, owner: Id): set<LabelId> {
    set k | k in assignments && k.owner != owner
  }

  function WithSegments(segments: map<LabelId, int>, owner: Id, labels: seq<string>): map<LabelId, int> {
    if labels == [] then segments
    else WithSegments(segments, owner, labels[..|labels| - 1])[LabelId(owner, labels[|labels| - 1]) := |labels|]
  }

  // ensureFilterExistsTx
  function EnsureFilter(filters: map<Id, int>, env: string, tag: string): map<Id, int> {
    var key := Id(env, TrimSpace(tag));
    if key.id == "" || key in filters then filters else filters[key := NextOrder(filters, env)]
  }

  // Whether the order that ensureFilterExistsTx computes, if any, is in the range of the integer column.
  predicate FilterFits(filters: map<Id, int>, env: string, tag: string) {
    var key := Id(env, TrimSpace(tag));
    key.id == "" || OrderFits(filters, key)
  }

  function WithFilters(filters: map<Id, int>, env: string, tags: seq<string>): map<Id, int> {
    if tags == [] then filters
    else EnsureFilter(WithFilters(filters, env, tags[..|tags| - 1]), env, tags[|tags| - 1])
  }

  predicate FiltersFit(filters: map<Id, int>, env: string, tags: seq<string>) {
    tags == [] ||
    ( && FiltersFit(filters, env, tags[..|tags| - 1])
      && FilterFits(WithFilters(filters, env, tags[..|tags| - 1]), env, tags[|tags| - 1]))
  }

  function WithAssignments(assignments: set<LabelId>, owner: Id, tags: seq<string>): set<LabelId> {
    assignments + set tag | tag in tags :: LabelId(owner, tag)
  }

  function SubscriberWritten(t: Tables, env: string, r: Request, instant: int): Tables
    requires r.Enrol?
  {
    var key := Id(env, r.id);
    var row := SubscriberRow(r, OrderFor(SubscriberOrders(t.subscribers), key), instant);
    t.(subscribers := UpsertSubscriber(t.subscribers, key, row),
       segments := WithSegments(WithoutOwner(t.segments, key), key, r.labels),
       filters := WithFilters(t.filters, env, r.tags),
       assignments := WithAssignments(Unassigned(t.assignments, key), key, r.tags))
  }

  ghost predicate SubscriberAccepted(t: Tables, env: string, r: Request)
    requires r.Enrol?
  {
    && env in t.environments
    && Distinct(r.labels)
    && OrderFits(SubscriberOrders(t.subscribers), Id(env, r.id))
    && FiltersFit(t.filters, env, r.tags)
  }

  // ---------- any request ----------

  // The writes that reach the database, in order.
  datatype Write = CampaignUpsert | AnalyticsSeed | CampaignUpdate | SubscriberCommit

  function StorePlan(r: Request): seq<Write> {
    match r
    case Brief(_, _, _, _, _, _, _, _) => [CampaignUpsert, AnalyticsSeed]
    case Launch(_) => [CampaignUpdate]
    case Enrol(_, _, _, _, _, _, _) => [SubscriberCommit]
    case Nothing => []
  }

  // Whether the database and the code take the request when no call to the outside fails.
  ghost predicate StoreAccepted(t: Tables, env: string, r: Request) {
    match r
    case Brief(_, _, _, _, _, _, _, _) => BriefAccepted(t, env, r)
    case Launch(id) => id != "" && Id(env, id) in t.campaigns
    case Enrol(_, _, _, _, _, _, _) => SubscriberAccepted(t, env, r)
    case Nothing => true
  }

  // The tables after the first n planned writes.
  function StateAfter(t: Tables, env: string, r: Request, instant: int, n: nat): Tables
    requires n <= |StorePlan(r)|
  {
    if n == 0 then t else
    match r
    case Brief(_, _, _, _, _, _, _, _) =>
      var upserted := BriefUpserted(t, env, r);
      if n == 1 then upserted else BriefSeeded(upserted, env, r, instant)
    case Launch(id) => t.(campaigns := ScheduleCampaign(t.campaigns, Id(env, id)))
    case Enrol(_, _, _, _, _, _, _) => SubscriberWritten(t, env, r, instant)
    case Nothing => t
  }

  // One call of Apply that committed n of its planned writes. A failure may hit any statement,
  // before or after the statement took effect.
  ghost predicate StoreStep(t: Tables, env: string, r: Request, instant: int, n: nat, succeeded: bool, t': Tables) {
    && n <= |StorePlan(r)|
    && t' == StateAfter(t, env, r, instant, n)
    && (n > 0 ==> StoreAccepted(t, env, r))
    && (succeeded ==> n == |StorePlan(r)| && StoreAccepted(t, env, r))
  }
}
