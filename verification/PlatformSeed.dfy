// The tables of 02_platform_bootstrap.sql and the templates of export_platform_seed.sql.
module PlatformSeed {
  import opened Sequences
  import opened Wrappers
  import opened SeedExport

  // ---------- the tables ----------

  // In the order of the table definitions; updated_at of platform_environment has a default and is kept apart.
  function TableColumns(t: Table): seq<string> {
    match t
    case Environment =>
      ["environment", "brand_name", "brand_tagline", "hero_title", "hero_accent", "hero_note",
       "search_placeholder", "session_label", "session_node", "session_status", "campaigns_headline",
       "campaigns_description", "subscribers_headline", "subscribers_description", "analytics_headline",
       "analytics_description", "security_title", "security_status", "security_description", "billing_eyebrow",
       "billing_title", "billing_date", "billing_action"]
    case Filter => ["environment", "filter_label", "display_order"]
    case Activity =>
      ["environment", "activity_id", "title", "description", "occurred_at", "tone", "display_order"]
    case Growth => ["environment", "segment_id", "label", "percentage", "display_order"]
    case Campaign =>
      ["environment", "campaign_id", "title", "summary", "status", "audience_count", "audience_label",
       "action_label", "tone", "display_order"]
    case Subscriber =>
      ["environment", "subscriber_id", "name", "email", "security_status", "created_at", "last_interaction_at",
       "tone", "is_featured", "display_order"]
    case Segment => ["environment", "subscriber_id", "segment_label", "display_order"]
    case Assignment => ["environment", "subscriber_id", "filter_label"]
    case Pipeline =>
      ["environment", "pipeline_id", "title", "description", "status", "display_order"]
    case Signal =>
      ["environment", "signal_id", "title", "description", "action", "event_kind", "subject_type", "subject_id",
       "display_order"]
    case CampaignAnalytics =>
      ["environment", "campaign_id", "delivered_recipients", "open_recipients", "click_recipients",
       "bounce_recipients", "first_seen_at", "last_seen_at", "refreshed_at"]
    case Engagement =>
      ["environment", "page_url", "event_name", "event_count", "unique_users", "first_seen_at", "last_seen_at",
       "refreshed_at", "display_order"]
    case Daily => ["environment", "bucket_date", "event_count", "refreshed_at"]
  }

  function PrimaryKey(t: Table): seq<string> {
    match t
    case Environment => ["environment"]
    case Filter => ["environment", "filter_label"]
    case Activity => ["environment", "activity_id"]
    case Growth => ["environment", "segment_id"]
    case Campaign => ["environment", "campaign_id"]
    case Subscriber => ["environment", "subscriber_id"]
    case Segment => ["environment", "subscriber_id", "segment_label"]
    case Assignment => ["environment", "subscriber_id", "filter_label"]
    case Pipeline => ["environment", "pipeline_id"]
    case Signal => ["environment", "signal_id"]
    case CampaignAnalytics => ["environment", "campaign_id"]
    case Engagement => ["environment", "page_url", "event_name"]
    case Daily => ["environment", "bucket_date"]
  }

  function References(t: Table): seq<Reference> {
    match t
    case Environment => []
    case Segment =>
      [Reference(Subscriber, ["environment", "subscriber_id"])]
    case Assignment =>
      [Reference(Subscriber, ["environment", "subscriber_id"]),
       Reference(Filter, ["environment", "filter_label"])]
    case CampaignAnalytics =>
      [Reference(Environment, ["environment"]),
       Reference(Campaign, ["environment", "campaign_id"])]
    case _ => [Reference(Environment, ["environment"])]
  }

  // The columns whose values the templates print with %s.
  predicate IsNumeric(t: Table, name: string) {
    match t
    case Environment => false
    case Filter => name == "display_order"
    case Activity => name == "display_order"
    case Growth => name == "percentage" || name == "display_order"
    case Campaign => name == "audience_count" || name == "display_order"
    case Subscriber => name == "display_order"
    case Segment => name == "display_order"
    case Assignment => false
    case Pipeline => name == "display_order"
    case Signal => name == "display_order"
    case CampaignAnalytics =>
      || name == "delivered_recipients" || name == "open_recipients"
      || name == "click_recipients" || name == "bounce_recipients"
    case Engagement => name == "event_count" || name == "unique_users" || name == "display_order"
    case Daily => name == "event_count"
  }

  function PlatformSchema(): Schema {
    Schema(TableColumns, PrimaryKey, References, IsNumeric)
  }

  // ---------- the templates ----------

  function Name(t: Table): string {
    match t
    case Environment => "environment"
    case Filter => "filter"
    case Activity => "dashboard_activity"
    case Growth => "growth_segment"
    case Campaign => "campaign"
    case Subscriber => "subscriber"
    case Segment => "subscriber_segment"
    case Assignment => "filter_assignment"
    case Pipeline => "analytics_pipeline"
    case Signal => "analytics_signal"
    case CampaignAnalytics => "campaign_analytics"
    case Engagement => "engagement_analytics"
    case Daily => "daily_performance"
  }

  // The columns in the text of the template.
  function ListedColumns(t: Table): seq<string> {
    match t
    case Environment =>
      ["environment", "brand_name", "brand_tagline", "hero_title", "hero_accent", "hero_note",
       "search_placeholder", "session_label", "session_node", "session_status", "campaigns_headline",
       "campaigns_description", "subscribers_headline", "subscribers_description", "analytics_headline",
       "analytics_description", "security_title", "security_status", "security_description", "billing_eyebrow",
       "billing_title", "billing_date", "billing_action"]
    case Filter => ["environment", "filter_label", "display_order"]
    case Activity =>
      ["environment", "activity_id", "title", "description", "occurred_at", "tone", "display_order"]
    case Growth => ["environment", "segment_id", "label", "percentage", "display_order"]
    case Campaign =>
      ["environment", "campaign_id", "title", "summary", "status", "audience_count", "audience_label",
       "action_label", "tone", "display_order"]
    case Subscriber =>
      ["environment", "subscriber_id", "name", "email", "security_status", "created_at", "last_interaction_at",
       "tone", "is_featured", "display_order"]
    case Segment => ["environment", "subscriber_id", "segment_label", "display_order"]
    case Assignment => ["environment", "subscriber_id", "filter_label"]
    case Pipeline =>
      ["environment", "pipeline_id", "title", "description", "status", "display_order"]
    case Signal =>
      ["environment", "signal_id", "title", "description", "action", "event_kind", "subject_type", "subject_id",
       "display_order"]
    case CampaignAnalytics =>
      ["environment", "campaign_id", "delivered_recipients", "open_recipients", "click_recipients",
       "bounce_recipients", "first_seen_at", "last_seen_at", "refreshed_at"]
    case Engagement =>
      ["environment", "page_url", "event_name", "event_count", "unique_users", "first_seen_at", "last_seen_at",
       "refreshed_at", "display_order"]
    case Daily => ["environment", "bucket_date", "event_count", "refreshed_at"]
  }

  // The columns that are the template's arguments.
  function Arguments(t: Table): seq<string> {
    match t
    case Environment =>
      ["environment", "brand_name", "brand_tagline", "hero_title", "hero_accent", "hero_note",
       "search_placeholder", "session_label", "session_node", "session_status", "campaigns_headline",
       "campaigns_description", "subscribers_headline", "subscribers_description", "analytics_headline",
       "analytics_description", "security_title", "security_status", "security_description", "billing_eyebrow",
       "billing_title", "billing_date", "billing_action"]
    case Filter => ["environment", "filter_label", "display_order"]
    case Activity =>
      ["environment", "activity_id", "title", "description", "occurred_at", "tone", "display_order"]
    case Growth => ["environment", "segment_id", "label", "percentage", "display_order"]
    case Campaign =>
      ["environment", "campaign_id", "title", "summary", "status", "audience_count", "audience_label",
       "action_label", "tone", "display_order"]
    case Subscriber =>
      ["environment", "subscriber_id", "name", "email", "security_status", "created_at", "last_interaction_at",
       "tone", "is_featured", "display_order"]
    case Segment => ["environment", "subscriber_id", "segment_label", "display_order"]
    case Assignment => ["environment", "subscriber_id", "filter_label"]
    case Pipeline =>
      ["environment", "pipeline_id", "title", "description", "status", "display_order"]
    case Signal =>
      ["environment", "signal_id", "title", "description", "action", "event_kind", "subject_type", "subject_id",
       "display_order"]
    case CampaignAnalytics =>
      ["environment", "campaign_id", "delivered_recipients", "open_recipients", "click_recipients",
       "bounce_recipients", "first_seen_at", "last_seen_at", "refreshed_at"]
    case Engagement =>
      ["environment", "page_url", "event_name", "event_count", "unique_users", "first_seen_at", "last_seen_at",
       "refreshed_at", "display_order"]
    case Daily => ["environment", "bucket_date", "event_count", "refreshed_at"]
  }

  // The assignments after on conflict ... do update set.
  function Updates(t: Table): seq<(string, string)> {
    match t
    case CampaignAnalytics =>
      [("delivered_recipients", "delivered_recipients"), ("open_recipients", "open_recipients"),
       ("click_recipients", "click_recipients"), ("bounce_recipients", "bounce_recipients"),
       ("first_seen_at", "first_seen_at"), ("last_seen_at", "last_seen_at"), ("refreshed_at", "refreshed_at")]
    case Engagement =>
      [("event_count", "event_count"), ("unique_users", "unique_users"), ("first_seen_at", "first_seen_at"),
       ("last_seen_at", "last_seen_at"), ("refreshed_at", "refreshed_at"), ("display_order", "display_order")]
    case Daily => [("event_count", "event_count"), ("refreshed_at", "refreshed_at")]
    case _ => []
  }

  function PlatformLayout(): Layout {
    Layout("insert into analytics.platform_", Name, ListedColumns, Arguments, Updates)
  }

  // ---------- they fit ----------

  // The names differ in length or in their first letter.
  function NameShape(t: Table): (int, char) {
    match t
    case Environment => (11, 'e')
    case Filter => (6, 'f')
    case Activity => (18, 'd')
    case Growth => (14, 'g')
    case Campaign => (8, 'c')
    case Subscriber => (10, 's')
    case Segment => (18, 's')
    case Assignment => (17, 'f')
    case Pipeline => (18, 'a')
    case Signal => (16, 'a')
    case CampaignAnalytics => (18, 'c')
    case Engagement => (20, 'e')
    case Daily => (17, 'd')
  }

  lemma NameHasShape(t: Table)
    ensures Name(t) != "" && NameShape(t) == (|Name(t)|, Name(t)[0]) && ' ' !in Name(t)
  {
  }

  lemma NamesAreDistinct(t: Table, u: Table)
    requires Name(t) == Name(u)
    ensures t == u
  {
    NameHasShape(t);
    NameHasShape(u);
  }

  lemma ListsAgree(t: Table)
    ensures ListedColumns(t) == Arguments(t) == TableColumns(t)
  {
  }

  lemma ColumnsAreNames(t: Table)
    ensures SqlText.ValidNames(TableColumns(t))
  {
    match t {
      case Environment => forall i | 0 <= i < |TableColumns(t)| { EnvironmentName(i); }
      case Filter => FilterNames();
      case Activity => ActivityNames();
      case Growth => GrowthNames();
      case Campaign => CampaignNames();
      case Subscriber => SubscriberNames();
      case Segment => SegmentNames();
      case Assignment => AssignmentNames();
      case Pipeline => PipelineNames();
      case Signal => SignalNames();
      case CampaignAnalytics => CampaignAnalyticsNames();
      case Engagement => EngagementNames();
      case Daily => DailyNames();
    }
  }

  lemma EnvironmentName(i: nat)
    requires i < |TableColumns(Environment)|
    ensures SqlText.ValidName(TableColumns(Environment)[i])
  {
    if i < 8 {
      EnvironmentNameBefore(i);
    } else if i < 16 {
      EnvironmentNameBetween(i);
    } else {
      EnvironmentNameAfter(i);
    }
  }

  lemma EnvironmentNameBefore(i: nat)
    requires i < 8
    ensures SqlText.ValidName(TableColumns(Environment)[i])
  {
  }

  lemma EnvironmentNameBetween(i: nat)
    requires 8 <= i < 16
    ensures SqlText.ValidName(TableColumns(Environment)[i])
  {
  }

  lemma EnvironmentNameAfter(i: nat)
    requires 16 <= i < |TableColumns(Environment)|
    ensures SqlText.ValidName(TableColumns(Environment)[i])
  {
  }

  lemma FilterNames()
    ensures SqlText.ValidNames(TableColumns(Filter))
  {
  }

  lemma ActivityNames()
    ensures SqlText.ValidNames(TableColumns(Activity))
  {
  }

  lemma GrowthNames()
    ensures SqlText.ValidNames(TableColumns(Growth))
  {
  }

  lemma CampaignNames()
    ensures SqlText.ValidNames(TableColumns(Campaign))
  {
  }

  lemma SubscriberNames()
    ensures SqlText.ValidNames(TableColumns(Subscriber))
  {
  }

  lemma SegmentNames()
    ensures SqlText.ValidNames(TableColumns(Segment))
  {
  }

  lemma AssignmentNames()
    ensures SqlText.ValidNames(TableColumns(Assignment))
  {
  }

  lemma PipelineNames()
    ensures SqlText.ValidNames(TableColumns(Pipeline))
  {
  }

  lemma SignalNames()
    ensures SqlText.ValidNames(TableColumns(Signal))
  {
  }

  lemma CampaignAnalyticsNames()
    ensures SqlText.ValidNames(TableColumns(CampaignAnalytics))
  {
  }

  lemma EngagementNames()
    ensures SqlText.ValidNames(TableColumns(Engagement))
  {
  }

  lemma DailyNames()
    ensures SqlText.ValidNames(TableColumns(Daily))
  {
  }

  lemma ColumnsAreDistinct(t: Table)
    ensures Distinct(TableColumns(t))
  {
    if t.Environment? {
      EnvironmentColumns();
    } else {
      OtherColumns(t);
    }
  }

  lemma EnvironmentColumns()
    ensures Distinct(TableColumns(Environment))
  {
  }

  lemma OtherColumns(t: Table)
    requires !t.Environment?
    ensures Distinct(TableColumns(t))
  {
  }

  lemma TemplateFits(t: Table)
    ensures FitsTable(ListedColumns(t), Arguments(t), TableColumns(t))
  {
    ListsAgree(t);
    ColumnsAreNames(t);
    ColumnsAreDistinct(t);
  }

  lemma ConflictRestores(t: Table)
    ensures Restores(Updates(t), TableColumns(t), PrimaryKey(t))
  {
  }

  lemma PlatformExportFits()
    ensures Fits(PlatformLayout(), PlatformSchema())
  {
    forall t, u | Name(t) == Name(u)
      ensures t == u
    {
      NamesAreDistinct(t, u);
    }
    forall t
      ensures ' ' !in Name(t)
    {
      NameHasShape(t);
    }
    forall t
      ensures FitsTable(ListedColumns(t), Arguments(t), TableColumns(t))
      ensures Restores(Updates(t), TableColumns(t), PrimaryKey(t))
    {
      TemplateFits(t);
      ConflictRestores(t);
    }
  }

  lemma ReferencesGoUp(t: Table, i: nat)
    requires i < |References(t)|
    ensures RefersUp(t, References(t)[i])
  {
  }

  lemma PlatformIsLayered()
    ensures Layered(PlatformSchema())
  {
    forall t, i | 0 <= i < |References(t)|
      ensures RefersUp(t, References(t)[i])
    {
      ReferencesGoUp(t, i);
    }
  }

  // A foreign key has the columns of the primary key it refers to.
  lemma ReferencesArePrimaryKeys(t: Table, i: nat)
    requires i < |References(t)|
    ensures |References(t)[i].columns| == |PrimaryKey(References(t)[i].table)|
    ensures References(t)[i].columns == PrimaryKey(References(t)[i].table)
  {
  }

  // ---------- the export, and clearing an environment ----------

  // Replaying the platform's export into an empty schema never violates a key and rebuilds every table
  // exactly, each value under its own column; only updated_at is the time of the replay.
  lemma ReplayRestoresPlatformExport(rows: map<Key, Row>, order: seq<Row>, now: int)
    requires Consistent(PlatformSchema(), rows) && Lists(PlatformSchema(), rows, order)
    ensures var l, d := PlatformLayout(), PlatformSchema();
            ReplayScript(l, d, Database(map[], map[]), Export(l, d, order), now) ==
            Some(Database(rows, Touched(rows, now)))
  {
    PlatformExportFits();
    PlatformIsLayered();
    ReplayRestoresExport(PlatformLayout(), PlatformSchema(), rows, order, now);
  }

  // The deletes of 02_platform_bootstrap.sql, on the platform's tables.
  method ClearPlatform(rows: map<Key, Row>, env: Cell) returns (left: map<Key, Row>)
    requires Consistent(PlatformSchema(), rows)
    ensures left == OutsideEnvironment(rows, env) && Consistent(PlatformSchema(), left)
  {
    PlatformIsLayered();
    var schema := new SeedSchema(PlatformSchema(), rows);
    var cascaded := schema.ClearEnvironment(env);
    left := schema.rows;
  }
}
