// AppDBRepository: the three commands that write appdb, one SQL statement at a time.
module ContentRepository {
  import opened Sequences
  import opened Text
  import opened Wrappers
  import opened Commands
  import opened Names
  import opened AppTables
  import opened StoreSpec
  import opened StoreFacts
  import opened Events

  // The database. Each method is one statement: it happens, or is refused and changes nothing.
  class AppDb {
    var environments: set<string>
    var campaigns: map<Id, Campaign>
    var analytics: map<Id, CampaignAnalytics>
    var subscribers: map<Id, Subscriber>
    var segments: map<LabelId, int>
    var filters: map<Id, int>
    var assignments: set<LabelId>

    constructor (t: Tables)
      ensures Contents() == t
    {
      environments, campaigns, analytics := t.environments, t.campaigns, t.analytics;
      subscribers, segments, filters, assignments := t.subscribers, t.segments, t.filters, t.assignments;
    }

    function Contents(): Tables
      reads this
    {
      Tables(environments, campaigns, analytics, subscribers, segments, filters, assignments)
    }

    ghost predicate Valid()
      reads this
    {
      ForeignKeys(Contents())
    }

    // select coalesce(max(display_order), 0) + 1: an error when it leaves the integer range
    method SelectNextOrder(orders: map<Id, int>, environment: string) returns (next: Option<int>)
      ensures next == if NextOrder(orders, environment) <= MAX_INT4 then Some(NextOrder(orders, environment)) else None
    {
      var n := NextOrder(orders, environment);
      next := if n <= MAX_INT4 then Some(n) else None;
    }

    method InsertOrUpdateCampaign(key: Id, row: Campaign) returns (ok: bool)
      requires Valid()
      modifies this`campaigns
      ensures Valid()
      ensures ok <==> key.environment in environments && IsInt4(row.audienceCount)
      ensures Contents() == if ok then old(Contents()).(campaigns := UpsertCampaign(old(campaigns), key, row))
                            else old(Contents())
    {
      ok := (key in campaigns || key.environment in environments) && IsInt4(row.audienceCount);
      if ok {
        campaigns := UpsertCampaign(campaigns, key, row);
      }
    }

    method InsertAnalytics(key: Id, instant: int) returns (ok: bool)
      requires Valid()
      modifies this`analytics
      ensures Valid()
      ensures ok <==> key in campaigns
      ensures Contents() == if ok then old(Contents()).(analytics := SeedAnalytics(old(analytics), key, instant))
                            else old(Contents())
    {
      ok := key in analytics || key in campaigns;
      if ok {
        analytics := SeedAnalytics(analytics, key, instant);
      }
    }

    method UpdateCampaign(key: Id) returns (rows: nat)
      requires Valid()
      modifies this`campaigns
      ensures Valid()
      ensures rows == if key in old(campaigns) then 1 else 0
      ensures campaigns ==
              if rows == 1 then old(campaigns)[key := ScheduledRow(old(campaigns)[key])] else old(campaigns)
    {
      rows := 0;
      if key in campaigns {
        campaigns := campaigns[key := ScheduledRow(campaigns[key])];
        rows := 1;
      }
    }

    method InsertOrUpdateSubscriber(key: Id, row: Subscriber) returns (ok: bool)
      requires Valid()
      modifies this`subscribers
      ensures Valid()
      ensures ok <==> key.environment in environments
      ensures Contents() == if ok then old(Contents()).(subscribers := UpsertSubscriber(old(subscribers), key, row))
                            else old(Contents())
    {
      ok := key in subscribers || key.environment in environments;
      if ok {
        subscribers := UpsertSubscriber(subscribers, key, row);
      }
    }

    method DeleteSegments(owner: Id)
      requires Valid()
      modifies this`segments
      ensures Valid()
      ensures Contents() == old(Contents()).(segments := WithoutOwner(old(segments), owner))
    {
      segments := WithoutOwner(segments, owner);
    }

    method DeleteAssignments(owner: Id)
      requires Valid()
      modifies this`assignments
      ensures Valid()
      ensures Contents() == old(Contents()).(assignments := Unassigned(old(assignments), owner))
    {
      assignments := Unassigned(assignments, owner);
    }

    // A plain insert: the primary key refuses a label the owner already has.
    method InsertSegment(key: LabelId, order: int) returns (ok: bool)
      requires Valid()
      modifies this`segments
      ensures Valid()
      ensures ok <==> key !in old(segments) && key.owner in subscribers
      ensures Contents() == if ok then old(Contents()).(segments := old(segments)[key := order]) else old(Contents())
    {
      ok := key !in segments && key.owner in subscribers;
      if ok {
        segments := segments[key := order];
      }
    }

    method InsertFilter(key: Id, order: int) returns (ok: bool)
      requires Valid()
      modifies this`filters
      ensures Valid()
      ensures ok <==> key.environment in environments
      ensures Contents() ==
              if ok && key !in old(filters) then old(Contents()).(filters := old(filters)[key := order])
              else old(Contents())
    {
      ok := key in filters || key.environment in environments;
      if ok && key !in filters {
        filters := filters[key := order];
      }
    }

    method InsertAssignment(key: LabelId) returns (ok: bool)
      requires Valid()
      modifies this`assignments
      ensures Valid()
      ensures ok <==> key.owner in subscribers && Id(key.owner.environment, key.name) in filters
      ensures Contents() == if ok then old(Contents()).(assignments := old(assignments) + {key}) else old(Contents())
    {
      ok := key in assignments || (key.owner in subscribers && Id(key.owner.environment, key.name) in filters);
      if ok {
        assignments := assignments + {key};
      }
    }

    // rollback: every table is back as it was when the transaction began
    method Rollback(t: Tables)
      requires ForeignKeys(t)
      modifies this
      ensures Valid() && Contents() == t
    {
      environments, campaigns, analytics := t.environments, t.campaigns, t.analytics;
      subscribers, segments, filters, assignments := t.subscribers, t.segments, t.filters, t.assignments;
    }
  }

  class AppDbRepository {
    const db: AppDb
    const environment: string
    const journal: Journal

    constructor (db: AppDb, environment: string, journal: Journal)
      ensures this.db == db && this.environment == environment && this.journal == journal
    {
      this.db, this.environment, this.journal := db, environment, journal;
    }

    // Whether the command succeeded, whether it was stored (it is not for actions the store
    // ignores), and how many of its planned writes were committed.
    method Apply(command: Command, now: Moment, faults: Faults)
      returns (succeeded: bool, stored: bool, ghost writes: nat)
      requires db.Valid()
      modifies db, journal
      ensures db.Valid()
      ensures Stored(old(db.Contents()), RequestOf(command, now), now, faults, succeeded, writes)
      ensures stored <==> succeeded && StorePlan(RequestOf(command, now)) != []
    {
      var request := ReadRequest(command, now);
      match request {
        case Brief(_, _, _, _, _, _, _, _) => succeeded, writes := CreateCampaign(request, now, faults);
        case Launch(_) => succeeded, writes := ScheduleCampaign(request, now, faults);
        case Enrol(_, _, _, _, _, _, _) => succeeded, writes := CreateSubscriber(request, now, faults);
        case Nothing => succeeded, writes := true, 0;
      }
      stored := succeeded && !request.Nothing?;
    }

    method ReadRequest(command: Command, now: Moment) returns (request: Request)
      ensures request == RequestOf(command, now)
      ensures request.Enrol? ==> CleanTags(request.tags)
    {
      var action := TrimSpace(command.action);
      if action == "create-brief" {
        request := BriefOf(command);
      } else if action == "launch-test-send" {
        request := Launch(CampaignIdOf(command));
      } else if action == "add-subscriber" {
        request := ReadSubscriber(command, now);
        EnrolTagsAreClean(command, now);
      } else {
        request := Nothing;
      }
    }

    // What every store operation promises: the tables and the journal advanced by the same planned
    // writes, success means all of them, and without faults a request that is refused leaves no trace.
    twostate predicate Stored(t: Tables, r: Request, now: Moment, faults: Faults, succeeded: bool, writes: nat)
      reads db, journal
    {
      && StoreStep(t, environment, r, now.instant, writes, succeeded, db.Contents())
      && journal.entries == old(journal.entries) + StoredEffects(StorePlan(r)[..writes])
      && (faults == map[] ==> succeeded == StoreAccepted(t, environment, r) && (succeeded || writes == 0))
    }

    // The display order to insert with: lookupDisplayOrder, then nextDisplayOrder when it gave zero.
    method ChooseOrder(orders: map<Id, int>, key: Id, faults: Faults) returns (order: Option<int>)
      ensures order.Some? ==> OrderFits(orders, key) && order.value == OrderFor(orders, key)
      ensures faults == map[] ==> order.Some? == OrderFits(orders, key)
    {
      if SelectOrder in faults {
        return None;
      }
      order := Some(LookupOrder(orders, key));
      if order.value == 0 {
        order := db.SelectNextOrder(orders, key.environment);
        if SelectNext in faults {
          order := None;
        }
      }
    }

    // Four statements, each committed on its own.
    method CreateCampaign(brief: Request, now: Moment, faults: Faults) returns (succeeded: bool, ghost writes: nat)
      requires db.Valid() && brief.Brief?
      modifies db, journal
      ensures db.Valid()
      ensures Stored(old(db.Contents()), brief, now, faults, succeeded, writes)
    {
      BriefSteps(db.Contents(), environment, brief, now.instant);
      succeeded, writes := false, 0;
      if brief.id == "" {
        return;
      }
      var key := Id(environment, brief.id);
      var order := ChooseOrder(CampaignOrders(db.campaigns), key, faults);
      if order.None? || (Upsert in faults && faults[Upsert] == NotApplied) {
        return;
      }
      var ok := db.InsertOrUpdateCampaign(key, CampaignRow(brief, order.value));
      if !ok {
        return;
      }
      journal.entries := journal.entries + [Effect.Stored(CampaignUpsert)];
      writes := 1;
      if Upsert in faults || (Seed in faults && faults[Seed] == NotApplied) {
        return;
      }
      ok := db.InsertAnalytics(key, now.instant);
      journal.entries := journal.entries + [Effect.Stored(AnalyticsSeed)];
      writes := 2;
      succeeded := ok && Seed !in faults;
    }

    method ScheduleCampaign(launch: Request, now: Moment, faults: Faults) returns (succeeded: bool, ghost writes: nat)
      requires db.Valid() && launch.Launch?
      modifies db, journal
      ensures db.Valid()
      ensures Stored(old(db.Contents()), launch, now, faults, succeeded, writes)
    {
      succeeded, writes := false, 0;
      if launch.id == "" || (Update in faults && faults[Update] == NotApplied) {
        return;
      }
      var rows := db.UpdateCampaign(Id(environment, launch.id));
      if rows == 1 {
        journal.entries := journal.entries + [Effect.Stored(CampaignUpdate)];
        writes := 1;
      }
      succeeded := Update !in faults && InspectUpdate !in faults && rows != 0;
    }

    method ReadSubscriber(command: Command, now: Moment) returns (request: Request)
      ensures request == EnrolOf(command, now)
    {
      var m := command.metadata;
      var id := ResolveSubscriberId(command, now.second);
      var labels := MetadataStrings(m, "assignedSegments", ["Priority Review"]);
      var tags := MetadataStrings(m, "filterTags", ["Newly Verified"]);
      request := Enrol(
        id,
        MetadataString(m, "name", "Curated Contact"),
        MetadataString(m, "email", id + "@curator.local"),
        MetadataString(m, "securityStatus", "Encrypted"),
        MetadataString(m, "tone", "primary"),
        labels,
        tags);
    }

    // One transaction: every error path rolls it back.
    method CreateSubscriber(enrol: Request, now: Moment, faults: Faults) returns (succeeded: bool, ghost writes: nat)
      requires db.Valid() && enrol.Enrol? && CleanTags(enrol.tags)
      modifies db, journal
      ensures db.Valid()
      ensures Stored(old(db.Contents()), enrol, now, faults, succeeded, writes)
    {
      succeeded, writes := false, 0;
      if Begin in faults {
        return;
      }
      var start := db.Contents();
      var done := WriteSubscriber(enrol, now, faults);
      if !done || (Commit in faults && faults[Commit] == NotApplied) {
        db.Rollback(start);
        return;
      }
      journal.entries := journal.entries + [Effect.Stored(SubscriberCommit)];
      writes := 1;
      succeeded := Commit !in faults;
    }

    // The statements between begin and commit.
    method WriteSubscriber(enrol: Request, now: Moment, faults: Faults) returns (done: bool)
      requires db.Valid() && enrol.Enrol? && CleanTags(enrol.tags)
      modifies db
      ensures db.Valid()
      ensures done ==> SubscriberAccepted(old(db.Contents()), environment, enrol)
                       && db.Contents() == SubscriberWritten(old(db.Contents()), environment, enrol, now.instant)
      ensures faults == map[] ==> done == SubscriberAccepted(old(db.Contents()), environment, enrol)
    {
      done := false;
      var key := Id(environment, enrol.id);
      var order := ChooseOrder(SubscriberOrders(db.subscribers), key, faults);
      if order.None? || Upsert in faults {
        return;
      }
      var ok := db.InsertOrUpdateSubscriber(key, SubscriberRow(enrol, order.value, now.instant));
      if !ok || ClearSegments in faults {
        return;
      }
      db.DeleteSegments(key);
      if ClearFilters in faults {
        return;
      }
      db.DeleteAssignments(key);
      done := WriteSegments(key, enrol.labels, faults);
      if done {
        done := WriteFilters(key, enrol.tags, faults);
      }
    }

    method WriteSegments(owner: Id, labels: seq<string>, faults: Faults) returns (done: bool)
      requires db.Valid() && owner in db.subscribers
      requires forall k :: k in db.segments ==> k.owner != owner
      modifies db`segments
      ensures db.Valid()
      ensures done ==> Distinct(labels) && db.segments == WithSegments(old(db.segments), owner, labels)
      ensures faults == map[] ==> done == Distinct(labels)
    {
      for i := 0 to |labels|
        invariant db.Valid()
        invariant Distinct(labels[..i])
        invariant db.segments == WithSegments(old(db.segments), owner, labels[..i])
      {
        SegmentsHold(old(db.segments), owner, labels[..i]);
        SegmentsStep(old(db.segments), owner, labels, i);
        DistinctStep(labels, i);
        if Site.InsertSegment(i) in faults {
          return false;
        }
        var ok := db.InsertSegment(LabelId(owner, labels[i]), i + 1);
        if !ok {
          return false;
        }
      }
      assert labels[..|labels|] == labels;
      done := true;
    }

    method WriteFilters(owner: Id, tags: seq<string>, faults: Faults) returns (done: bool)
      requires db.Valid() && owner in db.subscribers && CleanTags(tags)
      modifies db`filters, db`assignments
      ensures db.Valid()
      ensures done ==> && FiltersFit(old(db.filters), owner.environment, tags)
                       && db.filters == WithFilters(old(db.filters), owner.environment, tags)
                       && db.assignments == WithAssignments(old(db.assignments), owner, tags)
      ensures faults == map[] ==> done == FiltersFit(old(db.filters), owner.environment, tags)
    {
      ghost var env := owner.environment;
      for i := 0 to |tags|
        invariant db.Valid()
        invariant FiltersFit(old(db.filters), env, tags[..i])
        invariant db.filters == WithFilters(old(db.filters), env, tags[..i])
        invariant db.assignments == WithAssignments(old(db.assignments), owner, tags[..i])
      {
        FiltersStep(old(db.filters), env, tags, i);
        AssignmentsStep(old(db.assignments), owner, tags, i);
        var ok := AssignFilter(owner, tags[i], i, faults);
        if !ok {
          if FiltersFit(old(db.filters), env, tags) {
            FiltersFitPrefix(old(db.filters), env, tags, i + 1);
          }
          return false;
        }
      }
      assert tags[..|tags|] == tags;
      done := true;
    }

    method AssignFilter(owner: Id, tag: string, index: nat, faults: Faults) returns (done: bool)
      requires db.Valid() && owner in db.subscribers && tag != "" && Trimmed(tag)
      modifies db`filters, db`assignments
      ensures db.Valid()
      ensures done ==> && FilterFits(old(db.filters), owner.environment, tag)
                       && db.filters == EnsureFilter(old(db.filters), owner.environment, tag)
                       && db.assignments == old(db.assignments) + {LabelId(owner, tag)}
      ensures faults == map[] ==> done == FilterFits(old(db.filters), owner.environment, tag)
    {
      TrimmedIsFixed(tag);
      done := EnsureFilterExists(owner.environment, tag, index, faults);
      if done && Assign(index) in faults {
        return false;
      }
      if done {
        done := db.InsertAssignment(LabelId(owner, tag));
      }
    }

    // ensureFilterExistsTx
    method EnsureFilterExists(env: string, tag: string, index: nat, faults: Faults) returns (done: bool)
      requires db.Valid() && env in db.environments
      modifies db`filters
      ensures db.Valid()
      ensures done ==> FilterFits(old(db.filters), env, tag) && db.filters == EnsureFilter(old(db.filters), env, tag)
      ensures !done ==> db.filters == old(db.filters)
      ensures faults == map[] ==> done == FilterFits(old(db.filters), env, tag)
    {
      var key := Id(env, TrimSpace(tag));
      if key.id == "" {
        return true;
      }
      if SelectFilter(index) in faults {
        return false;
      }
      if LookupOrder(db.filters, key) != 0 {
        return true;
      }
      var next := db.SelectNextOrder(db.filters, env);
      if SelectNextFilter(index) in faults || next.None? || Site.InsertFilter(index) in faults {
        return false;
      }
      done := db.InsertFilter(key, next.value);
    }
  }
}
