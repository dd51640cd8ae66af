// From a command to the tables: which field of the command ends up in which column.
module StoredCommands {
  import opened Text
  import opened Wrappers
  import opened Commands
  import opened Names
  import opened AppTables
  import opened StoreSpec
  import opened StoreFacts
  import opened StoreTheorems

  lemma ReadsEnrolment(command: Command, now: Moment)
    requires TrimSpace(command.action) == "add-subscriber"
    ensures var r, m := RequestOf(command, now), command.metadata;
            && r.Enrol?
            && NamesSubscriber(command.subjectId, m, now.second, r.id)
            && ReadsText(m, "name", "Curated Contact", r.name)
            && ReadsText(m, "email", r.id + "@curator.local", r.email)
            && ReadsText(m, "securityStatus", "Encrypted", r.securityStatus)
            && ReadsText(m, "tone", "primary", r.tone)
            && ReadsList(m, "assignedSegments", ["Priority Review"], r.labels)
            && ReadsList(m, "filterTags", ["Newly Verified"], r.tags)
  {
    var m, id := command.metadata, SubscriberIdOf(command.subjectId, command.metadata, now.second);
    SubscriberIsNamed(command.subjectId, m, now.second);
    StringIsRead(m, "name", "Curated Contact");
    StringIsRead(m, "email", id + "@curator.local");
    StringIsRead(m, "securityStatus", "Encrypted");
    StringIsRead(m, "tone", "primary");
    StringsAreRead(m, "assignedSegments", ["Priority Review"]);
    StringsAreRead(m, "filterTags", ["Newly Verified"]);
  }

  lemma ReadsBrief(command: Command, now: Moment)
    requires TrimSpace(command.action) == "create-brief"
    ensures var r, m := RequestOf(command, now), command.metadata;
            && r.Brief?
            && r.id ==
               (if !Blank(command.campaignId) then TrimSpace(command.campaignId) else TrimSpace(command.subjectId))
            && ReadsText(m, "title", "Create Brief", r.title)
            && ReadsText(m, "summary", "Created from the operator console just now", r.summary)
            && ReadsText(m, "status", "Draft", r.status)
            && ReadsCount(m, "audienceCount", 6400, r.audienceCount)
            && ReadsText(m, "audienceLabel", "Curated audience pending review", r.audienceLabel)
            && ReadsText(m, "actionLabel", "Launch test send", r.actionLabel)
            && ReadsText(m, "tone", "tertiary", r.tone)
  {
    var m := command.metadata;
    CampaignIdCases(command);
    StringIsRead(m, "title", "Create Brief");
    StringIsRead(m, "summary", "Created from the operator console just now");
    StringIsRead(m, "status", "Draft");
    IntIsRead(m, "audienceCount", 6400);
    StringIsRead(m, "audienceLabel", "Curated audience pending review");
    StringIsRead(m, "actionLabel", "Launch test send");
    StringIsRead(m, "tone", "tertiary");
  }

  // A stored subscriber: the row's columns are the metadata's texts or their defaults, the segments its
  // texts in order, numbered from 1, and the assignments exactly its tags.
  lemma EnrolmentIsStored(t: Tables, env: string, command: Command, now: Moment, succeeded: bool, t': Tables)
    returns (id: string, labels: seq<string>, tags: seq<string>)
    requires TrimSpace(command.action) == "add-subscriber"
    requires StoreStep(t, env, RequestOf(command, now), now.instant, 1, succeeded, t')
    requires Ordered(SubscriberOrders(t.subscribers))
    ensures NamesSubscriber(command.subjectId, command.metadata, now.second, id)
    ensures ReadsList(command.metadata, "assignedSegments", ["Priority Review"], labels)
    ensures ReadsList(command.metadata, "filterTags", ["Newly Verified"], tags)
    ensures Id(env, id) in t'.subscribers
    ensures var m, row := command.metadata, t'.subscribers[Id(env, id)];
            && ReadsText(m, "name", "Curated Contact", row.name)
            && ReadsText(m, "email", id + "@curator.local", row.email)
            && ReadsText(m, "securityStatus", "Encrypted", row.securityStatus)
            && ReadsText(m, "tone", "primary", row.tone)
            && row.isFeatured && row.lastInteractionAt == Some(now.instant)
    ensures ListsSegments(t'.segments, Id(env, id), labels)
    ensures forall tag :: LabelId(Id(env, id), tag) in t'.assignments <==> tag in tags
  {
    var r := RequestOf(command, now);
    ReadsEnrolment(command, now);
    id, labels, tags := r.id, r.labels, r.tags;
    EnrolTagsAreClean(command, now);
    SubscriberMeaning(t, env, r, now.instant);
    SubscriberRowMeaning(t, env, r, now.instant);
  }

  // So the k-th non-blank text under "assignedSegments" is the segment with order k + 1.
  lemma SegmentsFollowTheList(t: Tables, env: string, command: Command, now: Moment, succeeded: bool, t': Tables)
    returns (id: string, places: seq<nat>)
    requires TrimSpace(command.action) == "add-subscriber"
    requires StoreStep(t, env, RequestOf(command, now), now.instant, 1, succeeded, t')
    requires Ordered(SubscriberOrders(t.subscribers))
    requires command.metadata.Some? && "assignedSegments" in command.metadata.value
    requires command.metadata.value["assignedSegments"].Items?
    requires exists i :: 0 <= i < |command.metadata.value["assignedSegments"].items|
                         && IsText(command.metadata.value["assignedSegments"].items[i])
    ensures NamesSubscriber(command.subjectId, command.metadata, now.second, id)
    ensures var items, owner := command.metadata.value["assignedSegments"].items, Id(env, id);
            && Places(items, places)
            && (forall k :: 0 <= k < |places| ==>
                  var segment := LabelId(owner, TrimSpace(items[places[k]].text));
                  segment in t'.segments && t'.segments[segment] == k + 1)
            && (forall l :: l in t'.segments && l.owner == owner ==>
                  exists k :: 0 <= k < |places| && l.name == TrimSpace(items[places[k]].text))
  {
    var items := command.metadata.value["assignedSegments"].items;
    var owner, labels, tags := EnrolmentIsStored(t, env, command, now, succeeded, t');
    id := owner;
    places :| TextsAt(items, places, labels);
    SegmentsAreAt(t'.segments, Id(env, id), labels, items, places);
  }

  lemma SegmentsAreAt(segments: map<LabelId, int>, owner: Id, labels: seq<string>, items: seq<Value>, places: seq<nat>)
    requires ListsSegments(segments, owner, labels) && TextsAt(items, places, labels)
    ensures forall k :: 0 <= k < |places| ==>
              var segment := LabelId(owner, TrimSpace(items[places[k]].text));
              segment in segments && segments[segment] == k + 1
    ensures forall l :: l in segments && l.owner == owner ==>
              exists k :: 0 <= k < |places| && l.name == TrimSpace(items[places[k]].text)
  {
    forall k | 0 <= k < |places|
      ensures LabelId(owner, TrimSpace(items[places[k]].text)) in segments
      ensures segments[LabelId(owner, TrimSpace(items[places[k]].text))] == k + 1
    {
      assert labels[k] == TrimSpace(items[places[k]].text);
    }
    forall l | l in segments && l.owner == owner
      ensures exists k :: 0 <= k < |places| && l.name == TrimSpace(items[places[k]].text)
    {
      var k :| 0 <= k < |labels| && labels[k] == l.name;
      assert l.name == TrimSpace(items[places[k]].text);
    }
  }

  // A stored campaign.
  lemma BriefIsStored(t: Tables, env: string, command: Command, now: Moment, n: nat, succeeded: bool, t': Tables)
    returns (id: string)
    requires TrimSpace(command.action) == "create-brief" && n > 0
    requires StoreStep(t, env, RequestOf(command, now), now.instant, n, succeeded, t')
    requires Ordered(CampaignOrders(t.campaigns))
    ensures id == if !Blank(command.campaignId) then TrimSpace(command.campaignId) else TrimSpace(command.subjectId)
    ensures Id(env, id) in t'.campaigns
    ensures var m, row := command.metadata, t'.campaigns[Id(env, id)];
            && ReadsText(m, "title", "Create Brief", row.title)
            && ReadsText(m, "summary", "Created from the operator console just now", row.summary)
            && ReadsText(m, "status", "Draft", row.status)
            && ReadsCount(m, "audienceCount", 6400, row.audienceCount)
            && ReadsText(m, "audienceLabel", "Curated audience pending review", row.audienceLabel)
            && ReadsText(m, "actionLabel", "Launch test send", row.actionLabel)
            && ReadsText(m, "tone", "tertiary", row.tone)
  {
    var r := RequestOf(command, now);
    ReadsBrief(command, now);
    id := r.id;
    BriefSteps(t, env, r, now.instant);
    CampaignRowMeaning(t, env, r);
    assert t'.campaigns == BriefUpserted(t, env, r).campaigns;
  }

  // A launched campaign.
  lemma LaunchIsStored(t: Tables, env: string, command: Command, now: Moment, succeeded: bool, t': Tables)
    returns (id: string)
    requires TrimSpace(command.action) == "launch-test-send"
    requires StoreStep(t, env, RequestOf(command, now), now.instant, 1, succeeded, t')
    ensures id == if !Blank(command.campaignId) then TrimSpace(command.campaignId) else TrimSpace(command.subjectId)
    ensures var key := Id(env, id);
            && key in t.campaigns && t'.campaigns.Keys == t.campaigns.Keys
            && t'.campaigns[key].status == "Scheduled" && t'.campaigns[key].summary == "Test send queued just now"
            && t'.campaigns[key].displayOrder == t.campaigns[key].displayOrder
  {
    CampaignIdCases(command);
    id := CampaignIdOf(command);
    LaunchMeaning(t, env, id, now.instant);
  }
}
