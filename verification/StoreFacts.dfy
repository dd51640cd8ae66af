// What the write functions mean: the facts the repository needs, and what the tables look like after.
module StoreFacts {
  import opened Sequences
  import opened Text
  import opened Slug
  import opened Commands
  import opened Names
  import opened AppTables
  import opened StoreSpec
  import opened Events

  function StoredEffects(writes: seq<Write>): seq<Effect> {
    seq(|writes|, i requires 0 <= i < |writes| => Stored(writes[i]))
  }

  lemma BriefSteps(t: Tables, env: string, r: Request, instant: int)
    requires r.Brief?
    ensures StoredEffects(StorePlan(r)[..0]) == []
    ensures StoredEffects(StorePlan(r)[..1]) == [Stored(CampaignUpsert)]
    ensures StoredEffects(StorePlan(r)[..2]) == [Stored(CampaignUpsert)] + [Stored(AnalyticsSeed)]
    ensures StateAfter(t, env, r, instant, 0) == t
    ensures StateAfter(t, env, r, instant, 1) == BriefUpserted(t, env, r)
    ensures StateAfter(t, env, r, instant, 2) == BriefSeeded(BriefUpserted(t, env, r), env, r, instant)
    ensures Id(env, r.id) in BriefUpserted(t, env, r).campaigns
  {
  }

  lemma {:induction false} SegmentsHold(segments: map<LabelId, int>, owner: Id, labels: seq<string>)
    requires forall k :: k in segments ==> k.owner != owner
    ensures forall k :: k in WithSegments(segments, owner, labels) <==>
                        k in segments || (k.owner == owner && k.name in labels)
    ensures forall k :: k in segments ==> WithSegments(segments, owner, labels)[k] == segments[k]
  {
    if labels != [] {
      var init, last := labels[..|labels| - 1], labels[|labels| - 1];
      SegmentsHold(segments, owner, init);
      assert forall name :: name in labels <==> name in init || name == last;
    }
  }

  // metadataStrings only returns trimmed, non-empty texts.
  ghost predicate CleanTags(tags: seq<string>) {
    forall i :: 0 <= i < |tags| ==> tags[i] != "" && Trimmed(tags[i])
  }

  lemma StringsAreClean(metadata: Metadata, key: string, fallback: seq<string>)
    requires CleanTags(fallback)
    ensures CleanTags(StringsOf(metadata, key, fallback))
  {
    var texts := StringsOf(metadata, key, fallback);
    forall i | 0 <= i < |texts|
      ensures texts[i] != "" && Trimmed(texts[i])
    {
      if texts != fallback {
        assert texts == CleanTexts(metadata.value[key].items);
        assert texts[i] in texts;
      }
    }
  }

  lemma EnrolTagsAreClean(command: Command, now: Moment)
    ensures CleanTags(EnrolOf(command, now).tags)
  {
    var fallback := ["Newly Verified"];
    assert CleanTags(fallback);
    StringsAreClean(command.metadata, "filterTags", fallback);
  }

  lemma EnrolLabelsAreClean(command: Command, now: Moment)
    ensures CleanTags(EnrolOf(command, now).labels)
  {
    var fallback := ["Priority Review"];
    assert CleanTags(fallback);
    StringsAreClean(command.metadata, "assignedSegments", fallback);
  }

  // Distinctness of a list, label by label.
  lemma DistinctStep(labels: seq<string>, i: nat)
    requires i < |labels| && Distinct(labels[..i])
    ensures Distinct(labels[..i + 1]) <==> labels[i] !in labels[..i]
    ensures labels[i] in labels[..i] ==> !Distinct(labels)
  {
    if labels[i] in labels[..i] {
      var j :| 0 <= j < i && labels[..i][j] == labels[i];
      assert labels[j] == labels[i] && labels[..i + 1][j] == labels[..i + 1][i];
    } else {
      assert labels[..i + 1] == labels[..i] + [labels[i]];
    }
  }

  lemma SegmentsStep(segments: map<LabelId, int>, owner: Id, labels: seq<string>, i: nat)
    requires i < |labels|
    ensures WithSegments(segments, owner, labels[..i + 1]) ==
            WithSegments(segments, owner, labels[..i])[LabelId(owner, labels[i]) := i + 1]
  {
    assert labels[..i + 1][..i] == labels[..i];
  }

  lemma FiltersStep(filters: map<Id, int>, env: string, tags: seq<string>, i: nat)
    requires i < |tags|
    ensures FiltersFit(filters, env, tags[..i + 1]) <==>
            FiltersFit(filters, env, tags[..i]) && FilterFits(WithFilters(filters, env, tags[..i]), env, tags[i])
    ensures WithFilters(filters, env, tags[..i + 1]) == EnsureFilter(WithFilters(filters, env, tags[..i]), env, tags[i])
  {
    assert tags[..i + 1][..i] == tags[..i];
  }

  lemma AssignmentsStep(assignments: set<LabelId>, owner: Id, tags: seq<string>, i: nat)
    requires i < |tags|
    ensures WithAssignments(assignments, owner, tags[..i + 1]) ==
            WithAssignments(assignments, owner, tags[..i]) + {LabelId(owner, tags[i])}
  {
    assert tags[..i + 1] == tags[..i] + [tags[i]];
  }

  lemma {:induction false} FiltersFitPrefix(filters: map<Id, int>, env: string, tags: seq<string>, n: nat)
    requires n <= |tags| && FiltersFit(filters, env, tags)
    ensures FiltersFit(filters, env, tags[..n])
    decreases |tags|
  {
    if n == |tags| {
      assert tags[..n] == tags;
    } else {
      var init := tags[..|tags| - 1];
      FiltersFitPrefix(filters, env, init, n);
      assert init[..n] == tags[..n];
    }
  }

  // ---------- every stored text is trimmed and non-empty ----------

  predicate Clean(s: string) {
    s != "" && Trimmed(s)
  }

  lemma MetadataStringIsClean(metadata: Metadata, key: string, fallback: string)
    requires Clean(fallback)
    ensures Clean(MetadataString(metadata, key, fallback))
  {
    if MetadataString(metadata, key, fallback) != fallback {
      TrimSpaceTrims(metadata.value[key].text);
    }
  }

  lemma FirstOfOne(a: string)
    ensures FirstNonBlank([a]) == if !Blank(a) then a else ""
  {
    assert [a][1..] == [];
  }

  lemma FirstOfTwo(a: string, b: string)
    ensures FirstNonBlank([a, b]) == if !Blank(a) then a else if !Blank(b) then b else ""
  {
    assert [a, b][1..] == [b];
    FirstOfOne(b);
  }

  lemma CampaignIdCases(c: Command)
    ensures CampaignIdOf(c) == if !Blank(c.campaignId) then TrimSpace(c.campaignId) else TrimSpace(c.subjectId)
  {
    FirstOfTwo(TrimSpace(c.campaignId), TrimSpace(c.subjectId));
    TrimSpaceIdempotent(c.campaignId);
    TrimSpaceIdempotent(c.subjectId);
  }

  lemma CampaignIdIsTrimmed(c: Command)
    ensures Trimmed(CampaignIdOf(c))
  {
    CampaignIdCases(c);
    TrimSpaceTrims(c.campaignId);
    TrimSpaceTrims(c.subjectId);
  }

  lemma BriefIsClean(command: Command)
    ensures var r := BriefOf(command);
            && Trimmed(r.id) && Clean(r.title) && Clean(r.summary) && Clean(r.status)
            && Clean(r.audienceLabel) && Clean(r.actionLabel) && Clean(r.tone)
  {
    var m := command.metadata;
    CampaignIdIsTrimmed(command);
    MetadataStringIsClean(m, "title", "Create Brief");
    MetadataStringIsClean(m, "summary", "Created from the operator console just now");
    MetadataStringIsClean(m, "status", "Draft");
    MetadataStringIsClean(m, "audienceLabel", "Curated audience pending review");
    MetadataStringIsClean(m, "actionLabel", "Launch test send");
    MetadataStringIsClean(m, "tone", "tertiary");
  }

  lemma GeneratedEmailIsClean(id: string)
    requires Clean(id)
    ensures Clean(id + "@curator.local")
  {
    var email := id + "@curator.local";
    assert email[0] == id[0] && email[|email| - 1] == 'l';
  }

  lemma SubscriberIdIsClean(subjectId: string, metadata: Metadata, now: CivilSecond)
    ensures Clean(SubscriberIdOf(subjectId, metadata, now))
  {
    ResolvedIdIsSlug(subjectId, metadata, now);
    SlugIsFixed(SubscriberIdOf(subjectId, metadata, now));
  }

  lemma EnrolDefaultsAreClean()
    ensures Clean("Curated Contact") && Clean("Encrypted") && Clean("primary")
  {
  }

  lemma EnrolIsClean(command: Command, now: Moment)
    ensures var r := EnrolOf(command, now);
            Clean(r.id) && Clean(r.name) && Clean(r.email) && Clean(r.securityStatus) && Clean(r.tone)
  {
    var m, id := command.metadata, SubscriberIdOf(command.subjectId, command.metadata, now.second);
    SubscriberIdIsClean(command.subjectId, m, now.second);
    GeneratedEmailIsClean(id);
    EnrolDefaultsAreClean();
    MetadataStringIsClean(m, "name", "Curated Contact");
    MetadataStringIsClean(m, "email", id + "@curator.local");
    MetadataStringIsClean(m, "securityStatus", "Encrypted");
    MetadataStringIsClean(m, "tone", "primary");
  }
}
