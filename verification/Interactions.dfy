// Service.Record: normalise a command, apply it to the store, publish it to the event gateway.
module Interactions {
  import opened Text
  import opened Decimal
  import opened Wrappers
  import opened Slug
  import opened Commands
  import opened Names
  import opened AppTables
  import opened StoreSpec
  import opened StoreFacts
  import opened StoreTheorems
  import opened Events
  import opened ContentRepository

  // ---------- normalisation ----------

  function OrDefault(value: string, fallback: string): string {
    if value == "" then fallback else value
  }

  predicate IsCampaignPlaceholder(value: string) {
    var v := TrimSpace(value);
    v == "" || v == "new-brief" || v == "new-campaign"
  }

  predicate RequiresCampaignIdentity(c: Command) {
    c.eventKind == "email" || c.eventKind == "both" || c.subjectType == "campaign" || c.action == "create-brief"
  }

  function DeriveCampaignId(c: Command, clock: CivilSecond): string {
    if !Blank(c.campaignId) then TrimSpace(c.campaignId)
    else if !IsCampaignPlaceholder(c.subjectId) then TrimSpace(c.subjectId)
    else BuildCampaignId(c.action, clock)
  }

  // The defaults that do not depend on the other fields.
  function Defaulted(c: Command, sessionId: string): Command {
    c.(sessionId := OrDefault(c.sessionId, sessionId),
       userId := OrDefault(c.userId, "platform-operator"),
       route := OrDefault(c.route, "dashboard"),
       eventKind := OrDefault(c.eventKind, "auto"),
       metadata := Some(c.metadata.GetOr(map[])))
  }

  function Identified(c: Command, clock: CivilSecond): Command {
    c.(campaignId :=
      if RequiresCampaignIdentity(c) && c.campaignId == "" then DeriveCampaignId(c, clock) else c.campaignId)
  }

  function Subjected(c: Command): Command {
    c.(subjectId :=
      if c.action == "create-brief" && IsCampaignPlaceholder(c.subjectId) then c.campaignId else c.subjectId)
  }

  function Normalize(c: Command, sessionId: string, clock: CivilSecond): Command {
    Subjected(Identified(Defaulted(c, sessionId), clock))
  }

  lemma IdentifiedHasId(c: Command, clock: CivilSecond)
    ensures RequiresCampaignIdentity(c) ==> Identified(c, clock).campaignId != ""
  {
    if c.campaignId == "" {
      TrimmedIsFixed("");
      var built := BuildCampaignId(c.action, clock);
      assert built != "";
    }
  }

  // Normalising again changes nothing, under any later clock and any fresh session id.
  lemma NormalizeIdempotent(c: Command, sessionId: string, clock: CivilSecond, sessionId': string, clock': CivilSecond)
    requires sessionId != ""
    ensures Normalize(Normalize(c, sessionId, clock), sessionId', clock') == Normalize(c, sessionId, clock)
  {
    IdentifiedHasId(Defaulted(c, sessionId), clock);
  }

  // Whether a command's campaign key says nothing: it is empty, or one of the placeholders.
  predicate NamesNoCampaign(id: string) {
    id == "" || id == "new-brief" || id == "new-campaign"
  }

  lemma BuiltIdIsNoPlaceholder(action: string, t: CivilSecond)
    ensures !NamesNoCampaign(BuildCampaignId(action, t)) && !IsCampaignPlaceholder(BuildCampaignId(action, t))
  {
    var id := BuildCampaignId(action, t);
    assert IsDigit(id[|id| - 1]);
    BuiltIdIsTrimmed(action, t);
    TrimmedIsFixed(id);
    NotAPlaceholder(id);
  }

  lemma NotAPlaceholder(id: string)
    requires id != "" && IsDigit(id[|id| - 1])
    ensures !NamesNoCampaign(id)
  {
    assert "new-brief"[8] == 'f' && "new-campaign"[11] == 'n';
  }

  // When normalisation fails to name a campaign: the campaign id is itself a placeholder text, or the
  // subject names none and either the campaign id is white space, which does not count as missing, or
  // the action, compared untrimmed, does not ask for an identity. The store, which trims the action,
  // then takes the key as it is.
  lemma StoreKeyNamesNoCampaignIff(c: Command, s: string, t: CivilSecond)
    ensures NamesNoCampaign(CampaignIdOf(Normalize(c, s, t))) <==>
            if Blank(c.campaignId)
            then IsCampaignPlaceholder(c.subjectId)
                 && (c.campaignId != "" || !RequiresCampaignIdentity(Defaulted(c, s)))
            else IsCampaignPlaceholder(c.campaignId)
  {
    var n := Normalize(c, s, t);
    CampaignIdCases(n);
    BuiltIdIsNoPlaceholder(c.action, t);
    TrimSpaceIdempotent(c.subjectId);
    TrimmedIsFixed("");
  }

  // The two texts that the console sends for a campaign that has no id yet.
  predicate IsPlaceholderText(id: string) {
    id == "new-brief" || id == "new-campaign"
  }

  // Normalisation leaves an identity that was not given as it was.
  predicate KeepsMissingId(c: Command, s: string) {
    c.campaignId != "" || !RequiresCampaignIdentity(Defaulted(c, s))
  }

  lemma StoreKeyCases(c: Command, s: string, t: CivilSecond)
    ensures CampaignIdOf(Normalize(c, s, t)) ==
            if !Blank(c.campaignId) then TrimSpace(c.campaignId)
            else if !KeepsMissingId(c, s) then
              if IsCampaignPlaceholder(c.subjectId) then BuildCampaignId(c.action, t) else TrimSpace(c.subjectId)
            else if c.action == "create-brief" && IsCampaignPlaceholder(c.subjectId) then ""
            else TrimSpace(c.subjectId)
  {
    var n := Normalize(c, s, t);
    CampaignIdCases(n);
    BuiltIdIsTrimmed(c.action, t);
    TrimmedIsFixed(BuildCampaignId(c.action, t));
    TrimSpaceIdempotent(c.subjectId);
    TrimmedIsFixed("");
  }

  // When the key is a placeholder text: it was sent as the campaign id, or as the subject under an action
  // that is not exactly "create-brief" and with no identity filled in.
  lemma StoreKeyIsPlaceholderIff(c: Command, s: string, t: CivilSecond)
    ensures IsPlaceholderText(CampaignIdOf(Normalize(c, s, t))) <==>
            if Blank(c.campaignId)
            then IsPlaceholderText(TrimSpace(c.subjectId)) && c.action != "create-brief" && KeepsMissingId(c, s)
            else IsPlaceholderText(TrimSpace(c.campaignId))
  {
    StoreKeyCases(c, s, t);
    BuiltIdIsNoPlaceholder(c.action, t);
  }

  // When it is empty.
  lemma StoreKeyIsEmptyIff(c: Command, s: string, t: CivilSecond)
    ensures CampaignIdOf(Normalize(c, s, t)) == "" <==>
            && Blank(c.campaignId) && KeepsMissingId(c, s)
            && (if c.action == "create-brief" then IsCampaignPlaceholder(c.subjectId) else Blank(c.subjectId))
  {
    StoreKeyCases(c, s, t);
    BuiltIdIsNoPlaceholder(c.action, t);
  }

  lemma BriefReadsKey(c: Command, now: Moment)
    requires TrimSpace(c.action) == "create-brief"
    ensures RequestOf(c, now).Brief? && RequestOf(c, now).id == CampaignIdOf(c)
  {
  }

  // A create-brief with an empty key is refused; nothing is stored for it.
  lemma EmptyKeyIsRefused(t: Tables, env: string, c: Command, s: string, clock: CivilSecond, now: Moment)
    requires TrimSpace(c.action) == "create-brief"
    requires Blank(c.campaignId) && KeepsMissingId(c, s)
    requires if c.action == "create-brief" then IsCampaignPlaceholder(c.subjectId) else Blank(c.subjectId)
    ensures !StoreAccepted(t, env, RequestOf(Normalize(c, s, clock), now))
  {
    StoreKeyIsEmptyIff(c, s, clock);
    BriefReadsKey(Normalize(c, s, clock), now);
  }

  // Exactly when a create-brief is stored under a placeholder text: besides what any brief needs, an
  // environment, a count and an order in range.
  lemma StoredUnderPlaceholderIff(t: Tables, env: string, c: Command, s: string, clock: CivilSecond, now: Moment)
    requires TrimSpace(c.action) == "create-brief"
    ensures var r := RequestOf(Normalize(c, s, clock), now);
            && r.Brief?
            && (StoreAccepted(t, env, r) && IsPlaceholderText(r.id) <==>
                  && env in t.environments && IsInt4(r.audienceCount)
                  && OrderFits(CampaignOrders(t.campaigns), Id(env, r.id))
                  && if Blank(c.campaignId)
                     then && IsPlaceholderText(TrimSpace(c.subjectId))
                          && c.action != "create-brief" && KeepsMissingId(c, s)
                     else IsPlaceholderText(TrimSpace(c.campaignId)))
            && Id(env, r.id) in StateAfter(t, env, r, now.instant, 1).campaigns
  {
    var n := Normalize(c, s, clock);
    BriefReadsKey(n, now);
    StoreKeyIsPlaceholderIff(c, s, clock);
    BriefSteps(t, env, RequestOf(n, now), now.instant);
  }

  lemma LeadingSpace(action: string)
    requires action == " create-brief"
    ensures TrimSpace(action) == "create-brief" && action != "create-brief"
  {
    var rest := action[1..];
    assert rest == "create-brief" && rest[0] == 'c' && rest[|rest| - 1] == 'f';
    assert IsSpace(action[0]);
    TrimmedIsFixed(rest);
    assert TrimLeft(action) == TrimLeft(rest) == rest;
  }

  // One input: a space before the action, and the console's own placeholder as the subject.
  lemma PlaceholderCampaign(t: Tables, env: string, c: Command, s: string, clock: CivilSecond, now: Moment)
    requires c.action == " create-brief" && c.subjectId == "new-brief" && c.campaignId == ""
    requires c.eventKind == "" && c.subjectType == "" && c.metadata == None
    requires env in t.environments && NextOrder(CampaignOrders(t.campaigns), env) <= MAX_INT4
    ensures var r := RequestOf(Normalize(c, s, clock), now);
            && r.Brief? && StoreAccepted(t, env, r)
            && Id(env, "new-brief") in StateAfter(t, env, r, now.instant, 1).campaigns
  {
    LeadingSpace(c.action);
    var subject := c.subjectId;
    assert subject[0] == 'n' && subject[|subject| - 1] == 'f';
    TrimmedIsFixed(subject);
    TrimmedIsFixed(c.campaignId);
    StoreKeyCases(c, s, clock);
    StoredUnderPlaceholderIff(t, env, c, s, clock, now);
    BriefReadsKey(Normalize(c, s, clock), now);
    CountByDefault(Normalize(c, s, clock), now);
  }

  lemma CountByDefault(n: Command, now: Moment)
    requires TrimSpace(n.action) == "create-brief" && n.metadata == Some(map[])
    ensures RequestOf(n, now).Brief? && IsInt4(RequestOf(n, now).audienceCount)
  {
  }

  // ---------- what Record is going to do ----------

  function PostedEffects(c: Command): seq<Effect> {
    (if PublishesAnalytics(c) then [Posted(Analytics, AnalyticsEvent(c))] else [])
    + (if PublishesEmail(c) then [Posted(Email, EmailEvent(c))] else [])
  }

  // Everything a request will do, in order: the store's writes, then the events.
  function Plan(r: Request, c: Command): seq<Effect> {
    StoredEffects(StorePlan(r)) + PostedEffects(c)
  }

  lemma SomethingIsPublished(c: Command)
    ensures PlannedChannels(c) != []
  {
  }

  class EventGateway {
    const journal: Journal

    constructor (journal: Journal)
      ensures this.journal == journal
    {
      this.journal := journal;
    }

    method PostJson(channel: Channel, payload: Payload, faults: Faults) returns (ok: bool)
      modifies journal
      ensures ok <==> Post(channel) !in faults
      ensures journal.entries == old(journal.entries)
              + if ok || faults[Post(channel)] == ReplyLost then [Posted(channel, payload)] else []
    {
      ok := Post(channel) !in faults;
      if ok || faults[Post(channel)] == ReplyLost {
        journal.entries := journal.entries + [Posted(channel, payload)];
      }
    }

    method PublishInteraction(command: Command, faults: Faults)
      returns (succeeded: bool, published: seq<Channel>, ghost posts: nat)
      modifies journal
      ensures posts <= |PostedEffects(command)|
      ensures journal.entries == old(journal.entries) + PostedEffects(command)[..posts]
      ensures succeeded ==> posts == |PostedEffects(command)| && published == PlannedChannels(command)
      ensures faults == map[] ==> succeeded
    {
      published := [];
      posts := 0;
      if PublishesAnalytics(command) {
        succeeded := PostJson(Analytics, AnalyticsEvent(command), faults);
        posts := |journal.entries| - |old(journal.entries)|;
        if !succeeded {
          return false, [], posts;
        }
        published := published + [Analytics];
      }
      if PublishesEmail(command) {
        succeeded := PostJson(Email, EmailEvent(command), faults);
        posts := |journal.entries| - |old(journal.entries)|;
        if !succeeded {
          return false, [], posts;
        }
        published := published + [Email];
      }
      succeeded := true;
    }
  }

  datatype Response = Response(stored: bool, sessionId: string, campaignId: string, published: seq<Channel>)

  function ResponseTo(c: Command, r: Request): Response {
    Response(StorePlan(r) != [], c.sessionId, c.campaignId, PlannedChannels(c))
  }

  // What a request can see and change: the tables, and the effects so far.
  datatype World = World(tables: Tables, entries: seq<Effect>)

  // What running a normalised command promises: the journal advanced by a prefix of the plan and the
  // tables by the writes in that prefix; a response means the whole plan; and without faults there is
  // a response exactly when the store accepts.
  ghost predicate Ran(w: World, env: string, r: Request, c: Command, instant: int, faults: Faults,
                      response: Option<Response>, effects: nat, w': World)
  {
    var writes := if effects <= |StorePlan(r)| then effects else |StorePlan(r)|;
    && effects <= |Plan(r, c)|
    && w'.entries == w.entries + Plan(r, c)[..effects]
    && w'.tables == StateAfter(w.tables, env, r, instant, writes)
    && (writes > 0 ==> StoreAccepted(w.tables, env, r))
    && (response.Some? ==>
          effects == |Plan(r, c)| && response.value == ResponseTo(c, r) && StoreAccepted(w.tables, env, r))
    && (faults == map[] ==> response.Some? == StoreAccepted(w.tables, env, r))
  }

  lemma StoppedInStore(w: World, env: string, r: Request, c: Command, instant: int, faults: Faults,
                       writes: nat, w': World)
    requires StoreStep(w.tables, env, r, instant, writes, false, w'.tables)
    requires w'.entries == w.entries + StoredEffects(StorePlan(r)[..writes])
    requires faults == map[] ==> !StoreAccepted(w.tables, env, r)
    ensures Ran(w, env, r, c, instant, faults, None, writes, w')
  {
    assert Plan(r, c)[..writes] == StoredEffects(StorePlan(r)[..writes]);
  }

  lemma WentOnToPublish(w: World, env: string, r: Request, c: Command, instant: int, faults: Faults,
                        response: Option<Response>, posts: nat, w': World)
    requires StoreStep(w.tables, env, r, instant, |StorePlan(r)|, true, w'.tables)
    requires posts <= |PostedEffects(c)|
    requires w'.entries == w.entries + StoredEffects(StorePlan(r)[..|StorePlan(r)|]) + PostedEffects(c)[..posts]
    requires response.Some? ==> posts == |PostedEffects(c)| && response.value == ResponseTo(c, r)
    requires faults == map[] ==> response.Some?
    ensures Ran(w, env, r, c, instant, faults, response, |StorePlan(r)| + posts, w')
  {
    var stored := StoredEffects(StorePlan(r));
    assert StorePlan(r)[..|StorePlan(r)|] == StorePlan(r);
    PrefixPast(stored, PostedEffects(c), posts);
    assert w.entries + stored + PostedEffects(c)[..posts] == w.entries + (stored + PostedEffects(c)[..posts]);
    if posts == |PostedEffects(c)| {
      assert |Plan(r, c)| == |stored| + posts;
    }
  }

  lemma PrefixPast<T>(a: seq<T>, b: seq<T>, n: nat)
    requires n <= |b|
    ensures (a + b)[..|a| + n] == a + b[..n]
  {
  }

  class Service {
    const sink: EventGateway
    const store: AppDbRepository?
    const journal: Journal

    constructor (sink: EventGateway, store: AppDbRepository?, journal: Journal)
      ensures this.sink == sink && this.store == store && this.journal == journal
    {
      this.sink, this.store, this.journal := sink, store, journal;
    }

    ghost function Footprint(): set<object> {
      {journal} + if store != null then {store.db} else {}
    }

    ghost predicate Valid()
      reads Footprint()
    {
      && sink.journal == journal
      && (store != null ==> store.journal == journal && store.db.Valid())
    }

    // What the store is asked for; without a store, nothing.
    function StoreRequest(c: Command, now: Moment): Request {
      if store == null then Nothing else RequestOf(c, now)
    }

    function Environment(): string {
      if store == null then "" else store.environment
    }

    ghost function Contents(): Tables
      reads if store == null then {} else {store.db}
    {
      if store == null then Tables({}, map[], map[], map[], map[], map[], {}) else store.db.Contents()
    }

    ghost function Snapshot(): World
      reads Footprint()
    {
      World(Contents(), journal.entries)
    }

    // sessionId stands for newID("session"), clock for the service's clock, now for the store's;
    // effects is how much of the plan happened, in order.
    method Record(command: Command, sessionId: string, clock: CivilSecond, now: Moment, faults: Faults)
      returns (response: Option<Response>, ghost effects: nat)
      requires Valid()
      modifies Footprint()
      ensures Valid()
      ensures Blank(command.surface) || Blank(command.action) ==>
                response.None? && Snapshot() == old(Snapshot())
      ensures !Blank(command.surface) && !Blank(command.action) ==>
                var c := Normalize(command, sessionId, clock);
                Ran(old(Snapshot()), Environment(), StoreRequest(c, now), c, now.instant, faults, response, effects,
                    Snapshot())
    {
      response, effects := None, 0;
      if Blank(command.surface) || Blank(command.action) {
        return;
      }
      var normalized := NormalizeInPlace(command, sessionId, clock);
      response, effects := ApplyAndPublish(normalized, now, faults);
    }

    method ApplyAndPublish(c: Command, now: Moment, faults: Faults)
      returns (response: Option<Response>, ghost effects: nat)
      requires Valid()
      modifies Footprint()
      ensures Valid()
      ensures Ran(old(Snapshot()), Environment(), StoreRequest(c, now), c, now.instant, faults, response, effects,
                  Snapshot())
    {
      ghost var w, r := Snapshot(), StoreRequest(c, now);
      var applied, stored, writes := ApplyToStore(c, now, faults);
      if applied {
        response, effects := PublishStored(c, now, faults, stored, w, r);
      } else {
        response, effects := None, writes;
        StoppedInStore(w, Environment(), r, c, now.instant, faults, writes, Snapshot());
      }
    }

    // The second half, when the store has done all of its part since w.
    method PublishStored(c: Command, now: Moment, faults: Faults, stored: bool, ghost w: World, ghost r: Request)
      returns (response: Option<Response>, ghost effects: nat)
      requires Valid()
      requires stored == (StorePlan(r) != [])
      requires StoreStep(w.tables, Environment(), r, now.instant, |StorePlan(r)|, true, Contents())
      requires journal.entries == w.entries + StoredEffects(StorePlan(r)[..|StorePlan(r)|])
      modifies journal
      ensures Valid()
      ensures Ran(w, Environment(), r, c, now.instant, faults, response, effects, Snapshot())
    {
      var published, channels, posts := sink.PublishInteraction(c, faults);
      effects := |StorePlan(r)| + posts;
      response := if published then Some(Response(stored, c.sessionId, c.campaignId, channels)) else None;
      WentOnToPublish(w, Environment(), r, c, now.instant, faults, response, posts, Snapshot());
    }

    method ApplyToStore(c: Command, now: Moment, faults: Faults)
      returns (applied: bool, stored: bool, ghost writes: nat)
      requires Valid()
      modifies Footprint()
      ensures Valid()
      ensures var r := StoreRequest(c, now);
              && StoreStep(old(Contents()), Environment(), r, now.instant, writes, applied, Contents())
              && journal.entries == old(journal.entries) + StoredEffects(StorePlan(r)[..writes])
              && (faults == map[] ==> applied == StoreAccepted(old(Contents()), Environment(), r))
              && (stored <==> applied && StorePlan(r) != [])
    {
      applied, stored, writes := true, false, 0;
      if store != null {
        applied, stored, writes := store.Apply(c, now, faults);
      }
    }

    // The assignments that Record makes to its copy of the command.
    method NormalizeInPlace(command: Command, sessionId: string, clock: CivilSecond) returns (normalized: Command)
      ensures normalized == Normalize(command, sessionId, clock)
    {
      normalized := command;
      if normalized.sessionId == "" {
        normalized := normalized.(sessionId := sessionId);
      }
      if normalized.userId == "" {
        normalized := normalized.(userId := "platform-operator");
      }
      if normalized.route == "" {
        normalized := normalized.(route := "dashboard");
      }
      if normalized.eventKind == "" {
        normalized := normalized.(eventKind := "auto");
      }
      if normalized.metadata == None {
        normalized := normalized.(metadata := Some(map[]));
      }
      assert normalized == Defaulted(command, sessionId);
      if RequiresCampaignIdentity(normalized) && normalized.campaignId == "" {
        normalized := normalized.(campaignId := DeriveCampaignId(normalized, clock));
      }
      assert normalized == Identified(Defaulted(command, sessionId), clock);
      if normalized.action == "create-brief" && IsCampaignPlaceholder(normalized.subjectId) {
        normalized := normalized.(subjectId := normalized.campaignId);
      }
    }
  }

  // ---------- the three layers' campaign ids ----------

  // When an email goes out, its campaign id and the response's agree up to trimming exactly when the
  // normalised campaign id is not blank; then the store used that same id.
  lemma CampaignIdsAgree(command: Command, sessionId: string, clock: CivilSecond, now: Moment)
    ensures var c := Normalize(command, sessionId, clock);
            var r := RequestOf(c, now);
            && (TrimSpace(EmailEvent(c).campaignId) == TrimSpace(c.campaignId) <==> !Blank(c.campaignId))
            && (!Blank(c.campaignId) && (r.Brief? || r.Launch?) ==> r.id == TrimSpace(c.campaignId))
  {
    var c := Normalize(command, sessionId, clock);
    FirstOfThree(c.campaignId, c.subjectId);
    CampaignIdCases(c);
    StoreReadsKey(c, now);
  }

  lemma StoreReadsKey(c: Command, now: Moment)
    ensures var r := RequestOf(c, now); r.Brief? || r.Launch? ==> r.id == CampaignIdOf(c)
  {
  }

  lemma LastResortIsNotBlank(s: string)
    requires s == "platform-ui"
    ensures !Blank(s)
  {
    assert s[0] == 'p' && s[|s| - 1] == 'i';
    TrimmedIsFixed(s);
  }

  lemma FirstOfThree(campaignId: string, subjectId: string)
    ensures var first := FirstNonBlank([campaignId, subjectId, "platform-ui"]);
            if !Blank(campaignId) then first == campaignId else !Blank(first)
  {
    var values := [campaignId, subjectId, "platform-ui"];
    assert values[1..] == [subjectId, "platform-ui"];
    assert [subjectId, "platform-ui"][1..] == ["platform-ui"];
    LastResortIsNotBlank("platform-ui");
    assert FirstNonBlank(["platform-ui"]) == "platform-ui";
  }

  // ---------- sending a command again ----------

  // The command leaves its identity to the clock: the campaign id is empty but needed and the subject
  // is a placeholder, or no candidate names the subscriber.
  ghost predicate GeneratesId(c: Command) {
    var d := Defaulted(c, "");
    var action := TrimSpace(c.action);
    if action == "create-brief" || action == "launch-test-send"
    then c.campaignId == "" && RequiresCampaignIdentity(d) && IsCampaignPlaceholder(c.subjectId)
    else
      && action == "add-subscriber"
      && forall i :: 0 <= i < 4 ==> CandidateSlug(Candidates(c.subjectId, d.metadata)[i]) == ""
  }

  lemma {:induction false} FirstSlugIgnoresFallback(candidates: seq<string>, f: string, g: string)
    requires exists i :: 0 <= i < |candidates| && CandidateSlug(candidates[i]) != ""
    ensures FirstSlug(candidates, f) == FirstSlug(candidates, g)
  {
    if CandidateSlug(candidates[0]) == "" {
      var i :| 0 <= i < |candidates| && CandidateSlug(candidates[i]) != "";
      assert candidates[1..][i - 1] == candidates[i];
      FirstSlugIgnoresFallback(candidates[1..], f, g);
    }
  }

  lemma SubscriberIdAgain(subjectId: string, metadata: Metadata, now: CivilSecond, now': CivilSecond)
    requires exists i :: 0 <= i < 4 && CandidateSlug(Candidates(subjectId, metadata)[i]) != ""
    ensures SubscriberIdOf(subjectId, metadata, now) == SubscriberIdOf(subjectId, metadata, now')
  {
    FirstSlugIgnoresFallback(Candidates(subjectId, metadata),
                             "subscriber-" + StampText(now), "subscriber-" + StampText(now'));
  }

  lemma ResentCampaignId(c: Command, s: string, t: CivilSecond, s': string, t': CivilSecond)
    requires !(c.campaignId == "" && RequiresCampaignIdentity(Defaulted(c, "")) && IsCampaignPlaceholder(c.subjectId))
    ensures Normalize(c, s, t).campaignId == Normalize(c, s', t').campaignId
    ensures Normalize(c, s, t).subjectId == Normalize(c, s', t').subjectId
  {
  }

  // A command that names its campaign or subscriber asks the store for the same thing every time.
  lemma ResentRequestIsTheSame(c: Command, s: string, t: CivilSecond, now: Moment,
                               s': string, t': CivilSecond, now': Moment)
    requires !GeneratesId(c)
    ensures RequestOf(Normalize(c, s, t), now) == RequestOf(Normalize(c, s', t'), now')
  {
    var action := TrimSpace(c.action);
    if IsCampaignAction(action) {
      ResentCampaign(c, s, t, now, s', t', now');
    } else if action == "add-subscriber" {
      ResentEnrolment(c, s, t, now, s', t', now');
    } else {
      NoRequest(Normalize(c, s, t), now);
      NoRequest(Normalize(c, s', t'), now');
    }
  }

  lemma ResentCampaign(c: Command, s: string, t: CivilSecond, now: Moment, s': string, t': CivilSecond, now': Moment)
    requires IsCampaignAction(TrimSpace(c.action))
    requires !(c.campaignId == "" && RequiresCampaignIdentity(Defaulted(c, "")) && IsCampaignPlaceholder(c.subjectId))
    ensures RequestOf(Normalize(c, s, t), now) == RequestOf(Normalize(c, s', t'), now')
  {
    NormalizeAgain(c, s, t, s', t');
    ResentCampaignId(c, s, t, s', t');
    CampaignRequest(Normalize(c, s, t), now);
    ReadsFiveFields(Normalize(c, s, t), Normalize(c, s', t'), now, now');
  }

  lemma ResentEnrolment(c: Command, s: string, t: CivilSecond, now: Moment, s': string, t': CivilSecond, now': Moment)
    requires TrimSpace(c.action) == "add-subscriber"
    requires exists i :: 0 <= i < 4 && CandidateSlug(Candidates(c.subjectId, Defaulted(c, "").metadata)[i]) != ""
    ensures RequestOf(Normalize(c, s, t), now) == RequestOf(Normalize(c, s', t'), now')
  {
    var n, n' := Normalize(c, s, t), Normalize(c, s', t');
    EnrolSubject(c, s, t);
    EnrolSubject(c, s', t');
    SubscriberIdAgain(c.subjectId, Defaulted(c, "").metadata, now.second, now'.second);
    EnrolRequest(n, now);
    EnrolRequest(n', now');
    SameEnrolment(n, n', now, now');
  }

  // ---------- what an action asks for ----------

  predicate IsCampaignAction(action: string) {
    action == "create-brief" || action == "launch-test-send"
  }

  lemma CampaignRequest(c: Command, now: Moment)
    requires IsCampaignAction(TrimSpace(c.action))
    ensures var r := RequestOf(c, now); (r.Brief? || r.Launch?) && r.id == CampaignIdOf(c)
  {
  }

  lemma EnrolRequest(c: Command, now: Moment)
    requires TrimSpace(c.action) == "add-subscriber"
    ensures RequestOf(c, now) == EnrolOf(c, now)
  {
  }

  lemma NoRequest(c: Command, now: Moment)
    requires !IsCampaignAction(TrimSpace(c.action)) && TrimSpace(c.action) != "add-subscriber"
    ensures RequestOf(c, now).Nothing?
  {
  }

  lemma EnrolSubject(c: Command, s: string, t: CivilSecond)
    requires TrimSpace(c.action) == "add-subscriber"
    ensures var n := Normalize(c, s, t);
            n.action == c.action && n.subjectId == c.subjectId && n.metadata == Defaulted(c, "").metadata
  {
    if c.action == "create-brief" {
      TrimmedIsFixed(c.action);
    }
  }

  lemma SameEnrolment(n: Command, n': Command, now: Moment, now': Moment)
    requires n.metadata == n'.metadata
    requires SubscriberIdOf(n.subjectId, n.metadata, now.second) ==
             SubscriberIdOf(n'.subjectId, n'.metadata, now'.second)
    ensures EnrolOf(n, now) == EnrolOf(n', now')
  {
  }

  // A failed command that names its campaign or subscriber, sent again with nothing in between: it is
  // taken exactly when the first try would have been, and the tables end as after one uninterrupted
  // run, timestamps apart.
  lemma ResendEqualsOnce(t: Tables, env: string, c: Command, s: string, clock: CivilSecond, now: Moment, writes: nat,
                         s': string, clock': CivilSecond, now': Moment)
    requires Legal(t) && !GeneratesId(c)
    requires var r := RequestOf(Normalize(c, s, clock), now);
             writes <= |StorePlan(r)| && (writes > 0 ==> StoreAccepted(t, env, r))
    ensures var r, r' := RequestOf(Normalize(c, s, clock), now), RequestOf(Normalize(c, s', clock'), now');
            var t', all := StateAfter(t, env, r, now.instant, writes), |StorePlan(r')|;
            && (StoreAccepted(t', env, r') <==> StoreAccepted(t, env, r'))
            && Untimed(StateAfter(t', env, r', now'.instant, all)) == Untimed(StateAfter(t, env, r', now'.instant, all))
  {
    var r := RequestOf(Normalize(c, s, clock), now);
    ResentRequestIsTheSame(c, s, clock, now, s', clock', now');
    RequestTagsAreClean(Normalize(c, s, clock), now);
    RetryEqualsOnce(t, env, r, now.instant, writes, now'.instant);
  }

  lemma RequestTagsAreClean(c: Command, now: Moment)
    ensures RequestOf(c, now).Enrol? ==> CleanTags(RequestOf(c, now).tags)
  {
    EnrolTagsAreClean(c, now);
  }

  // When the id is generated, only a retry within the same second finds the same row again.
  lemma GeneratedIdDependsOnSecond(c: Command, s: string, t: CivilSecond, now: Moment,
                                   s': string, t': CivilSecond, now': Moment)
    requires GeneratesId(c)
    ensures var r, r' := RequestOf(Normalize(c, s, t), now), RequestOf(Normalize(c, s', t'), now');
            !r.Nothing? && !r'.Nothing? &&
            (r.id == r'.id <==> if r.Enrol? then now.second == now'.second else t == t')
  {
    var n, n' := Normalize(c, s, t), Normalize(c, s', t');
    NormalizeAgain(c, s, t, s', t');
    if TrimSpace(c.action) == "add-subscriber" {
      EnrolSubject(c, s, t);
      EnrolSubject(c, s', t');
      EnrolRequest(n, now);
      EnrolRequest(n', now');
      GeneratedSubscriberId(c.subjectId, n.metadata, now.second, now'.second);
    } else {
      CampaignRequest(n, now);
      CampaignRequest(n', now');
      GeneratedCampaignId(c, s, t);
      GeneratedCampaignId(c, s', t');
      CampaignIdUnique(c.action, t, c.action, t');
    }
  }

  predicate SameSecond(r: Request, clock: CivilSecond, now: Moment, clock': CivilSecond, now': Moment) {
    if r.Enrol? then now.second == now'.second else clock == clock'
  }

  // The store reads five fields of a command, and the second only for subscribers.
  lemma ReadsFiveFields(n: Command, n': Command, now: Moment, now': Moment)
    requires n.action == n'.action && n.metadata == n'.metadata
    requires n.campaignId == n'.campaignId && n.subjectId == n'.subjectId
    requires RequestOf(n, now).Enrol? ==> now.second == now'.second
    ensures RequestOf(n', now') == RequestOf(n, now)
  {
    assert CampaignIdOf(n) == CampaignIdOf(n');
    assert BriefOf(n) == BriefOf(n');
    if RequestOf(n, now).Enrol? {
      assert EnrolOf(n, now) == EnrolOf(n', now');
    }
  }

  lemma ReadsActionForKind(n: Command, n': Command, now: Moment, now': Moment)
    requires n.action == n'.action
    ensures var r, r' := RequestOf(n, now), RequestOf(n', now');
            (r.Enrol? <==> r'.Enrol?) && (r.Brief? <==> r'.Brief?) && (r.Launch? <==> r'.Launch?)
  {
  }

  lemma NormalizeAgain(c: Command, s: string, t: CivilSecond, s': string, t': CivilSecond)
    ensures var n, n' := Normalize(c, s, t), Normalize(c, s', t');
            && n.action == n'.action == c.action && n.metadata == n'.metadata
            && (t == t' ==> n.campaignId == n'.campaignId && n.subjectId == n'.subjectId)
            && (c.action != "create-brief" ==> n.subjectId == n'.subjectId)
  {
  }

  lemma EnrolIsNoBrief(n: Command, now: Moment)
    requires RequestOf(n, now).Enrol?
    ensures n.action != "create-brief"
  {
    var action := n.action;
    if action == "create-brief" {
      TrimmedIsFixed(action);
    }
  }

  // Within one second the two sends ask for the same thing.
  lemma SameSecondSameRequest(c: Command, s: string, t: CivilSecond, now: Moment,
                              s': string, t': CivilSecond, now': Moment)
    requires SameSecond(RequestOf(Normalize(c, s, t), now), t, now, t', now')
    ensures RequestOf(Normalize(c, s', t'), now') == RequestOf(Normalize(c, s, t), now)
  {
    var n, n' := Normalize(c, s, t), Normalize(c, s', t');
    NormalizeAgain(c, s, t, s', t');
    if RequestOf(n, now).Enrol? {
      EnrolIsNoBrief(n, now);
      EnrolReadsSubject(n, n', now, now');
    } else {
      ReadsFiveFields(n, n', now, now');
    }
  }

  lemma EnrolReadsSubject(n: Command, n': Command, now: Moment, now': Moment)
    requires n.action == n'.action && n.metadata == n'.metadata && n.subjectId == n'.subjectId
    requires RequestOf(n, now).Enrol? && now.second == now'.second
    ensures RequestOf(n', now') == RequestOf(n, now)
  {
    ReadsActionForKind(n, n', now, now');
    assert EnrolOf(n, now) == EnrolOf(n', now');
  }

  // The rows a request adds to.
  function RowKeys(t: Tables, r: Request): set<Id> {
    if r.Enrol? then t.subscribers.Keys else t.campaigns.Keys
  }

  lemma WritesOwnRow(t: Tables, env: string, r: Request, instant: int, n: nat)
    requires 0 < n <= |StorePlan(r)| && !r.Launch?
    ensures RowKeys(StateAfter(t, env, r, instant, n), r) == RowKeys(t, r) + {Id(env, r.id)}
  {
    if r.Brief? {
      BriefSteps(t, env, r, instant);
    }
  }

  lemma AddTwo<T>(s: set<T>, a: T, b: T)
    requires a !in s && b !in s && a != b
    ensures |s + {a} + {b}| == |s| + 2
  {
  }

  // A command that leaves its identity to the clock, stopped after any of its writes and sent again:
  // within the same second it is taken as at first and leaves the rows of one run; in another second it
  // adds a second campaign or subscriber.
  lemma ResendOfGeneratedId(t: Tables, env: string, c: Command, s: string, clock: CivilSecond, now: Moment, n: nat,
                            s': string, clock': CivilSecond, now': Moment)
    requires Legal(t) && GeneratesId(c)
    requires var r := RequestOf(Normalize(c, s, clock), now);
             0 < n <= |StorePlan(r)| && StoreAccepted(t, env, r)
    ensures var r, r' := RequestOf(Normalize(c, s, clock), now), RequestOf(Normalize(c, s', clock'), now');
            var t', all := StateAfter(t, env, r, now.instant, n), |StorePlan(r')|;
            var t'' := StateAfter(t', env, r', now'.instant, all);
            if SameSecond(r, clock, now, clock', now')
            then r' == r && StoreAccepted(t', env, r')
                 && Untimed(t'') == Untimed(StateAfter(t, env, r', now'.instant, all))
            else !r.Launch? ==>
                   && RowKeys(t'', r) == RowKeys(t, r) + {Id(env, r.id)} + {Id(env, r'.id)}
                   && (Id(env, r.id) !in RowKeys(t, r) && Id(env, r'.id) !in RowKeys(t, r) ==>
                         |RowKeys(t'', r)| == |RowKeys(t, r)| + 2)
  {
    var r, r' := RequestOf(Normalize(c, s, clock), now), RequestOf(Normalize(c, s', clock'), now');
    if SameSecond(r, clock, now, clock', now') {
      SameSecondSameRequest(c, s, clock, now, s', clock', now');
      RequestTagsAreClean(Normalize(c, s, clock), now);
      RetryEqualsOnce(t, env, r, now.instant, n, now'.instant);
    } else if !r.Launch? {
      GeneratedIdDependsOnSecond(c, s, clock, now, s', clock', now');
      ReadsActionForKind(Normalize(c, s, clock), Normalize(c, s', clock'), now, now');
      TwoRows(t, env, r, now.instant, n, r', now'.instant);
    }
  }

  lemma TwoRows(t: Tables, env: string, r: Request, first: int, n: nat, r': Request, second: int)
    requires (r.Brief? && r'.Brief?) || (r.Enrol? && r'.Enrol?)
    requires 0 < n <= |StorePlan(r)| && r.id != r'.id
    ensures var t'' := StateAfter(StateAfter(t, env, r, first, n), env, r', second, |StorePlan(r')|);
            && RowKeys(t'', r) == RowKeys(t, r) + {Id(env, r.id)} + {Id(env, r'.id)}
            && (Id(env, r.id) !in RowKeys(t, r) && Id(env, r'.id) !in RowKeys(t, r) ==>
                  |RowKeys(t'', r)| == |RowKeys(t, r)| + 2)
  {
    WritesOwnRow(t, env, r, first, n);
    WritesOwnRow(StateAfter(t, env, r, first, n), env, r', second, |StorePlan(r')|);
    var keys, a, b := RowKeys(t, r), Id(env, r.id), Id(env, r'.id);
    if a !in keys && b !in keys {
      AddTwo(keys, a, b);
    }
  }

  lemma GeneratedSubscriberId(subjectId: string, metadata: Metadata, now: CivilSecond, now': CivilSecond)
    requires forall i :: 0 <= i < 4 ==> CandidateSlug(Candidates(subjectId, metadata)[i]) == ""
    ensures SubscriberIdOf(subjectId, metadata, now) == SubscriberIdOf(subjectId, metadata, now') <==> now == now'
  {
    var stamp, stamp' := StampText(now), StampText(now');
    FirstSlugSkips(Candidates(subjectId, metadata), "subscriber-" + stamp);
    FirstSlugSkips(Candidates(subjectId, metadata), "subscriber-" + stamp');
    if "subscriber-" + stamp == "subscriber-" + stamp' {
      assert ("subscriber-" + stamp)[11..] == stamp && ("subscriber-" + stamp')[11..] == stamp';
      StampTextInjective(now, now');
    }
  }

  lemma GeneratedCampaignId(c: Command, s: string, t: CivilSecond)
    requires c.campaignId == "" && RequiresCampaignIdentity(Defaulted(c, "")) && IsCampaignPlaceholder(c.subjectId)
    ensures CampaignIdOf(Normalize(c, s, t)) == BuildCampaignId(c.action, t)
  {
    var built := BuildCampaignId(c.action, t);
    var n := Normalize(c, s, t);
    TrimmedIsFixed("");
    assert n.campaignId == built;
    BuiltIdIsTrimmed(c.action, t);
    TrimmedIsFixed(built);
  }

  lemma BuiltIdIsTrimmed(action: string, t: CivilSecond)
    ensures Trimmed(BuildCampaignId(action, t))
  {
    SlugOfIsSlug(action);
    SlugIsFixed(SlugOf(action));
    var built := BuildCampaignId(action, t);
    assert built[|built| - 1] == StampText(t)[|StampText(t)| - 1];
    assert built[0] == if SlugOf(action) == "" then '-' else SlugOf(action)[0];
  }
}
