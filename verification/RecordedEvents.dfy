// What Record posts and answers, field by field, and what normalisation puts into a command.
module RecordedEvents {
  import opened Text
  import opened Wrappers
  import opened Slug
  import opened Commands
  import opened Names
  import opened StoreSpec
  import opened StoreFacts
  import opened Events
  import opened Interactions

  // ---------- normalisation, field by field ----------

  // Empty fields get their defaults and all others stay; the campaign id is filled in exactly when it is
  // empty and the event kind, the subject type or the action asks for one.
  lemma NormalizedFields(c: Command, sessionId: string, clock: CivilSecond)
    ensures var n := Normalize(c, sessionId, clock);
            && n.surface == c.surface && n.action == c.action && n.subjectType == c.subjectType
            && n.recipientId == c.recipientId
            && n.sessionId == (if c.sessionId == "" then sessionId else c.sessionId)
            && n.userId == (if c.userId == "" then "platform-operator" else c.userId)
            && n.route == (if c.route == "" then "dashboard" else c.route)
            && n.eventKind == (if c.eventKind == "" then "auto" else c.eventKind)
            && n.metadata == (if c.metadata == None then Some(map[]) else c.metadata)
  {
  }

  predicate AsksForCampaign(c: Command) {
    c.eventKind == "email" || c.eventKind == "both" || c.subjectType == "campaign" || c.action == "create-brief"
  }

  predicate IsNoSubject(subjectId: string) {
    var s := TrimSpace(subjectId);
    s == "" || s == "new-brief" || s == "new-campaign"
  }

  lemma NormalizedIdentity(c: Command, sessionId: string, clock: CivilSecond)
    ensures var n := Normalize(c, sessionId, clock);
            && (c.campaignId != "" || !AsksForCampaign(c) ==> n.campaignId == c.campaignId)
            && (c.campaignId == "" && AsksForCampaign(c) && !IsNoSubject(c.subjectId) ==>
                  n.campaignId == TrimSpace(c.subjectId))
            && (c.campaignId == "" && AsksForCampaign(c) && IsNoSubject(c.subjectId) ==>
                  SplitLast(n.campaignId, '-') == Some((SlugOf(c.action), StampText(clock))))
            && n.subjectId ==
               (if c.action == "create-brief" && IsNoSubject(c.subjectId) then n.campaignId else c.subjectId)
  {
    var d := Defaulted(c, sessionId);
    AsksAlike(c, sessionId);
    if c.campaignId == "" {
      DerivedIdentity(d, clock);
    }
  }

  lemma AsksAlike(c: Command, sessionId: string)
    ensures RequiresCampaignIdentity(Defaulted(c, sessionId)) <==> AsksForCampaign(c)
  {
  }

  lemma DerivedIdentity(d: Command, clock: CivilSecond)
    requires d.campaignId == ""
    ensures if IsNoSubject(d.subjectId)
            then SplitLast(DeriveCampaignId(d, clock), '-') == Some((SlugOf(d.action), StampText(clock)))
            else DeriveCampaignId(d, clock) == TrimSpace(d.subjectId)
  {
    TrimmedIsFixed("");
    CampaignIdDecodes(d.action, clock);
  }

  // ---------- what a posted event carries ----------

  // The route as a path: the dashboard by default, with a slash in front.
  ghost predicate IsPathOf(route: string, path: string) {
    var r := TrimSpace(route);
    && path != "" && path[0] == '/'
    && (r == "" || r == "/" ==> path == "/dashboard")
    && (r != "" && r != "/" ==> path == r || (r[0] != '/' && path[1..] == r))
  }

  ghost predicate CarriesAnalytics(c: Command, p: Payload) {
    && p.AnalyticsPayload?
    && p.sessionId == c.sessionId && p.userId == c.userId
    && SplitLast(p.eventName, '.') == Some((SlugOf(c.surface), SlugOf(c.action)))
    && IsPathOf(c.route, p.pageUrl)
    && p.surface == c.surface && p.action == c.action
    && p.subjectType == c.subjectType && p.subjectId == c.subjectId
    && p.campaignId == c.campaignId && p.metadata == c.metadata
  }

  ghost predicate CarriesEmail(c: Command, p: Payload) {
    && p.EmailPayload?
    && p.campaignId == (if !Blank(c.campaignId) then c.campaignId
                        else if !Blank(c.subjectId) then c.subjectId else "platform-ui")
    && p.recipientId == c.recipientId
    && p.eventType == "ui_" + SlugOf(c.action)
    && IsPathOf(c.route, p.route)
    && p.surface == c.surface && p.subjectType == c.subjectType && p.subjectId == c.subjectId
    && p.metadata == c.metadata
  }

  ghost predicate Carries(c: Command, e: Effect) {
    e.Posted? && if e.channel.Analytics? then CarriesAnalytics(c, e.payload) else CarriesEmail(c, e.payload)
  }

  lemma RouteIsPath(route: string)
    ensures IsPathOf(route, RoutePath(route))
  {
    var r := TrimSpace(route);
    if r != "" && r[0] != '/' {
      assert ("/" + r)[1..] == r;
    }
  }

  lemma EventsCarry(c: Command)
    ensures CarriesAnalytics(c, AnalyticsEvent(c)) && CarriesEmail(c, EmailEvent(c))
  {
    RouteIsPath(c.route);
    EventNameDecodes(c.surface, c.action);
    EmailCampaign(c.campaignId, c.subjectId);
  }

  lemma EmailCampaign(campaignId: string, subjectId: string)
    ensures FirstNonBlank([campaignId, subjectId, "platform-ui"]) ==
            if !Blank(campaignId) then campaignId else if !Blank(subjectId) then subjectId else "platform-ui"
  {
    var last := "platform-ui";
    LastResortIsNotBlank(last);
    assert [campaignId, subjectId, last][1..] == [subjectId, last];
    FirstOfTwo(subjectId, last);
  }

  // ---------- which events are posted ----------

  // The channels by event kind; a kind that is none of the three sends an email for campaigns only.
  ghost predicate ChannelsOf(c: Command, channels: seq<Channel>) {
    && (c.eventKind == "analytics" ==> channels == [Analytics])
    && (c.eventKind == "email" ==> channels == [Email])
    && (c.eventKind == "both" ==> channels == [Analytics, Email])
    && (c.eventKind != "analytics" && c.eventKind != "email" && c.eventKind != "both" ==>
          channels == if c.subjectType == "campaign" || c.campaignId != "" then [Analytics, Email] else [Analytics])
  }

  // Events on these channels, in order, each carrying the command.
  ghost predicate PostsOn(c: Command, channels: seq<Channel>, posts: seq<Effect>) {
    && |posts| == |channels|
    && forall i :: 0 <= i < |posts| ==> posts[i].Posted? && posts[i].channel == channels[i] && Carries(c, posts[i])
  }

  lemma PostedByKind(c: Command)
    ensures ChannelsOf(c, PlannedChannels(c)) && PostsOn(c, PlannedChannels(c), PostedEffects(c))
  {
    EventsCarry(c);
    var analytics, email := Posted(Analytics, AnalyticsEvent(c)), Posted(Email, EmailEvent(c));
    assert PostedEffects(c) ==
           if !PublishesAnalytics(c) then [email] else if PublishesEmail(c) then [analytics, email] else [analytics];
  }

  // What a call of Record leaves in the journal, whatever fails: writes of the store first, then events, a
  // first part of those for the command's kind. A response means all of them, and lists their channels.
  lemma RecordByKind(w: World, env: string, r: Request, c: Command, instant: int, faults: Faults,
                     response: Option<Response>, effects: nat, w': World)
    returns (channels: seq<Channel>, writes: seq<Effect>, posts: seq<Effect>)
    requires Ran(w, env, r, c, instant, faults, response, effects, w')
    ensures ChannelsOf(c, channels)
    ensures w'.entries == w.entries + (writes + posts)
    ensures forall i :: 0 <= i < |writes| ==> writes[i].Stored?
    ensures |posts| <= |channels| && PostsOn(c, channels[..|posts|], posts)
    ensures response.Some? ==>
              && posts != [] && |posts| == |channels| && response.value.published == channels
              && response.value.sessionId == c.sessionId && response.value.campaignId == c.campaignId
              && (response.value.stored <==> writes != [])
  {
    PostedByKind(c);
    SomethingIsPublished(c);
    channels := PlannedChannels(c);
    var stored, posted := StoredEffects(StorePlan(r)), PostedEffects(c);
    writes, posts := CutIn(stored, posted, effects);
    assert Plan(r, c) == stored + posted;
    PostsOnFirst(c, channels, posted, |posts|);
  }

  lemma CutIn<T>(a: seq<T>, b: seq<T>, n: nat) returns (x: seq<T>, y: seq<T>)
    requires n <= |a| + |b|
    ensures (a + b)[..n] == x + y && x <= a && y <= b
    ensures n == |a| + |b| ==> x == a && y == b
  {
    if n <= |a| {
      x, y := a[..n], [];
    } else {
      x, y := a, b[..n - |a|];
    }
  }

  lemma PostsOnFirst(c: Command, channels: seq<Channel>, posts: seq<Effect>, n: nat)
    requires PostsOn(c, channels, posts) && n <= |posts|
    ensures PostsOn(c, channels[..n], posts[..n])
  {
  }
}
