// What the platform posts to the event gateway (event_gateway.go), and the journal of everything a
// request leaves behind.
module Events {
  import opened Text
  import opened Slug
  import opened Names
  import opened Commands
  import opened StoreSpec

  datatype Payload =
    | AnalyticsPayload(sessionId: string, userId: string, eventName: string, pageUrl: string,
                       surface: string, action: string, subjectType: string, subjectId: string,
                       campaignId: string, metadata: Metadata)
    | EmailPayload(campaignId: string, recipientId: string, eventType: string, route: string,
                   surface: string, subjectType: string, subjectId: string, metadata: Metadata)

  datatype Channel = Analytics | Email

  // shouldPublishAnalytics
  predicate PublishesAnalytics(command: Command) {
    command.eventKind != "email"
  }

  // shouldPublishEmail
  predicate PublishesEmail(command: Command) {
    if command.eventKind == "email" || command.eventKind == "both" then true
    else if command.eventKind == "analytics" then false
    else command.subjectType == "campaign" || command.campaignId != ""
  }

  function RoutePath(route: string): string {
    var r := TrimSpace(route);
    if r == "" || r == "/" then "/dashboard" else if r[0] == '/' then r else "/" + r
  }

  function AnalyticsEvent(c: Command): Payload {
    AnalyticsPayload(c.sessionId, c.userId, EventName(c.surface, c.action), RoutePath(c.route),
                     c.surface, c.action, c.subjectType, c.subjectId, c.campaignId, c.metadata)
  }

  function EmailEvent(c: Command): Payload {
    EmailPayload(FirstNonBlank([c.campaignId, c.subjectId, "platform-ui"]), c.recipientId,
                 "ui_" + SlugOf(c.action), RoutePath(c.route),
                 c.surface, c.subjectType, c.subjectId, c.metadata)
  }

  function PlannedChannels(command: Command): seq<Channel> {
    (if PublishesAnalytics(command) then [Analytics] else []) + (if PublishesEmail(command) then [Email] else [])
  }

  datatype Effect = Stored(write: Write) | Posted(channel: Channel, payload: Payload)

  // The order in which effects reached the outside world.
  class Journal {
    ghost var entries: seq<Effect>

    constructor ()
      ensures entries == []
    {
      entries := [];
    }
  }

  // How a call to the outside can fail: before it took effect, or after, with only the reply lost.
  datatype Fault = NotApplied | ReplyLost

  // The calls one request can make.
  datatype Site =
    | Begin | SelectOrder | SelectNext | Upsert | Seed | Update | InspectUpdate
    | ClearSegments | ClearFilters | InsertSegment(index: nat)
    | SelectFilter(index: nat) | SelectNextFilter(index: nat) | InsertFilter(index: nat) | Assign(index: nat)
    | Commit
    | Post(channel: Channel)

  type Faults = map<Site, Fault>
}
