# Curator platform: a verified model of its state and its pipelines

This project models, in Dafny, the parts of the platform that keep state or move data, and proves what
they keep. `dafny verify dfyconfig.toml` checks all of it.

The parts, and the modules that hold them:

- **The appdb store.** `AppTables` holds the keyed tables and what makes them legal; `StoreSpec` says, as
  functions on tables, what each command writes; `ContentRepository` is the repository itself, a class that
  issues one SQL statement at a time against a class of tables, with a fault before or after any statement;
  `StoreFacts` and `StoreTheorems` prove what the writes mean, what every serial run keeps and what a retry
  does; `StoredCommands` follows each field of a command to its column; `BootstrapSeed` is the state the
  bootstrap script leaves. `CampaignRace` splits campaign creation into its separately committed statements and
  interleaves them.
- **The interaction pipeline.** `Commands` and `Names` hold the command, its metadata getters and the generated
  names; `Slug` is the slug function that occurs three times; `Events` the posted payloads; `Interactions`
  normalises, stores and publishes; `RecordedEvents` says field by field what is posted and answered.
- **The object index.** `SqlText` prints and reads `VALUES` tuples; `IndexRows` lists, sorts, chunks and prints;
  `IndexStore` is the table and a whole synchronisation; `IndexSync` lets synchronisation runs overlap, crash and
  race with arriving objects.
- **The other batch steps.** `ThirdParty` (snapshot fetch) and `Serving` (publishing the serving tables and
  reading totals back through Trino).
- **The bootstrap views and the seed.** `NumberFormats`, `CampaignMetrics`, `DashboardBars`, and `SeedExport`,
  which prints a whole database and replays it, for the tables and templates of `PlatformSeed`.
- **Request telemetry.** `TransitionLog`, for the Go and the Python program.

Main results, in one line each:

- Every serial run of commands that starts in a legal state stays legal, whatever statements fail
  (`StoreTheorems.RunKeepsLegal`); the class that issues the statements only takes the steps that this result is
  about (`ContentRepository.AppDbRepository.Apply`).
- Enrolling a subscriber is all or nothing, and succeeds exactly when the cleaned segment labels are pairwise
  distinct; then each field of the command is in its column and the segments follow its list
  (`StoreTheorems.AcceptedIffDistinctLabels`, `StoredCommands.EnrolmentIsStored`).
- Interleaved campaign creations never move or reset anything, and keep display orders distinct as long as no two
  of them are about to insert different new campaigns; the moment two are, both get one number
  (`CampaignRace.RunKeepsInv`, `CampaignRace.ExclusiveRunsStayDistinct`, `CampaignRace.OverlapCollides`).
- What a request does is always a prefix of its plan, and re-sending it leaves the rows of one uninterrupted run
  when it names its campaign or subscriber, or when both sends fall in one second; otherwise it adds a second
  campaign or subscriber (`Interactions.Service.Record`, `Interactions.ResendEqualsOnce`,
  `Interactions.ResendOfGeneratedId`), and which events are posted follows from the event kind
  (`RecordedEvents.RecordByKind`).
- The service compares the action untrimmed and the store trimmed, so a placeholder text can become a campaign's key:
  `Interactions.StoredUnderPlaceholderIff` says exactly when, and an empty key is always refused
  (`Interactions.EmptyKeyIsRefused`).
- The index never has more rows for a key than there were runs open at once, a finished run leaves all it listed
  indexed, and the runs open in a reachable world can leave a key a second row exactly when its rows and the runs
  that may add one are two (`IndexSync.RowsNeverExceedOpenRuns`, `IndexSync.FinishedRunsAreIndexed`,
  `IndexSync.SecondRowIffTwoClaims`).
- Printed rows read back as themselves, whatever text they hold (`SqlText.ReadsTuples`, `SeedExport.ReadsScript`),
  and replaying an export restores the database (`PlatformSeed.ReplayRestoresPlatformExport`).
- Two views that add up the same counts in different ways agree (`CampaignMetrics.StoreTotalsAgree`).
- Run on any schedule of requests, each telemetry program has, on every route, one line per server error and per
  status change, and the two programs' logs differ by Python's failures only (`TransitionLog.RunGo`,
  `TransitionLog.RunPy`, `TransitionLog.ProgramsAgreeOnResponses`).
- After any publishes one after the other, stopped anywhere, on marts of which any two agree or differ in both tables,
  the serving tables belong together exactly when both show one version, and what each publish did tells whether they
  do (`Serving.MatchingIffSameVersion`, `Serving.MatchingIffTogether`).

## How the source is read

- The clock, the service's random ids and the outcome of every outside call are parameters. A failing call may
  fail before it took effect or after, with only its reply lost; this includes a commit.
- A synchronisation run that gives up waiting does not cancel its statement: a crashed run may have one batch in
  flight, which may still take effect at any later time.
- A database statement is atomic, and is refused when it breaks a primary or foreign key or leaves the integer
  range of a column.
- A display order of zero and a missing row look the same to the store, as in the source; the proof that orders
  stay positive is what makes the two coincide.
- Display orders chosen by concurrent requests are not protected by the source. `CampaignRace.OverlapIsReachable`
  builds the run that gives two campaigns one order.
- The comment at `trino/init/01_ingress_catalogs.sql:8` promises one row per object. Runs may overlap without
  breaking it; it breaks exactly when two runs may add a row for the same key, or one may while the key has a
  row (`IndexSync.SecondRowIffTwoClaims`). Any two runs that read the index before a new object has its row come to
  that (`IndexSync.OverlapDuplicates`).
- `dagster/README.md:19` promises a consistent switch of the serving tables. The code replaces them one after the
  other, each through an empty state, and reads each mart only when it fills the table. When every publish brings
  something new, the tables match exactly when the last one that did anything got through and dbt did not run in
  between (`Serving.MatchingIffSettled`, `Serving.MatchingIffTogether`). Publishes that overlap can leave the rows of
  both (`Serving.OverlapMixes`).
- Lower-casing is modelled as far as slugs can see it: besides A-Z, the two characters outside ASCII whose lower
  case is an ASCII letter. Every other character is a separator before and after lower-casing.
- In `SeedExport` a column value is its text form, and a number is a text of digits, point and sign. A row holds its
  values by column name; the reader takes the columns from the text of the statement. The conflict clause is printed
  from its list of assignments, and executed by that list.

## Model

| member | source | states |
|---|---|---|
| `Slug.Slugify` | platform/internal/adapters/content/repository.go:532-547 | the slug is the maximal runs of a-z and 0-9 of the lowercased input joined by single hyphens |
| `Slug.Build` | platform/internal/application/interactions/service.go:109-124 | the loop leaves the joined runs, with a hyphen in front when the text starts with a separator and one behind when it ends with one |
| `Slug.FramedGivesSlug` | platform/internal/adapters/gateway/event_gateway.go:138-153 | trimming the hyphens off what the loop built gives the joined runs of the untrimmed input |
| `Slug.TrimKeepsRuns` | platform/internal/adapters/gateway/event_gateway.go:139 | trimming white space before slugging changes no run |
| `Slug.JoinIsSlug` | platform/internal/adapters/content/repository.go:535-546 | joined runs have no leading, trailing or doubled hyphen, and are empty only when there is no run |
| `Slug.RunsOfJoin` | platform/internal/adapters/content/repository.go:536-545 | the runs can be read back from the joined text |
| `Slug.SlugOfIsSlug` | platform/internal/adapters/content/repository.go:532-547 | every result has the shape of a slug |
| `Slug.SlugIdempotent` | platform/internal/adapters/content/repository.go:532-547 | slugging a slug changes nothing |
| `Slug.SlugCollision` | platform/internal/adapters/content/repository.go:532-547 | two inputs have one slug exactly when they have the same runs |
| `Slug.SlugNonEmpty` | platform/internal/adapters/content/repository.go:444-446 | a slug is non-empty exactly when some character is, lowercased, a letter a-z or a digit |
| `Slug.SlugCharacters` | platform/internal/adapters/content/repository.go:538-545 | a slug has only a-z, 0-9 and hyphens |
| `Slug.WordSlug` | platform/internal/adapters/content/repository.go:533-540 | a word of ASCII letters and digits is its own slug with its capitals made small |
| `Commands.MetadataStrings` | platform/internal/adapters/content/repository.go:497-526 | what comes back is the trimmed text of every place of the list that holds a non-blank text, in the order of the places, or the fallback when there is no such place |
| `Commands.CollectTexts` | platform/internal/adapters/content/repository.go:511-521 | the loop, against the recursive definition |
| `Commands.CleanTextsAt` | platform/internal/adapters/content/repository.go:511-521 | the collected texts stand at strictly increasing places, which are all those of non-blank texts |
| `Commands.StringIsRead` | platform/internal/adapters/content/repository.go:464-477 | a text is the trimmed text under the key, or the fallback when that is blank, missing or no text |
| `Commands.IntIsRead` | platform/internal/adapters/content/repository.go:479-495 | a number loses its fraction, towards zero |
| `Commands.CleanTexts` | platform/internal/adapters/content/repository.go:511-521 | every collected text is non-empty and trimmed |
| `Names.EventNameDecodes` | platform/internal/adapters/gateway/event_gateway.go:84 | splitting an event name at its only dot gives back the two slugs |
| `Names.EventNameUnique` | platform/internal/adapters/gateway/event_gateway.go:84 | two event names are equal exactly when surfaces and actions have the same runs |
| `Names.StampTextInjective` | platform/internal/adapters/content/repository.go:529 | the time text determines the second, also for years beyond four digits |
| `Names.StampTextReads` | platform/internal/adapters/content/repository.go:529 | year, month, day, hour, minute and second stand in this order, two digits each after the year |
| `Names.CampaignIdDecodes` | platform/internal/application/interactions/service.go:105-107 | splitting a built campaign id at its last hyphen gives slug and time text |
| `Names.CampaignIdUnique` | platform/internal/application/interactions/service.go:105-107 | two built ids are equal exactly when the actions have the same runs and the seconds are the same |
| `Names.ResolveSubscriberId` | platform/internal/adapters/content/repository.go:429-449 | the id is the slug of the first candidate that yields one, or the generated id |
| `Names.PickSlug` | platform/internal/adapters/content/repository.go:430-448 | the loop returns the first non-empty slug of the part before the at sign, passing over empty and placeholder candidates |
| `Names.SubscriberIsNamed` | platform/internal/adapters/content/repository.go:429-449 | subject, metadata subscriber id, email and name are tried in this order, each by the part before its first at sign, and the clock is the last resort |
| `Names.GeneratedIdIsSlug` | platform/internal/adapters/content/repository.go:528-530 | a generated subscriber id is itself a slug |
| `Names.ResolvedIdIsSlug` | platform/internal/adapters/content/repository.go:429-449 | a resolved id is a non-empty slug |
| `Names.ResolvedIdIsStable` | platform/internal/adapters/content/repository.go:436-449 | as a subject id it resolves to itself for all metadata and clocks exactly when it is not the placeholder new-subscriber |
| `AppTables.NextOrder` | platform/internal/adapters/content/repository.go:405-419 | the next order exceeds every order of the environment by the least amount, or is 1 |
| `AppTables.InsertKeepsOrdered` | platform/internal/adapters/content/repository.go:266-271 | inserting a new row with the next order keeps orders positive and distinct per environment |
| `ContentRepository.AppDb.InsertOrUpdateCampaign` | platform/internal/adapters/content/repository.go:147-183 | the upsert succeeds exactly when the environment is there and the count fits; it keeps an existing display order and every key |
| `ContentRepository.AppDb.InsertAnalytics` | platform/internal/adapters/content/repository.go:185-203 | seeds zero counters only where there is no row, and only for an existing campaign |
| `ContentRepository.AppDb.UpdateCampaign` | platform/internal/adapters/content/repository.go:214-235 | changes the one campaign if it is there, and reports the number of rows |
| `ContentRepository.AppDb.InsertOrUpdateSubscriber` | platform/internal/adapters/content/repository.go:273-305 | the upsert keeps an existing display order and creation time, and every key |
| `ContentRepository.AppDb.InsertSegment` | appdb/init/02_platform_bootstrap.sql:118-125 | refused exactly when the owner has the label already or does not exist |
| `ContentRepository.AppDb.InsertFilter` | platform/internal/adapters/content/repository.go:368-376 | adds a filter that is not there, changes nothing when it is |
| `ContentRepository.AppDb.InsertAssignment` | appdb/init/02_platform_bootstrap.sql:127-134 | repeats do not conflict; subscriber and filter must exist |
| `ContentRepository.AppDbRepository.Apply` | platform/internal/adapters/content/repository.go:100-120 | whatever fails, the tables and the journal advance by the same first n planned writes; success means all of them and that the request was acceptable; without faults success is acceptance, and a refused request leaves no trace |
| `ContentRepository.AppDbRepository.CreateCampaign` | platform/internal/adapters/content/repository.go:122-206 | of its two writes it committed none, the upsert, or both, and tells which |
| `ContentRepository.AppDbRepository.ScheduleCampaign` | platform/internal/adapters/content/repository.go:208-241 | updates the campaign, and fails without trace when it does not exist |
| `ContentRepository.AppDbRepository.CreateSubscriber` | platform/internal/adapters/content/repository.go:243-347 | the tables are untouched or hold the whole subscriber; success means the latter |
| `ContentRepository.AppDbRepository.WriteSubscriber` | platform/internal/adapters/content/repository.go:262-340 | when the statements between begin and commit all succeed, the tables are exactly those the specification gives; without faults they succeed exactly when the request is acceptable |
| `ContentRepository.AppDbRepository.WriteSegments` | platform/internal/adapters/content/repository.go:314-325 | the loop succeeds, without faults, exactly when the labels are distinct, and then holds them numbered in order |
| `ContentRepository.AppDbRepository.WriteFilters` | platform/internal/adapters/content/repository.go:327-340 | every tag has a filter and an assignment afterwards |
| `ContentRepository.AppDbRepository.EnsureFilterExists` | platform/internal/adapters/content/repository.go:349-379 | adds the missing filter with the next order, leaves an existing one alone, fails only on a fault or when the order leaves the integer range |
| `ContentRepository.AppDbRepository.ChooseOrder` | platform/internal/adapters/content/repository.go:128-137 | the stored order of an existing row, the next one otherwise |
| `ContentRepository.AppDbRepository.ReadRequest` | platform/internal/adapters/content/repository.go:101-119 | dispatches on the trimmed action; the tags of an enrolment are clean |
| `StoreFacts.EnrolTagsAreClean` | platform/internal/adapters/content/repository.go:259-260 | the filter tags of every enrolment are trimmed and non-empty, defaults included |
| `StoreFacts.EnrolLabelsAreClean` | platform/internal/adapters/content/repository.go:259 | and so are its segment labels |
| `StoreFacts.BriefIsClean` | platform/internal/adapters/content/repository.go:139-145 | every text a brief stores is trimmed and non-empty, and its id is trimmed |
| `StoreFacts.EnrolIsClean` | platform/internal/adapters/content/repository.go:254-258 | every text an enrolment stores is trimmed and non-empty, the generated email included |
| `StoreFacts.SegmentsHold` | platform/internal/adapters/content/repository.go:314-325 | after the insert loop an owner without segments has exactly the given labels, and all others theirs |
| `StoreTheorems.SegmentsMeaning` | platform/internal/adapters/content/repository.go:314-325 | distinct labels end up as the owner's exact list, numbered 1 to n in order |
| `StoreTheorems.FiltersMeaning` | platform/internal/adapters/content/repository.go:327-330 | the filters afterwards are the old ones with their orders plus exactly the tags, and orders stay legal |
| `StoreTheorems.SubscriberMeaning` | platform/internal/adapters/content/repository.go:273-340 | segments equal the list in order, assignments equal the tag set, every tag has a filter, and other subscribers, existing filter orders and all other tables are unchanged |
| `StoreTheorems.SubscriberRowMeaning` | platform/internal/adapters/content/repository.go:273-303 | the row holds the request; an existing order and creation time stay, a new order exceeds all others of the environment |
| `StoreTheorems.BriefMeaning` | platform/internal/adapters/content/repository.go:122-206 | one campaign row and one analytics row may be added or rewritten, existing counters stay, new ones are zero, all else is unchanged |
| `StoreTheorems.CampaignRowMeaning` | platform/internal/adapters/content/repository.go:147-181 | the row holds the request; an existing order stays, a new one exceeds all others of the environment |
| `StoreTheorems.LaunchMeaning` | platform/internal/adapters/content/repository.go:214-227 | a launch rewrites four texts of its campaign and nothing else |
| `StoredCommands.EnrolmentIsStored` | platform/internal/adapters/content/repository.go:254-340 | after a committed add-subscriber every column of the row is the text under its own metadata key or its default, the segments are the texts under assignedSegments in order, and the assignments exactly the texts under filterTags |
| `StoredCommands.SegmentsFollowTheList` | platform/internal/adapters/content/repository.go:314-325 | the k-th non-blank text under assignedSegments is the segment with order k + 1, and there are no others |
| `StoredCommands.BriefIsStored` | platform/internal/adapters/content/repository.go:123-181 | after a create-brief stopped past its first write every column of the row is the value under its own metadata key or its default |
| `StoredCommands.LaunchIsStored` | platform/internal/adapters/content/repository.go:209-227 | a launch goes to the campaign of the trimmed campaign id, or else of the trimmed subject |
| `StoreTheorems.FiltersHaveRoom` | platform/internal/adapters/content/repository.go:363-366 | numbering the tags raises the next order by at most their number, so they fit when there is room |
| `StoreTheorems.AcceptedIffDistinctLabels` | appdb/init/02_platform_bootstrap.sql:118-125 | in a legal state with room for the numbers an enrolment is accepted exactly when its labels are pairwise distinct |
| `StoreTheorems.BriefKeepsLegal` | platform/internal/adapters/content/repository.go:122-206 | the tables are legal after the upsert alone and after both statements |
| `StoreTheorems.LaunchKeepsLegal` | platform/internal/adapters/content/repository.go:208-241 | scheduling keeps the tables legal |
| `StoreTheorems.EnrolKeepsLegal` | platform/internal/adapters/content/repository.go:243-347 | an accepted enrolment keeps foreign keys, orders and segment numbering |
| `StoreTheorems.EnrolKeepsSegmentsNumbered` | platform/internal/adapters/content/repository.go:307-325 | every subscriber's segments, the new one's and all others', are numbered exactly 1 to n |
| `StoreTheorems.StepKeepsLegal` | platform/internal/adapters/content/repository.go:100-120 | one command, stopped after any of its writes, keeps the tables legal |
| `StoreTheorems.RunKeepsLegal` | appdb/init/02_platform_bootstrap.sql:58-134 | every serial run of commands with any failures, in any environments, stays legal throughout |
| `BootstrapSeed.SeedIsLegal` | appdb/init/02_platform_bootstrap.sql:271-388 | right after the reseed the tables are a legal start, whatever the columns other than keys, orders, segments and assignments hold |
| `BootstrapSeed.TablesAreLegal` | appdb/init/02_platform_bootstrap.sql:271-388 | so are any tables built that way from lists without repetitions |
| `BootstrapSeed.GeneratedIsOrdered` | appdb/init/02_platform_bootstrap.sql:339-365 | the generated subscribers have distinct orders from 1001 up |
| `BootstrapSeed.GeneratedKeysAreFresh` | appdb/init/02_platform_bootstrap.sql:351-365 | no generated subscriber meets the key of another |
| `BootstrapSeed.MembersAreNotFeatured` | appdb/init/02_platform_bootstrap.sql:319-337 | nor that of a featured one |
| `StoreTheorems.BriefAgain` | platform/internal/adapters/content/repository.go:162-169 | a create-brief stopped anywhere and sent again leaves the rows of a single one, timestamps apart |
| `StoreTheorems.EnrolAgain` | platform/internal/adapters/content/repository.go:288-340 | the same for an enrolment |
| `StoreTheorems.AcceptedAgain` | platform/internal/adapters/content/repository.go:122-347 | a request that was begun is still accepted exactly if it was at first |
| `StoreTheorems.RetryEqualsOnce` | platform/internal/adapters/content/repository.go:122-347 | any request stopped after any of its writes and sent again: same acceptance, same rows as one run, timestamps apart |
| `CampaignRace.StepKeepsInv` | platform/internal/adapters/content/repository.go:128-203 | every single statement of any request keeps orders positive, analytics with their campaign, and existing orders and counters as they are |
| `CampaignRace.RunKeepsInv` | platform/internal/adapters/content/repository.go:122-206 | the same over every interleaving, between any two moments of a run |
| `CampaignRace.StepKeepsDistinct` | platform/internal/adapters/content/repository.go:132-137 | while insertions of different new campaigns do not overlap, a statement keeps orders distinct |
| `CampaignRace.ExclusiveRunsStayDistinct` | platform/internal/adapters/content/repository.go:128-183 | the same over every interleaving |
| `CampaignRace.OverlapCollides` | platform/internal/adapters/content/repository.go:132-183 | when two requests are about to insert different new campaigns, their upserts give both one order |
| `CampaignRace.OverlapIsReachable` | platform/internal/adapters/content/repository.go:405-411 | from any state without open requests, timing alone leads there |
| `CampaignRace.SoloRunIsCreateCampaign` | platform/internal/adapters/content/repository.go:122-206 | a request whose statements run undisturbed does what the serial function does |
| `Interactions.Service.Record` | platform/internal/application/interactions/service.go:26-80 | a blank surface or action changes nothing; otherwise the effects are a prefix of the plan of the normalised command, a response means the whole plan, and without faults there is a response exactly when the store accepts |
| `RecordedEvents.RecordByKind` | platform/internal/adapters/gateway/event_gateway.go:30-48 | whatever fails, the journal gains writes of the store and then a first part of the events for the event kind: analytics alone, email alone, both in this order, or else analytics with an email for campaigns only; each event carries the command field by field; a response means all of them, and lists their channels |
| `Interactions.Service.NormalizeInPlace` | platform/internal/application/interactions/service.go:34-55 | the sequence of assignments computes the normalisation |
| `Interactions.Service.ApplyToStore` | platform/internal/application/interactions/service.go:57-64 | without a store nothing is written and nothing reported as stored |
| `Interactions.Service.ApplyAndPublish` | platform/internal/application/interactions/service.go:57-79 | publishing starts only when all writes are done; nothing is undone when it fails |
| `Interactions.Service.PublishStored` | platform/internal/application/interactions/service.go:66-79 | once the writes are done the events follow in order, and a failing one leaves what is before it |
| `Interactions.EventGateway.PublishInteraction` | platform/internal/adapters/gateway/event_gateway.go:30-48 | posts a prefix of the planned events, analytics before email; success means all of them |
| `RecordedEvents.PostedByKind` | platform/internal/adapters/gateway/event_gateway.go:112-125 | the events and channels planned for each event kind |
| `RecordedEvents.EventsCarry` | platform/internal/adapters/gateway/event_gateway.go:80-110 | session, user, recipient, subject, campaign, metadata, the event name as surface then action, and the route as a path |
| `RecordedEvents.RouteIsPath` | platform/internal/adapters/gateway/event_gateway.go:127-136 | a path begins with one slash in front of the trimmed route, and is the dashboard for none |
| `Interactions.EventGateway.PostJson` | platform/internal/adapters/gateway/event_gateway.go:50-78 | a post that fails may have reached the gateway |
| `Interactions.SomethingIsPublished` | platform/internal/adapters/gateway/event_gateway.go:112-125 | every command has at least one channel |
| `Interactions.NormalizeIdempotent` | platform/internal/application/interactions/service.go:34-55 | normalising again changes nothing, under any later clock and session id |
| `RecordedEvents.NormalizedFields` | platform/internal/application/interactions/service.go:34-49 | which fields get which defaults, and that all others stay |
| `RecordedEvents.NormalizedIdentity` | platform/internal/application/interactions/service.go:50-55 | when the campaign id is filled in and with what, and when the subject is |
| `Interactions.IdentifiedHasId` | platform/internal/application/interactions/service.go:50-52 | a command that needs a campaign identity has one afterwards |
| `Interactions.StoreKeyNamesNoCampaignIff` | platform/internal/application/interactions/service.go:50-55 | the campaign key a normalised command carries is empty or a placeholder exactly when the campaign id is a placeholder text, or the subject names none and the campaign id is white space or no identity was asked for |
| `Interactions.StoreKeyIsPlaceholderIff` | platform/internal/application/interactions/service.go:50-55 | that key is new-brief or new-campaign exactly when that was sent as the campaign id, or as the subject under an action that is not exactly create-brief and with no identity filled in |
| `Interactions.StoreKeyIsEmptyIff` | platform/internal/application/interactions/service.go:50-55 | and it is empty exactly when the campaign id is blank and not filled in, and the subject is blank, or a placeholder that normalisation overwrites |
| `Interactions.EmptyKeyIsRefused` | platform/internal/adapters/content/repository.go:123-126 | a create-brief with an empty key is refused and stores nothing |
| `Interactions.StoredUnderPlaceholderIff` | platform/internal/adapters/content/repository.go:122-183 | exactly when a create-brief is accepted under a placeholder text, and that its row is then in the table |
| `Interactions.PlaceholderCampaign` | platform/internal/adapters/content/repository.go:101-103 | one input that is: the action with a space before it, and new-brief as the subject |
| `Interactions.CampaignIdsAgree` | platform/internal/adapters/gateway/event_gateway.go:97-99 | the email's campaign id and the response's agree up to trimming exactly when the latter is not blank, and then the store's key is that id |
| `Interactions.ResentRequestIsTheSame` | platform/internal/application/interactions/service.go:86-94 | a command that names its campaign or subscriber asks the store for the same at every clock |
| `Interactions.ResendEqualsOnce` | platform/internal/application/interactions/service.go:57-69 | sent again after stopping anywhere it is accepted as at first and leaves the rows of one run, timestamps apart |
| `Interactions.GeneratedIdDependsOnSecond` | platform/internal/application/interactions/service.go:105-107 | when the id is generated, two sends name the same row exactly when they fall in the same second |
| `Interactions.ResendOfGeneratedId` | platform/internal/application/interactions/service.go:86-107 | with a generated id, a send stopped after any of its writes and repeated leaves the rows of one run in the same second, and a second campaign or subscriber in another |
| `SqlText.ReadsEscaped` | dagster/repository.py:61-62 | a literal with doubled quotes reads back as its text |
| `SqlText.ReadsCell` | dagster/repository.py:61-87 | every printed value, null, text, timestamp, date or integer, reads back |
| `SqlText.ReadsCells` | dagster/repository.py:188-195 | the values of a tuple read back in order, whatever quotes, commas and parentheses they hold |
| `SqlText.ReadsTuples` | dagster/repository.py:198-206 | a list of tuples reads back in order |
| `IndexRows.MilliTextDecides` | dagster/repository.py:71-77 | two printed timestamps are equal exactly when the times agree to the millisecond |
| `IndexRows.CellsDecideEntry` | dagster/repository.py:65-68 | two entries print alike exactly when they agree up to the etag's empty text and sub-millisecond times |
| `IndexRows.RowHoldsEntry` | dagster/repository.py:188-206 | the value under each column named in the statement is the entry's: key, etag or null, topic, times, date, size or null |
| `IndexRows.MilliTextReads` | dagster/repository.py:71-81 | year to milliseconds stand in this order in a printed time, each with its digits, and the date is its first three parts |
| `IndexRows.ReadsInsert` | dagster/repository.py:198-206 | the printed statement, column list included, reads back as the rows of the batch, each value under its column |
| `IndexRows.ChunksMakeTheList` | dagster/repository.py:111-112 | the chunks concatenate to the list; none is empty or too long, and only the last may be short |
| `IndexRows.SortIsSorted` | dagster/repository.py:179-180 | sorting by key permutes and orders |
| `IndexRows.LexLeMeaning` | dagster/repository.py:179 | keys are ordered by the first place where they differ, a prefix coming first |
| `IndexRows.ListUnprocessed` | dagster/repository.py:160-180 | what is found is exactly the unseen objects that are no directories, over all pages, sorted |
| `IndexRows.ListPage` | dagster/repository.py:166-178 | one page appends exactly its unseen objects that are no directories |
| `IndexRows.DiscoveredDescribe` | dagster/repository.py:170-178 | every found entry describes a listed object that was not seen and does not end in a slash: its key, its etag between the quotes, the second segment of a key under bronze/ as topic, its time and size |
| `IndexStore.FoundIffWanted` | dagster/repository.py:166-169 | a key is found exactly when it is listed, not seen and no directory |
| `IndexStore.RecordEntries` | dagster/repository.py:198-206 | whichever statement fails, before it took effect or after, the table gains rows that hold a first part of the entries, in order and column by column; all of them otherwise |
| `IndexStore.RecordBatches` | dagster/repository.py:200-206 | the loop over the batches, with every statement printed and read back |
| `IndexStore.GainedKeys` | dagster/repository.py:155-157 | the texts under object_key are the old ones and the keys of the entries gained |
| `IndexStore.Sync` | dagster/repository.py:358-379 | a whole run: when done the index has its old keys and those of all listed objects that are no directories; when it had them all, nothing is inserted; stopped anywhere, only wanted keys are added |
| `IndexStore.SyncTwice` | dagster/repository.py:358-379 | a second run over the same objects inserts nothing |
| `IndexSync.BatchesCount` | dagster/repository.py:166-180 | the batches of a run hold each wanted listed key once and nothing else |
| `IndexSync.StepKeepsOncePerRun` | dagster/repository.py:358-379 | no step lets one run write a key twice |
| `IndexSync.StepKeepsBounded` | dagster/repository.py:155-206 | no step lets rows plus prospective writers of an indexed key exceed the number of open runs allowed |
| `IndexSync.LandMovesClaim` | dagster/repository.py:32-52 | a statement that takes effect after its run gave up adds only rows the run still claimed |
| `IndexSync.RowsNeverExceedOpenRuns` | trino/init/01_ingress_catalogs.sql:8-17 | over every interleaving with crashes, late statements and arrivals, no key has more rows than runs were open at once, a crashed run counting as open while its last statement may still take effect |
| `IndexSync.StepKeepsComplete` | dagster/repository.py:369-379 | what a run has listed is indexed or still to be written |
| `IndexSync.RunsStayComplete` | dagster/repository.py:358-379 | the same over every interleaving |
| `IndexSync.FinishedRunsAreIndexed` | dagster/repository.py:358-379 | a finished run leaves each key it listed, and each there when it began, with a row; with exactly one while claims on the key are single, which they are when no runs overlap |
| `IndexSync.ReachableInv` | dagster/repository.py:155-206 | what the next results ask of a world holds in every reachable one |
| `IndexSync.StepKeepsClaims` | dagster/repository.py:155-206 | the rows of a key and the runs that may add one together only grow when a run begins while the key has no row |
| `IndexSync.OneClaimOneRow` | trino/init/01_ingress_catalogs.sql:8-17 | however runs overlap, a key never gets a second row as long as, while it has none, at most one run at a time may add one |
| `IndexSync.ClaimsBoundRows` | dagster/repository.py:188-206 | the runs already open never bring a key to more rows than it has rows and prospective writers |
| `IndexSync.TwoClaimsTwoRows` | dagster/repository.py:160-206 | from every reachable world in which a key has two claims, two writers or a row and a writer, the runs already open can give it two rows |
| `IndexSync.SecondRowIffTwoClaims` | trino/init/01_ingress_catalogs.sql:8-17 | in every reachable world the runs already open can leave a key two rows if and only if its rows and the runs that may add one are at least two |
| `IndexSync.DirectoriesGetNoRow` | dagster/repository.py:168-169 | over every interleaving a key that ends in a slash never gets a row |
| `IndexSync.OverlapDuplicates` | dagster/repository.py:155-157 | from every reachable world without a row for a key, two more runs that begin together can leave it two rows |
| `ThirdParty.Stores.Fetch` | dagster/repository.py:210-262 | a fetch that fails at any step leaves the snapshot whole, a row for each record that keeps its id, provider and payload, or absent, and the records committed or untouched; an empty batch fails |
| `ThirdParty.FetchAll` | dagster/repository.py:210-262 | any list of attempts takes the stores where the functions on attempts say |
| `ThirdParty.InsertNewKeepsFirst` | dagster/repository.py:241-262 | per id, a batch insert keeps the stored version, or else the first in the batch |
| `ThirdParty.AppdbKeepsFirstVersion` | dagster/repository.py:250 | over all attempts, appdb holds for every id the first version ever committed |
| `ThirdParty.AppdbNeverChanges` | appdb/init/01_init.sql:4-10 | and keeps it whatever is fetched later |
| `ThirdParty.AppdbIsInIceberg` | dagster/repository.py:233-262 | every record of appdb has an Iceberg row with its id, provider and payload, its account or null for an empty one, and its time cut to milliseconds |
| `ThirdParty.IcebergIsFetched` | dagster/repository.py:224-237 | and every Iceberg row is that of a record of a batch that got there |
| `ThirdParty.FetchedIsStored` | dagster/repository.py:239-262 | a fetch that succeeds has all its records in appdb, and one that fails before the commit changes nothing there |
| `Serving.ServingStore.Publish` | dagster/repository.py:310-340 | stopped after any of the four statements, the tables are those of that many statements |
| `Serving.PublishAll` | dagster/repository.py:310-340 | any list of attempts takes the tables where the functions on attempts say |
| `Serving.SwitchInTurn` | dagster/repository.py:313-340 | between an old and a new pair of non-empty tables that both change, the pair is the old or the new one exactly before the first statement and after the last |
| `Serving.NeverMixed` | dagster/repository.py:310-340 | after any attempts on any marts, each table is the whole of one version, the first one, or empty, and which one it is |
| `Serving.MatchingIffSameVersion` | dagster/README.md:19 | where any two versions agree or differ in both tables, empty ones included, the tables match exactly when both are of one version, or both empty when that is a version |
| `Serving.MatchingIffTogether` | dagster/README.md:19 | for non-empty versions, by how far the attempts got: one that did nothing passes, a complete one must have read both marts of one version, one stopped after its second statement must have met the engagement rows of its own version, any other breaks the match |
| `Serving.MatchingIffSettled` | dagster/README.md:19 | when every attempt brings something new, the two tables match exactly when the last attempt that did anything got through |
| `Serving.FirstPublish` | dagster/repository.py:313-340 | into empty tables: they match until the first one is filled, and again when the publish is complete |
| `Serving.RerunReachesNew` | dagster/repository.py:310-340 | a complete run leaves what it read, whatever the attempts before it did |
| `Serving.StatementsInTurn` | dagster/repository.py:313-340 | the statements executed one by one are those of an undisturbed publish |
| `Serving.OverlapFreeIsWhole` | dagster/repository.py:310-340 | over every interleaving of any number of publishes in which no two have emptied the same table before filling it, each table is the first one, empty, or one whole mart |
| `Serving.OverlapMixes` | dagster/repository.py:313-340 | the moment two have emptied the performance table, their next statements leave both marts in it, and its totals are those of both |
| `Serving.OverlapMixesEngagement` | dagster/repository.py:327-340 | and so for the engagement table |
| `Serving.DoubleIsExactIff` | platform/internal/adapters/analytics/trino_repository.go:147-150 | a number survives its way through a double exactly when it is a multiple of the spacing there, in particular up to 2^53 |
| `Serving.NearestIsNearest` | platform/internal/adapters/analytics/trino_repository.go:147-150 | a decoded number is the nearest multiple of the spacing, the even one in the middle |
| `Serving.NumbersRead` | platform/internal/adapters/analytics/trino_repository.go:147-166 | a number, or its text in range, is read as itself |
| `Serving.FirstInexactTotal` | platform/internal/adapters/analytics/trino_repository.go:147-150 | 2^53 + 1 is read as 2^53 |
| `Serving.Query` | platform/internal/adapters/analytics/trino_repository.go:76-114 | returns the data of all pages in order exactly when the pages end without an error or a lost reply |
| `Serving.LoadAnalytics` | platform/internal/adapters/analytics/trino_repository.go:41-61 | reads the totals of the first row when the query ends, and fails exactly when it does not |
| `Serving.ServedSums` | dagster/dbt/models/marts/mart_campaign_performance.sql:1-8 | the sums over the served table are the sums over the analytics table |
| `Serving.PublishedRows` | dagster/repository.py:313-340 | after a complete publish the tables hold, row by row, the campaign, counts and times of the analytics table, and the page, event, counts and times of the engagement mart, times cut to seconds and nulls replaced |
| `Serving.PublishedTotals` | platform/internal/adapters/analytics/trino_repository.go:41-61 | whatever LoadAnalytics gives back once the sums of a complete publish have come through, in any number of pages, is the sums over the analytics table exactly within 2^53, and rounded to doubles while those fit an int64 |
| `TransitionLog.DecideEmits` | platform/internal/telemetry/telemetry.go:199-210 | a decision adds one line, written or about to be, exactly when the automaton logs, whatever the other requests are doing |
| `TransitionLog.WriteKeepsEmitted` | platform/internal/telemetry/telemetry.go:212-224 | writing a line later neither adds nor loses one, whatever happened since the decision |
| `TransitionLog.LastIsLastOther` | platform/internal/telemetry/telemetry.go:203-209 | the remembered status of a route is the last of its statuses that was no server error |
| `TransitionLog.LoggedIsExpected` | event-gateway/app/observability.py:82-97 | deciding ending by ending logs, on every route, one line per server error and per adjacent change of the other statuses |
| `TransitionLog.RunEmitsLogged` | platform/internal/telemetry/telemetry.go:176-226 | over every schedule, for lines of any kind: those written or about to be are those the automaton logs of the endings decided on so far |
| `TransitionLog.RunEmitsExpected` | event-gateway/app/observability.py:60-116 | so over every schedule of either program each route has one line per server error and per adjacent change of its other statuses |
| `TransitionLog.OneStatusRuns` | platform/internal/telemetry/telemetry.go:200-201 | a route that only answers with one status has a line each time from 500 up, and none below |
| `TransitionLog.GoTelemetry.Observe` | platform/internal/telemetry/telemetry.go:191-210 | a decision, as specified, with the status remembered |
| `TransitionLog.GoTelemetry.DecideLine` | platform/internal/telemetry/telemetry.go:199-210 | the locked branch logs exactly as the automaton does, and remembers the status when it is below 500 |
| `TransitionLog.GoTelemetry.Dec` | platform/internal/telemetry/telemetry.go:186-187 | the deferred decrement, so the gauge is the number of open requests |
| `TransitionLog.GoTelemetry.Unwind` | platform/internal/telemetry/telemetry.go:186-189 | a panic passes over the decision and still decrements the gauge |
| `TransitionLog.PyTelemetry.Return` | event-gateway/app/observability.py:70-80 | the gauge drops when the handler is over, before the decision |
| `TransitionLog.PyTelemetry.Observe` | event-gateway/app/observability.py:82-97 | the same decision, with an exception observed as status 500 on the path |
| `TransitionLog.PyTelemetry.DecideLine` | event-gateway/app/observability.py:82-97 | the same branch |
| `TransitionLog.RunGo` | platform/internal/telemetry/telemetry.go:176-226 | run on any schedule, the program ends in the state the schedule gives, its gauge is the number of requests that arrived and did not depart, and each route has, written or about to be, one line per server error and per adjacent change of its other statuses |
| `TransitionLog.RunPy` | event-gateway/app/observability.py:60-116 | the same, with the gauge counting the requests inside their handlers |
| `TransitionLog.ProgramsAgreeOnResponses` | event-gateway/app/observability.py:76-97 | of any Go run and any Python run that decide on the same responses in the same order, the Python run has the lines of the Go run and one for each of its own failures, with status 500 on the failure's path |
| `TransitionLog.ProgramsDecideAlike` | event-gateway/app/observability.py:76-97 | on one list of endings both programs remember alike and log the same responses in the same order; Python logs every failure besides |
| `NumberFormats.IntegerRoundTrip` | appdb/init/03_platform_bootstrap_views.sql:1-7 | dropping the commas gives the number back, exactly for 0 to 10^12 - 1 |
| `NumberFormats.UngroupedDigits` | appdb/init/03_platform_bootstrap_views.sql:6 | grouping only adds commas |
| `NumberFormats.GroupsOfThree` | appdb/init/03_platform_bootstrap_views.sql:6 | counted from the right, every fourth character is a comma and no other |
| `NumberFormats.IntegerText` | appdb/init/03_platform_bootstrap_views.sql:6 | a number in range prints its digits in groups of three, with a sign in front when negative, and null as zero |
| `NumberFormats.CompactReads` | appdb/init/03_platform_bootstrap_views.sql:9-20 | a compact text reads as the number rounded to tenths of its unit, and is unreadable exactly where that needs a fourth integer digit |
| `NumberFormats.CompactIsCloseAndMonotone` | appdb/init/03_platform_bootstrap_views.sql:16-17 | within 50 for 1000 to 999949 and within 50000 for 10^6 to 999949999, and in order within each range |
| `CampaignMetrics.JoinDoesNotFanOut` | appdb/init/03_platform_bootstrap_views.sql:180-184 | the left join has exactly one row per campaign of the environment |
| `CampaignMetrics.JoinSumsToDirect` | appdb/init/03_platform_bootstrap_views.sql:170-185 | the sums over the join, campaign by campaign, are the sums over the analytics rows |
| `CampaignMetrics.TotalsAddUp` | appdb/init/03_platform_bootstrap_views.sql:94-102 | a row adds its delivered and bounced recipients to the totals of its own environment |
| `CampaignMetrics.ViewsAgreeOnTotals` | appdb/init/03_platform_bootstrap_views.sql:94-102 | summary and dashboard totals are equal whenever the environment has a campaign, and zero otherwise |
| `CampaignMetrics.StoreTotalsAgree` | appdb/init/02_platform_bootstrap.sql:161-174 | the same in every state in which the foreign keys hold |
| `CampaignMetrics.RateIsTheDeliveredShare` | appdb/init/03_platform_bootstrap_views.sql:176-179 | the rate is the delivered share in percent to within half a hundredth |
| `CampaignMetrics.DeliverabilityIsAPercentage` | appdb/init/03_platform_bootstrap_views.sql:215 | for non-negative counts the rate is between 0 and 100 and the clamp never acts |
| `DashboardBars.BarsMeaning` | appdb/init/03_platform_bootstrap_views.sql:219-259 | seven bars in date order, heights in [18, 94] and ordered as the counts |
| `DashboardBars.BarCounts` | appdb/init/03_platform_bootstrap_views.sql:230-239 | a bar has its own day's count in its own environment, and zero without a row |
| `DashboardBars.EmphasisMeaning` | appdb/init/03_platform_bootstrap_views.sql:240-259 | exactly one bar is emphasised, the latest of those with the highest count; it reaches 94 when that is positive |
| `DashboardBars.HeightIsProportional` | appdb/init/03_platform_bootstrap_views.sql:245 | between the caps a height is the count's share of 94 to within a half |
| `DashboardBars.RankOneIffLatestHighest` | appdb/init/03_platform_bootstrap_views.sql:246 | the row number is 1 exactly for the latest day with the highest count |
| `DashboardBars.HeightMonotone` | appdb/init/03_platform_bootstrap_views.sql:245 | a higher count never has a lower bar |
| `DashboardBars.FullHeight` | appdb/init/03_platform_bootstrap_views.sql:245 | a positive maximum reaches 94 |
| `SeedExport.ReadsText` | appdb/queries/export_platform_seed.sql:35 | a quoted text reads back, in the plain form and, with backslashes, in the escape form |
| `SeedExport.ReadsRow` | appdb/queries/export_platform_seed.sql:1-205 | a printed statement reads back as its row, each value under the column named at its place in the text, and reading stops at its end whatever the texts hold |
| `SeedExport.ReadsScript` | appdb/queries/export_platform_seed.sql:206-208 | the whole script, a statement a line, reads back as the rows in order |
| `PlatformSeed.PlatformExportFits` | appdb/queries/export_platform_seed.sql:1-205 | the templates name each table's columns once, in the order of their arguments, and their conflict clauses set every column outside the key from itself |
| `SeedExport.ParentsComeFirst` | appdb/init/02_platform_bootstrap.sql:58-197 | every foreign key points to a table of an earlier section that is cleared later, in the same environment |
| `PlatformSeed.PlatformIsLayered` | appdb/init/02_platform_bootstrap.sql:31-218 | the platform's keys begin with the environment, and its references go up |
| `PlatformSeed.ReferencesArePrimaryKeys` | appdb/init/02_platform_bootstrap.sql:58-197 | a foreign key has the columns of the primary key it refers to |
| `SeedExport.ListingExists` | appdb/queries/export_platform_seed.sql:206-208 | every state has a listing in section order |
| `SeedExport.StepRebuilds` | appdb/queries/export_platform_seed.sql:206-208 | each statement of the export finds its parents there and its key free |
| `SeedExport.ReplayRebuilds` | appdb/queries/export_platform_seed.sql:206-208 | after n statements exactly the first n listed rows are there |
| `SeedExport.ReplayRestoresExport` | appdb/queries/export_platform_seed.sql:1-208 | for any tables and templates that fit: replaying an exported script into an empty schema never fails and restores every row, column by column; only the time of the last environment update is new |
| `SeedExport.ConflictTakesNewRow` | appdb/queries/export_platform_seed.sql:160-205 | where the row is there already, the conflict clause leaves the exported one |
| `PlatformSeed.ReplayRestoresPlatformExport` | appdb/queries/export_platform_seed.sql:1-208 | so it is with the platform's thirteen tables and templates |
| `SeedExport.DeletesStayConsistent` | appdb/init/02_platform_bootstrap.sql:206-218 | after any number of the deletes the keys hold, so nothing is left for a cascade |
| `SeedExport.SeedSchema.ClearEnvironment` | appdb/init/02_platform_bootstrap.sql:206-218 | the deletes never cascade and leave exactly the rows of the other environments |
| `PlatformSeed.ClearPlatform` | appdb/init/02_platform_bootstrap.sql:206-218 | so it is on the platform's tables |

## Left out

- HTTP handlers, JSON encoding and decoding, the user interface, the Kafka client, and container and catalog
  configuration: plumbing over libraries.
- Prometheus request counters and durations, trace ids and the correlation id and time of a response: they feed
  nothing that is modelled.
- Concurrent enrolments: the results about them are for serial runs.
- Queries of the bootstrap model and the assembly of its JSON, average rates, percent and relative-time texts.
- Isolation levels of PostgreSQL, NUL characters in texts, and limits on the size of a key.
- A count in the metadata beyond the range of a 64-bit integer, where Go's conversion is not defined.
- Years below 1000 in printed timestamps, whose padding depends on the platform's C library.
- NaN and infinity in numeric columns of the exported tables.
- ClickHouse's ingestion views, dbt's own execution, and the retry helper of the Trino bootstrap.
- The headings and borders that psql may put around the exported statements; the script is the result rows.
- Serving.Int64FromNumber: a double of 2^63 or more is passed on as it is, where Go's conversion is not defined.
- Interactions.ResendOfGeneratedId: says nothing of a launch under a generated id resent in another second, which finds a campaign only if one of that name was there.
- IndexRows.ListUnprocessed: sorts with a stable insertion by key where the source calls the library's stable sort; the result is the same list.
- SeedExport.ReplayRestoresExport: the order by text inside a section is not fixed; the result holds for every order inside sections.
- Interactions.ResendEqualsOnce: speaks of rows only; events already posted are posted again.
- CampaignRace.ExclusiveRunsStayDistinct: enrolments do not take part in the interleaving, as they touch neither campaigns nor their analytics.
