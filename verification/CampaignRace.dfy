// createCampaign commits each of its statements on its own, so requests interleave between them.
module CampaignRace {
  import opened AppTables
  import opened StoreSpec
  import opened StoreFacts
  import opened StoreTheorems

  // Where a create-brief request stands.
  datatype Phase =
    | Started(r: Request)
    | Missing(r: Request)              // the lookup found no display order
    | Numbered(r: Request, order: int) // an order is chosen
    | Upserted(r: Request)

  datatype World = World(
    env: string,
    campaigns: map<Id, Campaign>,
    analytics: map<Id, CampaignAnalytics>,
    requests: map<nat, Phase>)

  datatype Step =
    | Start(p: nat, brief: Request)
    | Lookup(p: nat)
    | Number(p: nat)
    | Upsert(p: nat)
    | Seed(p: nat, instant: int)
    | Abort(p: nat)        // the request fails, before or after a statement took effect
    | Launch(id: string)   // launch-test-send, one statement

  function KeyOf(w: World, p: nat): Id
    requires p in w.requests && w.requests[p].r.Brief?
  {
    Id(w.env, w.requests[p].r.id)
  }

  ghost predicate Enabled(w: World, s: Step) {
    match s
    case Start(p, r) => p !in w.requests && r.Brief? && r.id != ""
    case Launch(_) => true
    case Abort(p) => p in w.requests
    case Lookup(p) => p in w.requests && w.requests[p].Started? && w.requests[p].r.Brief?
    case Number(p) => p in w.requests && w.requests[p].Missing?
                      && NextOrder(CampaignOrders(w.campaigns), w.env) <= MAX_INT4
    case Upsert(p) => p in w.requests && w.requests[p].Numbered? && w.requests[p].r.Brief?
                      && IsInt4(w.requests[p].r.audienceCount)
    case Seed(p, _) => p in w.requests && w.requests[p].Upserted?
                       && w.requests[p].r.Brief? && KeyOf(w, p) in w.campaigns
  }

  function Do(w: World, s: Step): World
    requires Enabled(w, s)
  {
    match s
    case Start(p, r) => w.(requests := w.requests[p := Started(r)])
    case Lookup(p) =>
      var r := w.requests[p].r;
      var order := LookupOrder(CampaignOrders(w.campaigns), KeyOf(w, p));
      w.(requests := w.requests[p := if order == 0 then Missing(r) else Numbered(r, order)])
    case Number(p) =>
      w.(requests := w.requests[p := Numbered(w.requests[p].r, NextOrder(CampaignOrders(w.campaigns), w.env))])
    case Upsert(p) =>
      var r, order := w.requests[p].r, w.requests[p].order;
      w.(campaigns := UpsertCampaign(w.campaigns, KeyOf(w, p), CampaignRow(r, order)),
         requests := w.requests[p := Upserted(r)])
    case Seed(p, instant) =>
      w.(analytics := SeedAnalytics(w.analytics, KeyOf(w, p), instant), requests := w.requests - {p})
    case Abort(p) => w.(requests := w.requests - {p})
    case Launch(id) => w.(campaigns := ScheduleCampaign(w.campaigns, Id(w.env, id)))
  }

  // ---------- what every interleaving keeps ----------

  ghost predicate Positive(campaigns: map<Id, Campaign>) {
    forall k :: k in campaigns ==> campaigns[k].displayOrder >= 1
  }

  ghost predicate Inv(w: World) {
    && Positive(w.campaigns)
    && (forall k :: k in w.analytics ==> k in w.campaigns)
    && (forall p :: p in w.requests ==> w.requests[p].r.Brief?)
    && (forall p :: p in w.requests && w.requests[p].Numbered? ==> w.requests[p].order >= 1)
    && (forall p :: p in w.requests && w.requests[p].Upserted? ==> KeyOf(w, p) in w.campaigns)
  }

  // Campaigns keep their display order for good, and analytics rows are never touched again.
  ghost predicate Grows(w: World, w': World) {
    && w'.env == w.env
    && (forall k :: k in w.campaigns ==>
          k in w'.campaigns && w'.campaigns[k].displayOrder == w.campaigns[k].displayOrder)
    && (forall k :: k in w.analytics ==> k in w'.analytics && w'.analytics[k] == w.analytics[k])
  }

  lemma NextIsPositive(campaigns: map<Id, Campaign>, env: string)
    requires Positive(campaigns)
    ensures NextOrder(CampaignOrders(campaigns), env) >= 1
  {
  }

  lemma StepKeepsInv(w: World, s: Step)
    requires Inv(w) && Enabled(w, s)
    ensures Inv(Do(w, s)) && Grows(w, Do(w, s))
  {
    match s {
      case Start(p, r) => PhaseKeepsInv(w, p, Started(r));
      case Lookup(p) =>
        var order := LookupOrder(CampaignOrders(w.campaigns), KeyOf(w, p));
        PhaseKeepsInv(w, p, if order == 0 then Missing(w.requests[p].r) else Numbered(w.requests[p].r, order));
      case Number(p) =>
        NextIsPositive(w.campaigns, w.env);
        PhaseKeepsInv(w, p, Numbered(w.requests[p].r, NextOrder(CampaignOrders(w.campaigns), w.env)));
      case Upsert(p) => UpsertKeepsInv(w, p);
      case Seed(p, instant) => SeedKeepsInv(w, p, instant);
      case Abort(p) =>
      case Launch(id) =>
    }
  }

  lemma PhaseKeepsInv(w: World, p: nat, phase: Phase)
    requires Inv(w) && phase.r.Brief? && !phase.Upserted? && (phase.Numbered? ==> phase.order >= 1)
    ensures var w' := w.(requests := w.requests[p := phase]); Inv(w') && Grows(w, w')
  {
  }

  lemma SeedKeepsInv(w: World, p: nat, instant: int)
    requires Inv(w) && Enabled(w, Seed(p, instant))
    ensures Inv(Do(w, Seed(p, instant))) && Grows(w, Do(w, Seed(p, instant)))
  {
  }

  lemma UpsertKeepsInv(w: World, p: nat)
    requires Inv(w) && Enabled(w, Upsert(p))
    ensures Inv(Do(w, Upsert(p))) && Grows(w, Do(w, Upsert(p)))
  {
    var key, w' := KeyOf(w, p), Do(w, Upsert(p));
    assert w'.campaigns.Keys == w.campaigns.Keys + {key};
  }

  ghost predicate Run(worlds: seq<World>, steps: seq<Step>) {
    && |worlds| == |steps| + 1
    && forall i :: 0 <= i < |steps| ==> Enabled(worlds[i], steps[i]) && worlds[i + 1] == Do(worlds[i], steps[i])
  }

  // Over any interleaving: once inserted a campaign keeps its positive display order, every analytics
  // row has its campaign, and counters are never reset.
  lemma {:induction false} RunKeepsInv(worlds: seq<World>, steps: seq<Step>, j: nat)
    requires Run(worlds, steps) && Inv(worlds[0]) && j < |worlds|
    ensures Inv(worlds[j])
    ensures forall i :: 0 <= i <= j ==> Grows(worlds[i], worlds[j])
  {
    if j > 0 {
      RunKeepsInv(worlds, steps, j - 1);
      StepKeepsInv(worlds[j - 1], steps[j - 1]);
      forall i | 0 <= i <= j
        ensures Grows(worlds[i], worlds[j])
      {
        if i < j { assert Grows(worlds[i], worlds[j - 1]); }
      }
    }
  }

  // ---------- when display orders stay distinct ----------

  // A request about to insert a campaign that is not there yet.
  ghost predicate Inserting(w: World, p: nat) {
    p in w.requests && w.requests[p].Numbered? && w.requests[p].r.Brief? && KeyOf(w, p) !in w.campaigns
  }

  // No two requests are about to insert different new campaigns.
  ghost predicate Exclusive(w: World) {
    forall p, q :: Inserting(w, p) && Inserting(w, q) ==> KeyOf(w, p) == KeyOf(w, q)
  }

  // Whoever is about to insert holds the number that is next.
  ghost predicate HoldsNext(w: World) {
    forall p :: Inserting(w, p) ==> w.requests[p].order == NextOrder(CampaignOrders(w.campaigns), w.env)
  }

  ghost predicate DistinctOrders(w: World) {
    Ordered(CampaignOrders(w.campaigns)) && HoldsNext(w)
  }

  lemma UpsertKeepsDistinct(w: World, p: nat)
    requires Inv(w) && DistinctOrders(w) && Exclusive(w) && Enabled(w, Upsert(p))
    ensures DistinctOrders(Do(w, Upsert(p)))
  {
    var key := KeyOf(w, p);
    if key in w.campaigns {
      UpsertOldKeepsDistinct(w, p);
    } else {
      assert Inserting(w, p);
      UpsertedOrders(w.campaigns, key, w.requests[p].r, w.requests[p].order);
      InsertKeepsOrdered(CampaignOrders(w.campaigns), key);
      NoneInsertingAfter(w, p);
    }
  }

  lemma UpsertedOrders(campaigns: map<Id, Campaign>, key: Id, r: Request, order: int)
    requires r.Brief?
    ensures CampaignOrders(UpsertCampaign(campaigns, key, CampaignRow(r, order))) ==
            if key in campaigns then CampaignOrders(campaigns) else CampaignOrders(campaigns)[key := order]
  {
  }

  lemma UpsertOldKeepsDistinct(w: World, p: nat)
    requires DistinctOrders(w) && Enabled(w, Upsert(p)) && KeyOf(w, p) in w.campaigns
    ensures DistinctOrders(Do(w, Upsert(p)))
  {
    var w' := Do(w, Upsert(p));
    UpsertedOrders(w.campaigns, KeyOf(w, p), w.requests[p].r, w.requests[p].order);
    forall q | Inserting(w', q)
      ensures w'.requests[q].order == NextOrder(CampaignOrders(w'.campaigns), w'.env)
    {
      assert Inserting(w, q);
    }
  }

  // After the one insertion there is none about to happen.
  lemma NoneInsertingAfter(w: World, p: nat)
    requires Exclusive(w) && Enabled(w, Upsert(p)) && Inserting(w, p)
    ensures forall q :: !Inserting(Do(w, Upsert(p)), q)
  {
    forall q | Inserting(Do(w, Upsert(p)), q)
      ensures false
    {
      assert Inserting(w, q);
    }
  }

  lemma StepKeepsDistinct(w: World, s: Step)
    requires Inv(w) && DistinctOrders(w) && Exclusive(w) && Enabled(w, s)
    ensures DistinctOrders(Do(w, s))
  {
    var w' := Do(w, s);
    match s {
      case Upsert(p) => UpsertKeepsDistinct(w, p);
      case Launch(id) =>
        ScheduleKeepsOrders(w.campaigns, Id(w.env, id));
        assert forall q :: Inserting(w', q) ==> Inserting(w, q);
      case Number(p) =>
        assert forall q :: Inserting(w', q) && q != p ==> Inserting(w, q);
      case Lookup(p) =>
        assert forall q :: Inserting(w', q) ==> Inserting(w, q);
      case _ =>
        assert forall q :: Inserting(w', q) ==> Inserting(w, q);
    }
  }

  // While insertions of different new campaigns do not overlap, display orders stay distinct.
  lemma {:induction false} ExclusiveRunsStayDistinct(worlds: seq<World>, steps: seq<Step>, j: nat)
    requires Run(worlds, steps) && Inv(worlds[0]) && DistinctOrders(worlds[0]) && j < |worlds|
    requires forall i :: 0 <= i < j ==> Exclusive(worlds[i])
    ensures DistinctOrders(worlds[j])
  {
    if j > 0 {
      ExclusiveRunsStayDistinct(worlds, steps, j - 1);
      RunKeepsInv(worlds, steps, j - 1);
      StepKeepsDistinct(worlds[j - 1], steps[j - 1]);
    }
  }

  // And the moment they do overlap, the two upserts still to come give two campaigns one order.
  lemma OverlapCollides(w: World, p: nat, q: nat)
    requires Inv(w) && DistinctOrders(w) && Inserting(w, p) && Inserting(w, q) && KeyOf(w, p) != KeyOf(w, q)
    requires IsInt4(w.requests[p].r.audienceCount) && IsInt4(w.requests[q].r.audienceCount)
    ensures Enabled(w, Upsert(p)) && Enabled(Do(w, Upsert(p)), Upsert(q))
    ensures !Ordered(CampaignOrders(Do(Do(w, Upsert(p)), Upsert(q)).campaigns))
  {
    var v := Do(w, Upsert(p));
    var orders := CampaignOrders(Do(v, Upsert(q)).campaigns);
    assert orders[KeyOf(w, p)] == orders[KeyOf(w, q)];
  }

  // ---------- building runs ----------

  lemma Extend(worlds: seq<World>, steps: seq<Step>, s: Step) returns (worlds': seq<World>, steps': seq<Step>)
    requires Run(worlds, steps) && Enabled(worlds[|steps|], s)
    ensures Run(worlds', steps') && worlds'[0] == worlds[0]
    ensures worlds'[|steps'|] == Do(worlds[|steps|], s)
  {
    worlds', steps' := worlds + [Do(worlds[|steps|], s)], steps + [s];
    forall i | 0 <= i < |steps'|
      ensures Enabled(worlds'[i], steps'[i]) && worlds'[i + 1] == Do(worlds'[i], steps'[i])
    {
      if i < |steps| {
        assert Enabled(worlds[i], steps[i]);
      }
    }
  }

  // A request starts, looks its campaign up and, when that found nothing, takes the next number.
  lemma RunUpToUpsert(worlds: seq<World>, steps: seq<Step>, p: nat, r: Request)
    returns (worlds': seq<World>, steps': seq<Step>)
    requires Run(worlds, steps) && p !in worlds[|steps|].requests && r.Brief? && r.id != ""
    requires OrderFits(CampaignOrders(worlds[|steps|].campaigns), Id(worlds[|steps|].env, r.id))
    ensures Run(worlds', steps') && worlds'[0] == worlds[0]
    ensures var w := worlds[|steps|];
            worlds'[|steps'|] == w.(requests :=
              w.requests[p := Numbered(r, OrderFor(CampaignOrders(w.campaigns), Id(w.env, r.id)))])
  {
    var w := worlds[|steps|];
    worlds', steps' := Extend(worlds, steps, Start(p, r));
    worlds', steps' := Extend(worlds', steps', Lookup(p));
    if LookupOrder(CampaignOrders(w.campaigns), Id(w.env, r.id)) == 0 {
      worlds', steps' := Extend(worlds', steps', Number(p));
    }
  }

  lemma BothInserting(w: World, v: World, p: nat, q: nat, r: Request, r': Request)
    requires Inv(w) && Ordered(CampaignOrders(w.campaigns)) && w.requests == map[] && p != q
    requires r.Brief? && r'.Brief? && r.id != r'.id
    requires Id(w.env, r.id) !in w.campaigns && Id(w.env, r'.id) !in w.campaigns
    requires var next := NextOrder(CampaignOrders(w.campaigns), w.env);
             v == w.(requests := map[p := Numbered(r, next), q := Numbered(r', next)])
    ensures Inv(v) && DistinctOrders(v)
    ensures Inserting(v, p) && Inserting(v, q) && KeyOf(v, p) != KeyOf(v, q)
  {
    NextIsPositive(w.campaigns, w.env);
  }

  // An overlap is only a matter of timing: two requests for different new campaigns that both number
  // themselves before either upserts leave two campaigns with one display order.
  lemma OverlapIsReachable(w: World, p: nat, q: nat, r: Request, r': Request)
    returns (worlds: seq<World>, steps: seq<Step>)
    requires Inv(w) && Ordered(CampaignOrders(w.campaigns)) && w.requests == map[] && p != q
    requires r.Brief? && r'.Brief? && r.id != "" && r'.id != "" && r.id != r'.id
    requires Id(w.env, r.id) !in w.campaigns && Id(w.env, r'.id) !in w.campaigns
    requires IsInt4(r.audienceCount) && IsInt4(r'.audienceCount)
    requires NextOrder(CampaignOrders(w.campaigns), w.env) <= MAX_INT4
    ensures Run(worlds, steps) && worlds[0] == w && !Ordered(CampaignOrders(worlds[|steps|].campaigns))
  {
    worlds, steps := RunUpToUpsert([w], [], p, r);
    worlds, steps := RunUpToUpsert(worlds, steps, q, r');
    var v := worlds[|steps|];
    NextIsPositive(w.campaigns, w.env);
    BothInserting(w, v, p, q, r, r');
    OverlapCollides(v, p, q);
    worlds, steps := Extend(worlds, steps, Upsert(p));
    worlds, steps := Extend(worlds, steps, Upsert(q));
  }

  // ---------- one request on its own ----------

  function AsTables(w: World, rest: Tables): Tables {
    rest.(campaigns := w.campaigns, analytics := w.analytics)
  }

  lemma SoloWrites(w: World, v: World, p: nat, r: Request, instant: int, rest: Tables)
    requires p !in w.requests && r.Brief? && IsInt4(r.audienceCount)
    requires var order := OrderFor(CampaignOrders(w.campaigns), Id(w.env, r.id));
             v == w.(requests := w.requests[p := Numbered(r, order)])
    ensures Enabled(v, Upsert(p)) && Enabled(Do(v, Upsert(p)), Seed(p, instant))
    ensures var u := Do(Do(v, Upsert(p)), Seed(p, instant));
            && AsTables(u, rest) == StateAfter(AsTables(w, rest), w.env, r, instant, 2)
            && u.requests == w.requests
  {
    BriefSteps(AsTables(w, rest), w.env, r, instant);
    var key, order := Id(w.env, r.id), OrderFor(CampaignOrders(w.campaigns), Id(w.env, r.id));
    var u := Do(v, Upsert(p));
    assert u.campaigns == UpsertCampaign(w.campaigns, key, CampaignRow(r, order)) && u.analytics == w.analytics;
    assert u.requests == w.requests[p := Upserted(r)];
  }

  // A request that runs its statements undisturbed does what the serial createCampaign does.
  lemma SoloRunIsCreateCampaign(w: World, p: nat, r: Request, instant: int, rest: Tables)
    returns (worlds: seq<World>, steps: seq<Step>)
    requires p !in w.requests && r.Brief?
    requires BriefAccepted(AsTables(w, rest), w.env, r)
    ensures Run(worlds, steps) && worlds[0] == w
    ensures AsTables(worlds[|steps|], rest) == StateAfter(AsTables(w, rest), w.env, r, instant, 2)
    ensures worlds[|steps|].requests == w.requests
  {
    worlds, steps := RunUpToUpsert([w], [], p, r);
    var v := worlds[|steps|];
    SoloWrites(w, v, p, r, instant, rest);
    worlds, steps := Extend(worlds, steps, Upsert(p));
    worlds, steps := Extend(worlds, steps, Seed(p, instant));
  }
}
