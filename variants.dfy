/**
 * The budget, standard and premium variants: `GeneratePlans` re-runs the layout at three scale
 * factors, `generatePlansFromAI` rescales one supplied room list. Identifiers, the timestamp and
 * the `rand.Int63()` seeds of the placeholder URLs are inputs.
 */
module Variants {
  import opened Models
  import Decimal
  import Layout
  import Rescale

  const DefaultStyleTitle: string := "Современный"

  /** Display names of the known style keys. */
  const StyleTitles: map<string, string> := map[
    "modern" := "Современный",
    "minimalist" := "Минималистичный",
    "scandinavian" := "Скандинавский",
    "loft" := "Лофт",
    "classic" := "Классический",
    "provence" := "Прованс"
  ]

  /** The map lookup yields "" for an unknown key, and "" is replaced by the default. */
  function StyleTitle(style: string): (title: string)
    ensures style in StyleTitles ==> title == StyleTitles[style]
    ensures style !in StyleTitles ==> title == DefaultStyleTitle
    ensures title != ""
  {
    var found := if style in StyleTitles then StyleTitles[style] else "";
    if found == "" then DefaultStyleTitle else found
  }

  datatype Tier = Budget | Standard | Premium {
    function Label(): string {
      match this
      case Budget => "Бюджетный"
      case Standard => "Стандартный"
      case Premium => "Премиум"
    }

    /** The scale factor of the tier, for the layout and for the rescaling alike. */
    function Factor(): real {
      match this
      case Budget => 0.8
      case Standard => 1.0
      case Premium => 1.2
    }
  }

  /** The order in which the variants are returned. */
  const Tiers: seq<Tier> := [Budget, Standard, Premium]

  /** `fmt.Sprintf("<label> %s", styleTitle)` */
  function Title(tier: Tier, styleTitle: string): string {
    tier.Label() + " " + styleTitle
  }

  function FloorPlanURL(seed: int, style: string, rooms: int, area: int): string {
    "https://placehold.co/800x600/e2e8f0/1e293b?text=План+" + style + "+" + Decimal.IntToString(rooms)
      + "+комнат+" + Decimal.IntToString(area) + "м²+" + Decimal.IntToString(seed)
  }

  function Render3DURL(seed: int, style: string, rooms: int, area: int): string {
    "https://placehold.co/800x600/f8fafc/475569?text=3D+" + style + "+" + Decimal.IntToString(rooms)
      + "+комнат+" + Decimal.IntToString(area) + "м²+" + Decimal.IntToString(seed)
  }

  /** Go's conversion of a float64 to int, which truncates toward zero. */
  function Truncate(x: real): (n: int)
    ensures 0.0 <= x ==> n as real <= x < n as real + 1.0
    ensures x < 0.0 ==> n as real - 1.0 < x <= n as real
  {
    if x >= 0.0 then x.Floor else -((-x).Floor)
  }

  lemma TruncateWhole(a: int)
    ensures Truncate(a as real) == a
  {
  }

  /** One plan literal: the request's fields are echoed and both timestamps are `now`. */
  function Variant(tier: Tier, id: string, styleTitle: string, area: int, rooms: int, style: string,
                   features: seq<string>, floorPlan: string, render3D: string, now: string,
                   roomData: seq<Room>): PlanResponse
  {
    PlanResponse(id, Title(tier, styleTitle), area, rooms, style, features, floorPlan, render3D, now, now, roomData)
  }

  /**
   * What every variant shares with its request: plan k carries the k-th id and tier k's title,
   * echoes the request's area, room count, style and features, and has both timestamps `now`.
   */
  predicate EchoesRequest(plans: seq<PlanResponse>, ids: seq<string>, styleTitle: string, area: int, rooms: int,
                          style: string, features: seq<string>, now: string)
    requires |plans| == 3 && |ids| >= 3
  {
    forall k :: 0 <= k < 3 ==>
      && plans[k].id == ids[k]
      && plans[k].title == Tiers[k].Label() + " " + styleTitle
      && plans[k].area == area && plans[k].rooms == rooms && plans[k].style == style && plans[k].features == features
      && plans[k].createdAt == now && plans[k].updatedAt == now
  }

  /**
   * The three plan literals, budget, standard and premium in that order, given each tier's
   * URLs and rooms.
   */
  function Plans(ids: seq<string>, styleTitle: string, area: int, rooms: int, style: string, features: seq<string>,
                 urls: seq<(string, string)>, now: string, roomData: seq<seq<Room>>): (plans: seq<PlanResponse>)
    requires |ids| >= 3 && |urls| == 3 && |roomData| == 3
    ensures |plans| == 3
    ensures EchoesRequest(plans, ids, styleTitle, area, rooms, style, features, now)
    ensures forall k :: 0 <= k < 3 ==>
      plans[k].floorPlan == urls[k].0 && plans[k].render3D == urls[k].1 && plans[k].roomData == roomData[k]
  {
    [ Variant(Budget, ids[0], styleTitle, area, rooms, style, features, urls[0].0, urls[0].1, now, roomData[0]),
      Variant(Standard, ids[1], styleTitle, area, rooms, style, features, urls[1].0, urls[1].1, now, roomData[1]),
      Variant(Premium, ids[2], styleTitle, area, rooms, style, features, urls[2].0, urls[2].1, now, roomData[2]) ]
  }

  // The local path.

  /** A stream of draws long enough for the three layouts of `GeneratePlans`. */
  predicate EnoughDrawsForTiers(g: FloorPlanGenerator, draws: seq<real>) {
    Layout.ValidDraws(draws) && |draws| >= 3 * Layout.DrawsNeeded(g.rooms)
  }

  /** The budget, standard and premium layouts, at 0.8, 1.0 and 1.2, from consecutive blocks of draws. */
  function TierLayouts(g: FloorPlanGenerator, draws: seq<real>): (layouts: seq<seq<Room>>)
    requires EnoughDrawsForTiers(g, draws)
    ensures |layouts| == 3
  {
    var n := Layout.DrawsNeeded(g.rooms);
    [ Layout.Layout(g, Budget.Factor(), draws),
      Layout.Layout(g, Standard.Factor(), draws[n..]),
      Layout.Layout(g, Premium.Factor(), draws[2 * n..]) ]
  }

  /**
   * The plans `GeneratePlans` builds from its three layouts: tier k gets layout k and the request
   * echoed with the area truncated to a whole number.
   */
  function LocalPlans(g: FloorPlanGenerator, layouts: seq<seq<Room>>, seeds: seq<int>, ids: seq<string>, now: string): (plans: seq<PlanResponse>)
    requires |layouts| == 3 && |seeds| >= 6 && |ids| >= 3
    ensures |plans| == 3
    ensures EchoesRequest(plans, ids, StyleTitle(g.style), Truncate(g.totalArea), g.rooms, g.style, g.features, now)
    ensures forall k :: 0 <= k < 3 ==> plans[k].roomData == layouts[k]
  {
    var area := Truncate(g.totalArea);
    Plans(ids, StyleTitle(g.style), area, g.rooms, g.style, g.features,
          seq(3, k requires 0 <= k < 3 =>
            (FloorPlanURL(seeds[2 * k], g.style, g.rooms, area), Render3DURL(seeds[2 * k + 1], g.style, g.rooms, area))),
          now, layouts)
  }

  /** Tier k's placeholder URLs are made from seeds 2k and 2k + 1, in the order the source draws them. */
  lemma LocalPlansURLs(g: FloorPlanGenerator, layouts: seq<seq<Room>>, seeds: seq<int>, ids: seq<string>, now: string)
    requires |layouts| == 3 && |seeds| >= 6 && |ids| >= 3
    ensures var plans := LocalPlans(g, layouts, seeds, ids, now);
      forall k :: 0 <= k < 3 ==>
        && plans[k].floorPlan == FloorPlanURL(seeds[2 * k], g.style, g.rooms, Truncate(g.totalArea))
        && plans[k].render3D == Render3DURL(seeds[2 * k + 1], g.style, g.rooms, Truncate(g.totalArea))
  {
  }

  /**
   * Lays the rooms out three times, each call taking its draws where the previous one stopped,
   * and builds the plans.
   */
  method GeneratePlans(g: FloorPlanGenerator, draws: seq<real>, seeds: seq<int>, ids: seq<string>, now: string)
    returns (plans: seq<PlanResponse>)
    requires EnoughDrawsForTiers(g, draws) && |seeds| >= 6 && |ids| >= 3
    ensures plans == LocalPlans(g, TierLayouts(g, draws), seeds, ids, now)
  {
    var n := Layout.DrawsNeeded(g.rooms);
    var styleTitle := StyleTitle(g.style);

    var budgetRooms, afterBudget := Layout.GenerateRooms(g, 0.8, draws);
    var standardRooms, afterStandard := Layout.GenerateRooms(g, 1.0, afterBudget);
    assert afterStandard == draws[2 * n..];
    var premiumRooms, _ := Layout.GenerateRooms(g, 1.2, afterStandard);

    var area := Truncate(g.totalArea);
    plans := [
      Variant(Budget, ids[0], styleTitle, area, g.rooms, g.style, g.features,
              FloorPlanURL(seeds[0], g.style, g.rooms, area), Render3DURL(seeds[1], g.style, g.rooms, area),
              now, budgetRooms),
      Variant(Standard, ids[1], styleTitle, area, g.rooms, g.style, g.features,
              FloorPlanURL(seeds[2], g.style, g.rooms, area), Render3DURL(seeds[3], g.style, g.rooms, area),
              now, standardRooms),
      Variant(Premium, ids[2], styleTitle, area, g.rooms, g.style, g.features,
              FloorPlanURL(seeds[4], g.style, g.rooms, area), Render3DURL(seeds[5], g.style, g.rooms, area),
              now, premiumRooms)
    ];
  }

  // The AI path.

  /**
   * The plans `generatePlansFromAI` returns: the supplied rooms as the standard variant, rescaled by
   * 0.8 and 1.2 for the other two, and one pair of URLs for all three, each the supplied URL unless
   * that is empty, a placeholder from the next unused seed if it is.
   */
  function AIPlans(ai: AIGenerationResponse, req: PlanRequest, seeds: seq<int>, ids: seq<string>, now: string): (plans: seq<PlanResponse>)
    requires |seeds| >= 2 && |ids| >= 3
    ensures |plans| == 3
    ensures EchoesRequest(plans, ids, StyleTitle(req.style), req.area, req.rooms, req.style, req.features, now)
    ensures plans[1].floorPlan == plans[0].floorPlan && plans[2].floorPlan == plans[0].floorPlan
    ensures plans[1].render3D == plans[0].render3D && plans[2].render3D == plans[0].render3D
    ensures ai.floorPlanURL != "" ==> plans[0].floorPlan == ai.floorPlanURL
    ensures ai.floorPlanURL == "" ==> plans[0].floorPlan == FloorPlanURL(seeds[0], req.style, req.rooms, req.area)
    ensures ai.render3DURL != "" ==> plans[0].render3D == ai.render3DURL
    ensures ai.render3DURL == "" ==>
      plans[0].render3D == Render3DURL(seeds[if ai.floorPlanURL == "" then 1 else 0], req.style, req.rooms, req.area)
    ensures plans[0].roomData == Rescale.Rescaled(ai.roomData, 0.8)
    ensures plans[1].roomData == ai.roomData
    ensures plans[2].roomData == Rescale.Rescaled(ai.roomData, 1.2)
  {
    var styleTitle := StyleTitle(req.style);
    var next := if ai.floorPlanURL == "" then 1 else 0;
    var floorPlan := if ai.floorPlanURL == "" then FloorPlanURL(seeds[0], req.style, req.rooms, req.area) else ai.floorPlanURL;
    var render3D := if ai.render3DURL == "" then Render3DURL(seeds[next], req.style, req.rooms, req.area) else ai.render3DURL;
    Plans(ids, styleTitle, req.area, req.rooms, req.style, req.features,
          [(floorPlan, render3D), (floorPlan, render3D), (floorPlan, render3D)], now,
          [Rescale.Rescaled(ai.roomData, Budget.Factor()), ai.roomData, Rescale.Rescaled(ai.roomData, Premium.Factor())])
  }

  /**
   * Rescales the supplied rooms for the budget and premium variants, fills in placeholder URLs
   * where the supplied ones are empty (one seed each, in that order), and builds the plans.
   */
  method GeneratePlansFromAI(ai: AIGenerationResponse, req: PlanRequest, seeds: seq<int>, ids: seq<string>, now: string)
    returns (plans: seq<PlanResponse>)
    requires |seeds| >= 2 && |ids| >= 3
    ensures plans == AIPlans(ai, req, seeds, ids, now)
  {
    var styleTitle := StyleTitle(req.style);

    var budgetRooms := Rescale.ModifyRoomSizes(ai.roomData, 0.8);
    var premiumRooms := Rescale.ModifyRoomSizes(ai.roomData, 1.2);

    var next := 0;  // seeds handed out so far
    var floorPlanURL := ai.floorPlanURL;
    var render3DURL := ai.render3DURL;
    if floorPlanURL == "" {
      floorPlanURL := FloorPlanURL(seeds[next], req.style, req.rooms, req.area);
      next := next + 1;
    }
    if render3DURL == "" {
      render3DURL := Render3DURL(seeds[next], req.style, req.rooms, req.area);
      next := next + 1;
    }

    plans := [
      Variant(Budget, ids[0], styleTitle, req.area, req.rooms, req.style, req.features,
              floorPlanURL, render3DURL, now, budgetRooms),
      Variant(Standard, ids[1], styleTitle, req.area, req.rooms, req.style, req.features,
              floorPlanURL, render3DURL, now, ai.roomData),
      Variant(Premium, ids[2], styleTitle, req.area, req.rooms, req.style, req.features,
              floorPlanURL, render3DURL, now, premiumRooms)
    ];
    assert plans == Plans(ids, styleTitle, req.area, req.rooms, req.style, req.features,
                          [(floorPlanURL, render3DURL), (floorPlanURL, render3DURL), (floorPlanURL, render3DURL)], now,
                          [budgetRooms, ai.roomData, premiumRooms]);
  }

  // Properties of the variants.

  /** On the AI path the premium rooms are the budget rooms scaled by 1.5, and areas keep the tier ratio. */
  lemma AIPremiumIsScaledBudget(ai: AIGenerationResponse, req: PlanRequest, seeds: seq<int>, ids: seq<string>, now: string)
    requires |seeds| >= 2 && |ids| >= 3
    ensures var plans := AIPlans(ai, req, seeds, ids, now);
      && plans[2].roomData == Rescale.Rescaled(plans[0].roomData, 1.5)
      && Rescale.TotalArea(plans[0].roomData) == 0.8 * Rescale.TotalArea(plans[1].roomData)
      && Rescale.TotalArea(plans[2].roomData) == 1.2 * Rescale.TotalArea(plans[1].roomData)
  {
    TierRatios(ai.roomData);
  }

  /** The budget and premium rescalings of one room list: 1.2 = 0.8 * 1.5, and areas scale alike. */
  lemma TierRatios(rooms: seq<Room>)
    ensures Rescale.Rescaled(Rescale.Rescaled(rooms, 0.8), 1.5) == Rescale.Rescaled(rooms, 1.2)
    ensures Rescale.TotalArea(Rescale.Rescaled(rooms, 0.8)) == 0.8 * Rescale.TotalArea(rooms)
    ensures Rescale.TotalArea(Rescale.Rescaled(rooms, 1.2)) == 1.2 * Rescale.TotalArea(rooms)
  {
    Rescale.RescaledTwice(rooms, 0.8, 1.5);
    assert 0.8 * 1.5 == 1.2;
    Rescale.RescaledTotalArea(rooms, 0.8);
    Rescale.RescaledTotalArea(rooms, 1.2);
  }

  /**
   * For a generator built from a request, the two paths echo the request alike: same ids, titles,
   * area, room count, style, features and timestamps; they differ only in rooms and URLs.
   */
  lemma PathsEchoAlike(ai: AIGenerationResponse, req: PlanRequest, layouts: seq<seq<Room>>, seeds: seq<int>, ids: seq<string>, now: string)
    requires |layouts| == 3 && |seeds| >= 6 && |ids| >= 3
    ensures var local := LocalPlans(FloorPlanGenerator(req.area as real, req.rooms, req.style, req.features), layouts, seeds, ids, now);
      var remote := AIPlans(ai, req, seeds, ids, now);
      forall k :: 0 <= k < 3 ==>
        local[k].(floorPlan := "", render3D := "", roomData := []) == remote[k].(floorPlan := "", render3D := "", roomData := [])
  {
    TruncateWhole(req.area);
  }

  /**
   * The local path at the smallest accepted area, 20 m²: the budget variant's living room and
   * bedrooms come out with negative areas, whatever the draws.
   */
  lemma SmallestBudgetPlanHasNegativeAreas(g: FloorPlanGenerator, draws: seq<real>, seeds: seq<int>, ids: seq<string>, now: string)
    requires EnoughDrawsForTiers(g, draws) && |seeds| >= 6 && |ids| >= 3 && g.totalArea == 20.0
    ensures var rooms := LocalPlans(g, TierLayouts(g, draws), seeds, ids, now)[0].roomData;
      forall i :: 3 <= i < |rooms| ==> rooms[i].area < 0.0
  {
    Layout.NegativeWhenBudgetBelowFixedRooms(g, 0.8, draws);
  }

  /** From 50 m² on, all three local variants have positive sizes throughout. */
  lemma LocalPlansPositiveFromFifty(g: FloorPlanGenerator, draws: seq<real>, seeds: seq<int>, ids: seq<string>, now: string)
    requires EnoughDrawsForTiers(g, draws) && |seeds| >= 6 && |ids| >= 3 && g.totalArea >= 50.0
    ensures var plans := LocalPlans(g, TierLayouts(g, draws), seeds, ids, now);
      forall k, i :: 0 <= k < 3 && 0 <= i < |plans[k].roomData| ==>
        var r := plans[k].roomData[i]; r.area > 0.0 && r.width > 0.0 && r.height > 0.0
  {
    TierLayoutsPositiveFromFifty(g, draws);
  }

  lemma TierLayoutsPositiveFromFifty(g: FloorPlanGenerator, draws: seq<real>)
    requires EnoughDrawsForTiers(g, draws) && g.totalArea >= 50.0
    ensures var layouts := TierLayouts(g, draws);
      forall k, i :: 0 <= k < 3 && 0 <= i < |layouts[k]| ==>
        layouts[k][i].area > 0.0 && layouts[k][i].width > 0.0 && layouts[k][i].height > 0.0
  {
    var n := Layout.DrawsNeeded(g.rooms);
    Layout.PositiveWhenBudgetCoversFixedRooms(g, 0.8, draws);
    Layout.PositiveWhenBudgetCoversFixedRooms(g, 1.0, draws[n..]);
    Layout.PositiveWhenBudgetCoversFixedRooms(g, 1.2, draws[2 * n..]);
  }
}
