/**
 * `GeneratePlanHandler` without HTTP: the area and room-count bounds check, then the AI path when
 * the image-generation collaborator answered, the local generator otherwise.
 */
module Handler {
  import opened Wrappers
  import opened Models
  import Layout
  import Variants

  const MinArea: int := 20
  const MaxArea: int := 200
  const MinRooms: int := 1
  const MaxRooms: int := 5

  /** The three rejections, each answered with status 400 and a message. */
  datatype RequestError = MalformedRequest | AreaOutOfRange | RoomsOutOfRange {
    function Message(): string {
      match this
      case MalformedRequest => "Неверный формат запроса"
      case AreaOutOfRange => "Площадь должна быть от 20 до 200 м²"
      case RoomsOutOfRange => "Количество комнат должно быть от 1 до 5"
    }
  }

  /** The area is checked first, so a request wrong in both is rejected for its area. */
  function CheckRequest(req: PlanRequest): (err: Option<RequestError>)
    ensures err == None <==> MinArea <= req.area <= MaxArea && MinRooms <= req.rooms <= MaxRooms
    ensures err == Some(AreaOutOfRange) <==> req.area < MinArea || req.area > MaxArea
    ensures err == Some(RoomsOutOfRange) <==>
      MinArea <= req.area <= MaxArea && (req.rooms < MinRooms || req.rooms > MaxRooms)
  {
    if req.area < MinArea || req.area > MaxArea then Some(AreaOutOfRange)
    else if req.rooms < MinRooms || req.rooms > MaxRooms then Some(RoomsOutOfRange)
    else None
  }

  /** The generator the handler builds for the local path. */
  function GeneratorFor(req: PlanRequest): FloorPlanGenerator {
    FloorPlanGenerator(req.area as real, req.rooms, req.style, req.features)
  }

  /**
   * Rejects a body that did not decode (`None`) and out-of-range requests; otherwise builds the
   * variants from the collaborator's answer when there is one (`ai`), and with the local generator
   * when it failed.
   */
  method GeneratePlanHandler(body: Option<PlanRequest>, ai: Option<AIGenerationResponse>, draws: seq<real>,
                             seeds: seq<int>, ids: seq<string>, now: string)
    returns (res: Result<seq<PlanResponse>, RequestError>)
    requires body.Some? && CheckRequest(body.value).None? ==> Variants.EnoughDrawsForTiers(GeneratorFor(body.value), draws)
    requires |seeds| >= 6 && |ids| >= 3
    ensures body.None? ==> res == Failure(MalformedRequest)
    ensures body.Some? ==> (res.Failure? <==> CheckRequest(body.value).Some?)
    ensures body.Some? && res.Failure? ==> res.error == CheckRequest(body.value).value
    ensures body.Some? && res.Success? && ai.Some? ==> res.value == Variants.AIPlans(ai.value, body.value, seeds, ids, now)
    ensures body.Some? && res.Success? && ai.None? ==>
      res.value == Variants.LocalPlans(GeneratorFor(body.value), Variants.TierLayouts(GeneratorFor(body.value), draws), seeds, ids, now)
  {
    if body.None? {
      return Failure(MalformedRequest);
    }
    var req := body.value;
    if req.area < MinArea || req.area > MaxArea {
      return Failure(AreaOutOfRange);
    }
    if req.rooms < MinRooms || req.rooms > MaxRooms {
      return Failure(RoomsOutOfRange);
    }
    if ai.Some? {
      var plans := Variants.GeneratePlansFromAI(ai.value, req, seeds, ids, now);
      return Success(plans);
    }
    var generator := FloorPlanGenerator(req.area as real, req.rooms, req.style, req.features);
    var plans := Variants.GeneratePlans(generator, draws, seeds, ids, now);
    return Success(plans);
  }

  /**
   * Every accepted request gets exactly three plans, whichever path builds them, each echoing the
   * request's area as given.
   */
  lemma AcceptedRequestsGetThreePlans(req: PlanRequest, ai: Option<AIGenerationResponse>, draws: seq<real>,
                                      seeds: seq<int>, ids: seq<string>, now: string)
    requires Variants.EnoughDrawsForTiers(GeneratorFor(req), draws) && |seeds| >= 6 && |ids| >= 3
    requires CheckRequest(req) == None
    ensures var plans := if ai.Some? then Variants.AIPlans(ai.value, req, seeds, ids, now)
                         else Variants.LocalPlans(GeneratorFor(req), Variants.TierLayouts(GeneratorFor(req), draws), seeds, ids, now);
      |plans| == 3 && forall k :: 0 <= k < 3 ==> plans[k].area == req.area && plans[k].rooms == req.rooms
  {
    Variants.TruncateWhole(req.area);
    if ai.Some? {
      var plans := Variants.AIPlans(ai.value, req, seeds, ids, now);
      assert Variants.EchoesRequest(plans, ids, Variants.StyleTitle(req.style), req.area, req.rooms, req.style, req.features, now);
    } else {
      var plans := Variants.LocalPlans(GeneratorFor(req), Variants.TierLayouts(GeneratorFor(req), draws), seeds, ids, now);
      assert Variants.EchoesRequest(plans, ids, Variants.StyleTitle(req.style), req.area, req.rooms, req.style, req.features, now);
    }
  }
}
