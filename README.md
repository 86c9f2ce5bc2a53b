# Floor-plan generator (planner package) in Dafny

This project models the apartment floor-plan generator of the `planner` package
(`planner/handlers.go`). The generator splits a total area into an ordered list of rooms: a
bathroom, a kitchen and a hallway with jittered sizes, then a living room and bedrooms that share
what is left. It lays the rooms out on a grid and returns three variants, budget, standard and
premium, for one request.

The variants come from one of two paths:

- **Local path.** `GeneratePlans` lays the rooms out three times, at scale factors 0.8, 1.0 and 1.2.
- **AI path.** `generatePlansFromAI` takes one room list from the image-generation collaborator,
  and rescales it by 0.8 and 1.2 with `modifyRoomSizes`.

`GeneratePlanHandler` checks the request's bounds first. It then takes the AI path when the
collaborator answered, and the local path when it did not.

Modules:

- `Models`: the records `Room`, `FloorPlanGenerator`, `PlanRequest`, `PlanResponse`, `AIGenerationResponse`.
- `Decimal`: the `%d` rendering used in bedroom names and placeholder URLs.
- `Rescale`: `modifyRoomSizes`, which is the method `ModifyRoomSizes` proved against the function `Rescaled`.
- `Layout`: `generateRooms`, which is the method `GenerateRooms` proved against the function `Layout`, with lemmas about counts, ranges, placement, shares and signs.
- `Variants`: the style titles, the tiers, the plan literals, `GeneratePlans` (proved against `LocalPlans`) and `generatePlansFromAI` (proved against `AIPlans`).
- `Handler`: the bounds check and the choice between the two paths.
- `Wrappers`: `Option` and `Result`.

Nondeterminism becomes inputs:

- **`rand.Float64()`.** Each call reads the next entry of `draws`, a sequence of reals in [0, 1). One layout reads 9 + 2·L entries, where L = max(Rooms − 2, 1). `GenerateRooms` returns the entries it did not read, so the three local layouts take consecutive blocks.
- **`rand.Int63()`.** The placeholder-URL seeds are the entries of `seeds`, used in call order. The local path uses six: the floor plan and then the render, for each tier in turn. The AI path uses one for each supplied URL that is empty.
- **`uuid.New()` and `time.Now()`.** The identifiers are the entries of `ids`. The formatted timestamp is `now`.
- **The room list serialised into `RoomData`.** This is kept as the room list itself.

### What the code does not guarantee

- **Positive sizes.** The living room and the bedrooms split `TotalArea·factor` minus the three
  fixed rooms. Over exact reals the fixed rooms take at least 24 m² and less than 40 m²; in
  float64 their sum can reach 40 m² exactly.
  - `Layout.SecondRowAreaSign` proves these areas are positive exactly when the scaled total exceeds the fixed rooms' sum.
  - `Variants.SmallestBudgetPlanHasNegativeAreas` proves that at 20 m², the smallest accepted area, the budget variant's living room and bedrooms always have negative areas.
  - `Variants.LocalPlansPositiveFromFifty` proves that in the model, from 50 m² on, every size in all three local variants is positive. In the program this holds only above 50 m², because at exactly 50 m² the budget tier's 40 m² can equal the fixed rooms' rounded sum and leave areas of 0.
- **Non-negative positions.** A negative living-room height moves the bedrooms above the origin.
  - `Layout.NegativePositionAtSmallBudget` gives draws for which, at 20 m², 4 rooms and factor 0.8, bedroom 1 has y < 0.
  - `Layout.NonNegativePositionsWhenBudgetCoversFixedRooms` proves that in the model every x and y is at least 0 once the scaled total reaches 40 m².

## Model

| member | source | states |
|---|---|---|
| Decimal.NatToString | planner/handlers.go:316 | the `%d` numeral is non-empty and all digits, has one digit exactly when the number is below 10, and starts with '0' only for 0 (no leading zeros) |
| Decimal.IntToString | planner/handlers.go:16 | the `%d` of a signed integer is non-empty and starts with '-' exactly when the number is negative |
| Decimal.NatToStringInjective | planner/handlers.go:316 | different numbers print differently |
| Rescale.Rescaled | planner/handlers.go:176-191 | the rescaled list has the length of the input |
| Rescale.ModifyRoomSizes | planner/handlers.go:176-191 | the loop over a preallocated buffer returns a list of the same length; entry i keeps the name, x and y of room i and has its area, width and height multiplied by the factor; the result is `Rescaled(rooms, factor)` |
| Rescale.RescaledByOne | planner/handlers.go:176-191 | rescaling by 1.0 returns the list unchanged |
| Rescale.RescaledTwice | planner/handlers.go:182-184 | rescaling by f and then by g equals rescaling once by f·g |
| Rescale.RescaledInverse | planner/handlers.go:182-184 | rescaling by f ≠ 0 and then by 1/f gives back the original list |
| Rescale.RescaledKeepsPositive | planner/handlers.go:182-184 | a positive factor keeps every positive area, width and height positive |
| Rescale.RescaledTotalArea | planner/handlers.go:182 | rescaling multiplies the sum of the areas by the factor |
| Layout.LivingRoomsCount | planner/handlers.go:296-299 | the count is at least 1; it is Rooms − 2 from 3 rooms up, and 1 for 3 rooms or fewer |
| Layout.Layout | planner/handlers.go:253-330 | the layout has 3 + L rooms |
| Layout.GenerateRooms | planner/handlers.go:253-330 | the appends and the bedroom loop return exactly `Layout(g, factor, draws)`; the undrawn rest of the stream starts right after the 9 + 2·L draws it read |
| Layout.RoomOrder | planner/handlers.go:254-329 | there are 3 + L rooms, in the order bathroom, kitchen, hallway, living room, then bedrooms "Спальня 1" to "Спальня L−1" |
| Layout.RoomCountByRequest | planner/handlers.go:296-327 | for 1 to 5 requested rooms the layout has 4, 4, 4, 5 and 6 rooms |
| Layout.BedroomNamesDiffer | planner/handlers.go:316 | bedrooms with different numbers get different names |
| Layout.RoomNamesDistinct | planner/handlers.go:262-316 | no two rooms of a layout share a name |
| Layout.FixedRoomRanges | planner/handlers.go:256-292 | bathroom and hallway areas in [8, 12) with widths in [2, 3) and heights in (8/3, 6); kitchen area in [8, 16) with width in [3, 5) and height in (8/5, 16/3) |
| Layout.FixedRoomsIgnoreBudget | planner/handlers.go:256-294 | the first three rooms are the same for any total area, room count and factor |
| Layout.FirstRowPlacement | planner/handlers.go:266-291 | bathroom at (0, 0); kitchen at x = bathroom width; hallway at x = bathroom width + kitchen width; all with y = 0 |
| Layout.SharedAreas | planner/handlers.go:258-315 | each bedroom's area is (total·factor − bathroom − kitchen − hallway) / L, and the living room's is 1.5 times that |
| Layout.SecondRowPlacement | planner/handlers.go:309-324 | living room at x = 0, y = bathroom height + 1; bedroom i at x = living-room width · (i mod 2), y = bathroom height + living-room height + 3·(i div 2) |
| Layout.SecondRowWidths | planner/handlers.go:307-321 | living-room width in [4, 6); each bedroom width in [3.5, 5) |
| Layout.SecondRowAreaSign | planner/handlers.go:301-322 | for the living room and every bedroom: area > 0 exactly when total·factor exceeds the fixed rooms' sum, area < 0 exactly when it falls short, and height > 0 exactly when area > 0 |
| Layout.PositiveWhenBudgetCoversFixedRooms | planner/handlers.go:256-324 | when total·factor ≥ 40, every room has positive area, width and height (over exact reals) |
| Layout.NegativeWhenBudgetBelowFixedRooms | planner/handlers.go:256-324 | when total·factor < 24, the living room and every bedroom have negative area and height |
| Layout.NonNegativePositionsWhenBudgetCoversFixedRooms | planner/handlers.go:266-324 | when total·factor ≥ 40, every room's x and y are at least 0 |
| Layout.NegativePositionAtSmallBudget | planner/handlers.go:308-324 | at 20 m², 4 rooms and factor 0.8 there are valid draws for which bedroom 1's y is negative |
| Layout.LayoutTotalArea | planner/handlers.go:258-315 | the areas add up to total·factor plus a third of the living room's area, so the budget is overshot by the living room's extra half share |
| Variants.StyleTitle | planner/handlers.go:196-199 | a known style key gives its title from the table; any other key gives "Современный"; the title is never empty |
| Variants.Truncate | planner/handlers.go:212 | `int(x)` truncates toward zero: n ≤ x < n + 1 for x ≥ 0, and n − 1 < x ≤ n for x < 0 |
| Variants.TruncateWhole | planner/handlers.go:92 | a whole area converted to float and back is unchanged |
| Variants.Plans | planner/handlers.go:208-248 | three plans; plan k has id k, the title of tier k, the echoed request fields and `now` as both timestamps (`EchoesRequest`); it carries tier k's URLs and rooms |
| Variants.TierLayouts | planner/handlers.go:201-203 | three layouts, at 0.8, 1.0 and 1.2, drawn from consecutive blocks of the stream |
| Variants.LocalPlans | planner/handlers.go:193-251 | three plans echoing the generator, with area `int(TotalArea)` and the style title; plan k carries layout k |
| Variants.LocalPlansURLs | planner/handlers.go:216-243 | tier k's floor-plan URL uses seed 2k and its render URL seed 2k + 1, in the source's call order |
| Variants.GeneratePlans | planner/handlers.go:193-251 | the three `generateRooms` calls and the plan literals give exactly `LocalPlans` of the three tier layouts |
| Variants.AIPlans | planner/handlers.go:104-174 | three plans echoing the request; all share one floor-plan URL and one render URL; each is the supplied URL when that is non-empty, otherwise a placeholder from the next unused seed; rooms are the supplied list rescaled by 0.8, unchanged, and rescaled by 1.2 |
| Variants.GeneratePlansFromAI | planner/handlers.go:104-174 | the two `modifyRoomSizes` calls, the URL fallbacks and the plan literals give exactly `AIPlans` |
| Variants.AIPremiumIsScaledBudget | planner/handlers.go:112-117 | on the AI path the premium rooms are the budget rooms rescaled by 1.5; budget and premium total areas are 0.8 and 1.2 times the standard total (over exact reals) |
| Variants.TierRatios | planner/handlers.go:112-117 | for any room list, rescaling by 0.8 and then 1.5 equals rescaling by 1.2, and the totals scale by 0.8 and 1.2 |
| Variants.PathsEchoAlike | planner/handlers.go:91-98 | for the generator built from a request, the local and AI plans agree on every field except the URLs and the rooms |
| Variants.SmallestBudgetPlanHasNegativeAreas | planner/handlers.go:258-303 | at 20 m² the local budget variant's living room and bedrooms have negative areas, whatever the draws |
| Variants.LocalPlansPositiveFromFifty | planner/handlers.go:201-203 | from 50 m² on, every room of all three local variants has positive area, width and height (over exact reals) |
| Variants.TierLayoutsPositiveFromFifty | planner/handlers.go:201-203 | from 50 m² on, every room of the three tier layouts has positive sizes (over exact reals) |
| Handler.CheckRequest | planner/handlers.go:57-65 | no error exactly when area is in [20, 200] and rooms in [1, 5]; an area error exactly when the area is out of range; a room error exactly when the area is in range and the room count is not |
| Handler.GeneratePlanHandler | planner/handlers.go:50-102 | an undecodable body is rejected as malformed; otherwise the result fails exactly when the bounds check does, with its error; an accepted request gets `AIPlans` when the collaborator answered and `LocalPlans` of the generator built from the request otherwise |
| Handler.AcceptedRequestsGetThreePlans | planner/handlers.go:71-101 | an accepted request gets three plans on either path, each echoing the requested area and room count |

## Left out

- HTTP and JSON. Gin's request binding is modelled only by its outcome: a decoded request, or none. The JSON status responses, the log lines and the JSON text of `RoomData` are not modelled; `RoomData` is kept as the room list.
- `SavePlanHandler` and `GetUserPlansHandler` (planner/handlers.go:332-350) are not modelled. One echoes its input with a fresh id and timestamps; the other returns an empty list. Both are stubs over HTTP.
- Authentication, the database, and the image-generation client (`planner/ai_generator.go`) are not part of this model. The client's answer is an input: `ai` is `None` when it failed or returned nothing. Its `generateRooms(1.0)` call, made only when it succeeds, is not modelled; the rooms it returns are the input `ai.roomData`.
- Global random state is not modelled: `rand.Seed(time.Now().UnixNano())` in `GeneratePlans`, and the fact that `rand.Float64` and `rand.Int63` share one stream. Draws and seeds are two separate input sequences, each consumed in the source's call order.
- `uuid.New()` and `time.Now().Format(time.RFC3339)` are not modelled. Their values are the inputs `ids` and `now`.
- The AI prompt string (planner/handlers.go:72-78) is not modelled, because it only goes to the image-generation client.
- IEEE-754 rounding is not modelled: arithmetic is over exact reals. In float64, `2.0 + rand.Float64()` and similar sums can round up to their upper bound, so the strict upper bounds in `Layout.FixedRoomRanges` and `Layout.SecondRowWidths` hold for the model but may be attained by the program. The equalities in `Layout.LayoutTotalArea`, `Layout.SharedAreas`, `Rescale.RescaledTwice`, `Rescale.RescaledInverse`, `Rescale.RescaledTotalArea`, `Variants.TierRatios` and `Variants.AIPremiumIsScaledBudget` hold only up to rounding in the program. For example, `0.8 * 1.5` is 1.2000000000000002 in float64, so the premium rooms are not exactly the budget rooms rescaled by 1.5.
- `Layout.PositiveWhenBudgetCoversFixedRooms`, `Layout.NonNegativePositionsWhenBudgetCoversFixedRooms`, `Variants.TierLayoutsPositiveFromFifty` and `Variants.LocalPlansPositiveFromFifty` hold in the program only when the scaled total is strictly above 40 m². That means strictly above 50 m² for the budget tier. With the largest float64 draw, 1 − 2⁻⁵³, the fixed-room areas round to 12, 16 and 12, so they can sum to exactly 40.0. The living room and the bedrooms then get area 0.
- Go's 64-bit `int` is modelled as Dafny's unbounded `int`. `Rooms - 2` can wrap at the minimum int (planner/handlers.go:296), and `int(float64(a))` changes an `a` whose magnitude exceeds 2⁵³ (planner/handlers.go:92, 212). This affects `Layout.LivingRoomsCount`, `Variants.TruncateWhole` and `Variants.PathsEchoAlike`, but only for values the bounds check rejects.
- The placeholder URLs are modelled by `Variants.FloorPlanURL` and `Variants.Render3DURL`. These are string concatenations with `%d` rendered by `Decimal.IntToString`. Only the parts of their contents that the lemmas use are proved.
