# LuojiaExplorer, modelled in Dafny

`LuojiaExplorer` (campus_orientation.py) is the engine of an orienteering
assistant for the Wuhan University campus. This project models it.

- **Route lookup.** It reads two places, asks a walking router for a route, and falls back to a local estimate. The estimate is 1.2 times the straight line, walked at 1.3 m/s.
- **Professional mode.** It builds a course: start "S", the first 6, 4 or 10 preset control points, finish "F". It resolves every leg, sums distance, straight line and climb, and computes the route-choice ratio. It then classifies each leg and the whole course.
- **Fun mode.** It takes a theme's four points of interest, looks up the walk to each from a fixed origin, and adds up whole minutes and task points.
- **Campus check.** It decides from the geocoder's first hit whether a place is on the campus.
- **Nearby search.** It keeps the geocoder hits that name the university.
- **Request dispatch.** It routes a free-text request by keywords.

The router's answers are an input: a function from the call's index to a
`ServiceOutcome` (request failed, body not JSON, or a payload with optional
keys). The geocoder's answer is a list of hits. Python exceptions that
escape are the error side of a `Result` (`ValueError`, `KeyError`,
`IndexError`). Coordinates and distances are exact reals. The decimal
literals of the tables are `Numerals.Fixed` values, and the text written
for them is proved to parse back to the same value.

Modules (one per file, except that wrappers.dfy holds both `Wrappers` and
`Failures`, the escaping Python exceptions): `Wrappers`, `Failures`, `Text` (Python's `in`, `split`,
address head), `Numerals` (`float()` on decimal text, decimal rendering),
`Geometry` (straight line), `Routing` (`get_route`), `Course` and
`CourseProperties` (`professional_mode`), `Fun` and `FunProperties`
(`fun_mode`), `Campus` (`check_in_campus`, `get_poi_around`), `Dispatch`
(`process_request`). The loops of the source are methods with loop
invariants. Each method is proved equal to a recursive specification
function, and the properties are lemmas about those functions.

## Model

| member | source | states |
|---|---|---|
| Text.Contains | campus_orientation.py:25 | Python's `sub in s`: true exactly when `sub` occurs at some index of `s` |
| Text.Split | campus_orientation.py:40 | `s.split(sep)`: at least one part, no part holds the separator, and the parts joined with it give `s` back |
| Text.SplitJoin | campus_orientation.py:40 | splitting the joined parts gives the parts back when none holds the separator |
| Text.AddressHead | campus_orientation.py:106 | the display name up to its first comma, or all of it when it has none; comma-free and a prefix |
| Numerals.ParseFloat | campus_orientation.py:40 | `float()` of decimal text succeeds only on non-empty text, and is negative only with a leading minus |
| Numerals.ParseFloatAlphabet | campus_orientation.py:40 | text `float()` accepts holds only digits and points, with a sign only as its first character; any other character makes it raise |
| Numerals.ParseFloatOnePoint | campus_orientation.py:40 | text `float()` accepts holds at most one point; a second point makes it raise |
| Numerals.ParseFloatHasDigit | campus_orientation.py:40 | text `float()` accepts holds at least one digit, so "", "." and "-" raise |
| Numerals.ParseFloatDecimal | campus_orientation.py:40 | digits, a point and digits (at least one digit in all) are accepted unsigned or after "+" as the whole part plus the scaled fraction, and after "-" as its negation |
| Numerals.ParseFloatInteger | campus_orientation.py:40 | non-empty digits are accepted unsigned or after "+" as the number they denote, and after "-" as its negation |
| Numerals.ParseRender | campus_orientation.py:267 | round trip: `float()` of the text written for a decimal literal is the literal's value |
| Geometry.Sqrt | campus_orientation.py:73-74 | the square root is 0 at 0 and positive for a positive argument |
| Geometry.SqrtAbove | campus_orientation.py:73-74 | the root is non-negative and its square is at least the argument |
| Geometry.StraightLine | campus_orientation.py:262-263 | the equirectangular distance (111320 m per degree, longitude also scaled by 0.7) is 0 for identical points and positive for distinct ones |
| Geometry.StraightLineSymmetric | campus_orientation.py:262-263 | the straight line is the same in both directions |
| Routing.ParsePlace | campus_orientation.py:38-47 | text is read exactly when it splits at commas into two parts that both read as floats, and then gives those two floats as latitude and longitude; any other text raises ValueError; a mapping is read as it is |
| Routing.ParseCoordinateText | campus_orientation.py:267 | the "lat,lng" text written for two literals parses back to their values |
| Routing.LiteralPlace | campus_orientation.py:267 | the "lat,lng" text written for two decimal literals (a control point, a stop's location, the fun mode's origin) reads back as their coordinate |
| Routing.Estimate | campus_orientation.py:71-81 | fallback: distance is 1.2 times the straight line, zero exactly for identical points; duration is the whole number of seconds `int()` gives of distance / 1.3; no steps |
| Routing.EstimateSymmetric | campus_orientation.py:71-81 | the estimate does not depend on the direction of travel |
| Routing.ResolveRoute | campus_orientation.py:49-81 | request failure, non-JSON body or a code other than "Ok" gives the estimate; a complete "Ok" payload gives its first route and first leg's steps; any other payload raises |
| Routing.GetRoute | campus_orientation.py:36-81 | both places are read first and a malformed one raises ValueError; otherwise the route is resolved between the two coordinates |
| Routing.GetRouteRaisesIff | campus_orientation.py:36-81 | the lookup raises exactly when a place is malformed or the payload is neither usable nor recoverable |
| Course.Config | campus_orientation.py:197-224 | a configuration exists exactly for 短距离, 百米定向 and 积分赛 |
| Course.ChainShape | campus_orientation.py:231-245 | the chain has k + 2 points (k = 6, 4, 10), starts at "S", ends at "F" and holds the first k presets in order |
| Course.BuildChain | campus_orientation.py:231-245 | the route built by appending start, presets and finish is the chain |
| Course.Climb | campus_orientation.py:273 | `max(0, next - current)`: never negative, 0 on a descent, the rise otherwise |
| Course.Heights | campus_orientation.py:273 | the elevations along the chain, one per point |
| Course.Rise | campus_orientation.py:273-274 | the climb summed along elevations is never negative |
| Course.SegmentAt | campus_orientation.py:253-284 | a leg has consecutive codes and names, the straight line and the climb of its pair, the resolved distance (1.2 times the straight line on fallback); it raises exactly on a malformed payload |
| Course.LookUp | campus_orientation.py:267 | the lookup on the written coordinates resolves the route between the two positions |
| Course.Segments | campus_orientation.py:253-284 | a walk over n pairs that completes has n segments |
| Course.SegmentsEach | campus_orientation.py:253-284 | the j-th walked segment is the one its pair and the j-th answer resolve to |
| Course.SegmentsRaiseIff | campus_orientation.py:253-284 | the walk raises exactly when one of its answers is malformed |
| Course.SegmentsStopAtFailure | campus_orientation.py:253-284 | once the walk raises, walking further pairs gives the same exception |
| Course.WalkSegments | campus_orientation.py:253-284 | the loop's segments are the walk, and its three totals are the sums of distance, straight line and climb over the segments |
| Course.WalkFails | campus_orientation.py:267 | a lookup that raises at pair i ends the whole walk with that exception |
| Course.SegmentsFailAt | campus_orientation.py:267 | a lookup raising at pair i makes the walk over i + 1 pairs raise |
| Course.SegmentsExtend | campus_orientation.py:264-284 | a resolved leg extends the walk and adds its distance, straight line and climb to each total |
| Course.RouteChoiceRatio | campus_orientation.py:287 | the ratio times the straight total is the distance total when the latter is positive; exactly 1.0 otherwise |
| Course.RatioLevel | campus_orientation.py:352-357 | high iff ratio > 1.5, low iff ratio < 1.2, moderate iff 1.2 <= ratio <= 1.5 |
| Course.ClimbLevel | campus_orientation.py:347-350 | high iff the total climb exceeds the race type's limit, never low |
| Course.SegmentNote | campus_orientation.py:314-321 | route choice iff actual > 1.3 x straight; else climbing iff climb > 10; else orientation iff the index is a multiple of 3 |
| Course.RouteAdvice | campus_orientation.py:324-327 | main-road advice exactly for legs into codes 3, 4 and 10 |
| Course.Notes | campus_orientation.py:302-321 | one note per segment, in segment order |
| Course.AdviceFor | campus_orientation.py:302-327 | one piece of advice per segment, in segment order |
| Course.ClassifySegments | campus_orientation.py:302-327 | the report loop's notes and advice are those of each segment in order |
| Course.ProfessionalCourse | campus_orientation.py:221-222 | an unsupported race type exactly when it is none of the three |
| Course.ProfessionalMode | campus_orientation.py:110-361 | the method's outcome is the course specification's |
| CourseProperties.ReportShape | campus_orientation.py:231-299 | a report walks the chain: one segment per consecutive pair, in order, with their codes and climbs; it counts k control points |
| CourseProperties.CrashIff | campus_orientation.py:253-284 | a supported race raises exactly when one of its k + 1 lookups gets a malformed payload |
| CourseProperties.FallbackCourse | campus_orientation.py:71-81 | with every lookup falling back, the report comes out with distance 1.2 times a positive straight total and no route-choice leg; in exact reals the ratio is 1.2, moderate |
| CourseProperties.FallbackWalk | campus_orientation.py:253-287 | a walk whose lookups all fall back completes, its distance total is 1.2 times a positive straight total, and no leg is noted as route choice |
| CourseProperties.FallbackEach | campus_orientation.py:253-284 | each leg of a fallback walk is 1.2 times its non-negative straight line |
| CourseProperties.NoRouteChoice | campus_orientation.py:314 | legs at 1.2 times their straight line are never route-choice legs |
| CourseProperties.SumsUnderFallback | campus_orientation.py:264-270 | when every leg is 1.2 times its straight line, so is the total |
| CourseProperties.SumStraightAtLeast | campus_orientation.py:264 | the straight total is at least each leg's straight line |
| CourseProperties.SumStraightNonNegative | campus_orientation.py:264 | the straight total of non-negative legs is non-negative |
| CourseProperties.SecondLegIsLong | campus_orientation.py:113-129 | the chain's second pair, CP1 to CP2, is two distinct places |
| CourseProperties.DetourRatio | campus_orientation.py:287 | a total that is 1.2 times a positive straight total gives ratio exactly 1.2 |
| CourseProperties.ClimbIsRise | campus_orientation.py:272-274 | the climb total is the rise along the chain's elevations |
| CourseProperties.ClimbTotals | campus_orientation.py:347-350 | the climb is 37 m for 短距离 and 百米定向 and 70 m for 积分赛; only 百米定向 (limit 20 m) is of high climb difficulty |
| CourseProperties.ChainRise | campus_orientation.py:113-194 | the rise along each race type's elevations is 37 m, 37 m and 70 m |
| Fun.PoiAt | campus_orientation.py:366-560 | an entry exists exactly for the eight keys of the table |
| Fun.ThemeStops | campus_orientation.py:562-574 | stops exist exactly for the eight themes |
| Fun.Minutes | campus_orientation.py:601 | `int(seconds / 60)`: truncation toward zero, bounded on both sides |
| Fun.Visit | campus_orientation.py:597-617 | a stop raises exactly when it is in the table and its answer is malformed; it adds the whole minutes `int(duration / 60)` of the route from the origin and its tasks' points; a key outside the table adds nothing |
| Fun.LookUp | campus_orientation.py:600 | the lookup from the origin text to the stop's location resolves between the two positions |
| Fun.SumTaskPoints | campus_orientation.py:611-617 | the loop's sum is the points of the stop's tasks |
| Fun.VisitStop | campus_orientation.py:597-617 | the loop body's effect is the stop's visit |
| Fun.TallyStops | campus_orientation.py:592-619 | the loop's totals are the tally over all stops, or its first exception |
| Fun.TallyExtends | campus_orientation.py:602-617 | a visited stop adds its minutes and points to the tally |
| Fun.TallyFails | campus_orientation.py:600 | a stop whose lookup raises ends the whole tally with that exception |
| Fun.TallyStopAtFailure | campus_orientation.py:596-619 | once the tally raises, further stops give the same exception |
| Fun.FunPlanFor | campus_orientation.py:573-574 | an unknown theme is rejected exactly when it is none of the eight; a plan reports the tally's minutes and points and the overview's task count as written |
| Fun.FunMode | campus_orientation.py:363-650 | the method's outcome is the fun-mode specification's |
| Fun.PoiOrderIsKeys | campus_orientation.py:623 | the order in which the overview iterates the table lists exactly the table's keys |
| Fun.LastPiece | campus_orientation.py:623 | a name without a '·' is its own last piece |
| Fun.Pieces | campus_orientation.py:623 | the last pieces of the stop keys, one per stop |
| FunProperties.KeyPoints | campus_orientation.py:611-617 | a key outside the table is worth no points |
| FunProperties.TallyPoints | campus_orientation.py:611-617 | a completed tally has the stops' task points, independently of the routes |
| FunProperties.TallyRaisesIff | campus_orientation.py:596-619 | the tally raises exactly when a stop in the table gets a malformed payload |
| FunProperties.ThemeShape | campus_orientation.py:562-571 | every theme has four stops, each in the table |
| FunProperties.FunCrashIff | campus_orientation.py:596-619 | a known theme raises exactly when one of its four lookups gets a malformed payload |
| FunProperties.PlanPointsFixed | campus_orientation.py:617 | the points a plan reports do not depend on the router's answers |
| FunProperties.ThemePoints | campus_orientation.py:562-617 | attainable points per theme: 樱花季 140, 校史探秘 165, 文化体验 140, 团日活动 170, 新生破冰 155, 社团活动 155, 户外拓展 175, 文化传承 155 |
| FunProperties.ThemeStopPoints | campus_orientation.py:562-571 | the same totals over each theme's four stops |
| FunProperties.FourStops | campus_orientation.py:611-617 | four stops are worth the sum of their keys' points |
| FunProperties.KeyTable | campus_orientation.py:366-560 | points per stop: 25, 30, 40, 35, 50, 45, 40, 55 in table order |
| FunProperties.TwoTasks | campus_orientation.py:611-617 | two tasks are worth their points together |
| FunProperties.FunFallback | campus_orientation.py:600-602 | with the router unavailable, a known theme still plans, with no negative minutes |
| FunProperties.TallyMinutesSum | campus_orientation.py:596-602 | a completed tally's minutes are the sum, over its stops in order, of the whole minutes of each stop's route from the origin |
| FunProperties.PlanMinutes | campus_orientation.py:596-602 | a plan's walking time is the sum of the whole minutes of the routes to its four stops |
| FunProperties.TallyMinutes | campus_orientation.py:601-602 | stops whose lookups fall back add no negative minutes |
| FunProperties.EntryShape | campus_orientation.py:366-560 | every entry has two tasks and a name starting with 武 that holds no '·' |
| FunProperties.KeyShape | campus_orientation.py:562-571 | no stop key is empty, starts with 武 or holds a '·' |
| FunProperties.NoNameMatches | campus_orientation.py:623 | entry names match none of the stop keys, so the as-written count adds nothing |
| FunProperties.TaskCountAsWrittenIsZero | campus_orientation.py:623 | the overview's task count as written is 0 for every theme |
| FunProperties.ThemeTaskCount | campus_orientation.py:623 | the overview's task count as intended is 8 for every theme |
| FunProperties.PlanTasks | campus_orientation.py:623 | as written, every plan reports 0 tasks, whatever the theme and the router's answers (the intended 8 is ThemeTaskCount) |
| Campus.CheckInCampus | campus_orientation.py:12-34 | no hit gives (False, None); it raises ValueError exactly on an unreadable coordinate of the first hit; on campus iff the name holds 武汉大学 or 武大, or the point lies in the inclusive box 30.580-30.610 / 114.280-114.310; the coordinates come back exactly when on campus |
| Campus.CheckReadsFirstHit | campus_orientation.py:20-22 | hits after the first are never read |
| Campus.GetPoiAround | campus_orientation.py:83-108 | a malformed location raises ValueError; otherwise the loop's list is the search specification's |
| Campus.CampusHits | campus_orientation.py:101-102 | a hit is kept exactly when it is among the hits and names the university |
| Campus.Entries | campus_orientation.py:103-107 | converting hits gives one place per hit |
| Campus.EntriesEach | campus_orientation.py:103-107 | each place is its hit's name, coordinates and address head |
| Campus.EntriesRaiseIff | campus_orientation.py:105 | converting raises exactly when a hit has an unreadable coordinate |
| Campus.NearbyFilterThenParse | campus_orientation.py:100-108 | the loop's list equals filtering first and converting after |
| Campus.NearbyRaisesIff | campus_orientation.py:100-108 | the search raises exactly when a hit naming the university has an unreadable coordinate |
| Campus.NearbySound | campus_orientation.py:100-107 | every place found is the conversion of a hit naming the university |
| Campus.NearbyFails | campus_orientation.py:105 | a kept hit with an unreadable coordinate ends the search with ValueError |
| Campus.NearbyStopAtFailure | campus_orientation.py:101-107 | once the search raises, further hits give the same exception |
| Dispatch.AnyWord | campus_orientation.py:655 | `any(word in text ...)`: true exactly when one of the words occurs |
| Dispatch.IntentOf | campus_orientation.py:655-668 | a race word always gives the 短距离 race between the two sports grounds; otherwise 樱花季 iff 樱花 occurs, 校史探秘 iff 校史 or 历史 occurs without 樱花, else 文化体验 |
| Dispatch.ProcessRequest | campus_orientation.py:652-669 | the method's reply is the dispatch specification's |
| Dispatch.RespondNeverRejects | campus_orientation.py:655-669 | a request never gets the unsupported-race or unknown-theme answer |
| Dispatch.RespondRaisesIff | campus_orientation.py:652-669 | a request raises exactly when one of the 7 (race) or 4 (fun) lookups its mode makes gets a malformed payload |

## Left out

- The HTTP requests to the router and the geocoder (campus_orientation.py:17, 52, 96) are left out. Their answers are inputs instead: the router's as one `ServiceOutcome` per call in call order (in the fun mode, indexed by stop; the two orders differ only for a stop outside the table, which makes no call, and no theme has one), the geocoder's as a list of hits.
- get_coordinates.py (a stand-alone geocoding script) and app.py (the Flask front end) are not part of this model.
- The report text (campus_orientation.py:290-361, 577-648) is left out. The model keeps its figures and classifications, not the formatted strings. This includes the `+10`, `+40` and `*80` figures printed from the minutes.
- The unused `control_points` and `total_distance` fields of the race configuration are left out, as are `__init__`'s campus centre and radius.
- The query URL, `radius`, `tags` and the viewbox arithmetic of `get_poi_around` (campus_orientation.py:91-94) are left out. They only shape the network request.
- CourseProperties.FallbackCourse: the ratio of exactly 1.2 and the moderate verdict hold in exact reals only. Under IEEE doubles the summed distance over the summed straight line can round just below 1.2, and line 354 then rates the course low.
- Floating point is modelled as exact reals, so IEEE rounding is not modelled. `int()` of a non-negative value is `.Floor`, and of a negative one truncation toward zero.
- Geometry.Sqrt: the square root is a fixed-step Newton iteration, not the exact `** 0.5`. Its contract (0 at 0, positive above, square at least the argument) is all the model uses, and it is weaker than equality with the true root.
- Numerals.ParseFloat: `float()` is modelled on plain decimal text with an optional sign. Exponents, `inf`/`nan`, underscores and surrounding whitespace are not modelled. Its own contract only states the sign; which texts it accepts, and the value of each, are stated by the ParseFloatAlphabet, ParseFloatOnePoint, ParseFloatHasDigit, ParseFloatDecimal and ParseFloatInteger lemmas.
- Numerals.ParseRender: coordinates are written with the digits of their table literal (e.g. "30.5850"), where Python writes the shortest repr ("30.585"). Both read back as the same value.
- The geocoder's answer is taken to be a list of records holding every key read. A missing key, or an answer that is not a list, is not modelled.
- Router payloads are taken to be JSON objects. A payload that is a list or a scalar is not modelled.
- The descriptive fields of a task (type, difficulty, time limit, description) and of a stop (clue, address) are left out. Only task points, names and locations enter the figures.
- The `else 5` branch of campus_orientation.py:601 is not modelled, because `get_route` always returns a non-empty dict and the branch is unreachable. The `if route:` test at line 268 is always true for the same reason.

## Findings

| source | as written | input that shows it | evidently intended | confidence | as-written member | corrected member |
|---|---|---|---|---|---|---|
| campus_orientation.py:623 | the overview's task count compares each entry's full name, e.g. "武汉大学樱花大道", with the stop keys, e.g. "樱花大道", after splitting both at '·'; no name ever equals a key | theme 樱花季: the count is 0 though its four stops hold eight tasks | count every task at the stops the plan visits: 8 for every theme | high (not executed) | FunProperties.TaskCountAsWrittenIsZero | FunProperties.ThemeTaskCount |
