/**
 * The professional course builder: a chain of control points from the
 * start "S" through the first k preset points to the finish "F", one
 * segment per consecutive pair with its straight-line and resolved
 * distance and its climb, the totals, the route-choice ratio, and the
 * classification of each segment and of the whole course.
 */
module Course {
  import opened Wrappers
  import opened Failures
  import Numerals
  import opened Geometry
  import opened Routing

  /** A control point: its name, its code, its position as decimal literals, and its elevation in meters. */
  datatype ControlPoint = ControlPoint(name: string, code: string, lat: Numerals.Fixed, lng: Numerals.Fixed, elevation: int)

  /** The ten preset control points on campus, in table order. */
  const PRESET_CONTROL_POINTS: seq<ControlPoint> := [
    ControlPoint("CP1-信息学部操场", "1", Numerals.Fixed(305850, 4), Numerals.Fixed(1143050, 4), 30),
    ControlPoint("CP2-文理学部操场", "2", Numerals.Fixed(305885, 4), Numerals.Fixed(1142990, 4), 28),
    ControlPoint("CP3-樱花大道", "3", Numerals.Fixed(305900, 4), Numerals.Fixed(1143020, 4), 45),
    ControlPoint("CP4-老图书馆", "4", Numerals.Fixed(305910, 4), Numerals.Fixed(1143000, 4), 65),
    ControlPoint("CP5-宋卿体育馆", "5", Numerals.Fixed(305920, 4), Numerals.Fixed(1143030, 4), 35),
    ControlPoint("CP6-万林艺术博物馆", "6", Numerals.Fixed(305890, 4), Numerals.Fixed(1143010, 4), 32),
    ControlPoint("CP7-工学部操场", "7", Numerals.Fixed(305930, 4), Numerals.Fixed(1143070, 4), 25),
    ControlPoint("CP8-医学部", "8", Numerals.Fixed(305980, 4), Numerals.Fixed(1142930, 4), 22),
    ControlPoint("CP9-信息学部图书馆", "9", Numerals.Fixed(305860, 4), Numerals.Fixed(1143040, 4), 35),
    ControlPoint("CP10-十八栋", "10", Numerals.Fixed(305940, 4), Numerals.Fixed(1142980, 4), 55)
  ]

  /** The fields of a race type's configuration that the course reads. */
  datatype RaceConfig = RaceConfig(name: string, description: string, maxClimb: int)

  /** The race types the course has a configuration for. */
  const RACE_TYPES: set<string> := {"短距离", "百米定向", "积分赛"}

  /** The supported race types; any other type is rejected. */
  function Config(raceType: string): (c: Option<RaceConfig>)
    ensures c.Some? <==> raceType in RACE_TYPES
  {
    if raceType == "短距离" then Some(RaceConfig("Sprint", "短距离赛，注重技术和路线选择", 100))
    else if raceType == "百米定向" then Some(RaceConfig("Park Sprint", "百米定向，密集控制点，快速决策", 20))
    else if raceType == "积分赛" then Some(RaceConfig("Score Orienteering", "积分赛，自由选择路线，按完成时间和积分计算", 150))
    else None
  }

  /** How many preset points a race type visits. */
  function PresetCount(raceType: string): (k: nat)
    ensures k <= |PRESET_CONTROL_POINTS|
  {
    if raceType == "短距离" then 6
    else if raceType == "百米定向" then 4
    else if raceType == "积分赛" then 10
    else 0
  }

  function StartPoint(start: string): ControlPoint
  {
    ControlPoint("起点(" + start + ")", "S", Numerals.Fixed(305850, 4), Numerals.Fixed(1143050, 4), 30)
  }

  function FinishPoint(end: string): ControlPoint
  {
    ControlPoint("终点(" + end + ")", "F", Numerals.Fixed(305885, 4), Numerals.Fixed(1142990, 4), 28)
  }

  /** The full route of a race: start, the first k presets, finish. */
  function Chain(raceType: string, start: string, end: string): seq<ControlPoint>
  {
    [StartPoint(start)] + PRESET_CONTROL_POINTS[..PresetCount(raceType)] + [FinishPoint(end)]
  }

  /** The chain has k + 2 points, starts at "S", ends at "F", and visits the first k presets in order. */
  lemma {:induction false} ChainShape(raceType: string, start: string, end: string)
    requires Config(raceType).Some?
    ensures var chain := Chain(raceType, start, end);
      var k := PresetCount(raceType);
      && k == (if raceType == "短距离" then 6 else if raceType == "百米定向" then 4 else 10)
      && |chain| == k + 2
      && chain[0].code == "S" && chain[|chain| - 1].code == "F"
      && chain[1..|chain| - 1] == PRESET_CONTROL_POINTS[..k]
  {
    var chain := Chain(raceType, start, end);
    assert chain[1..|chain| - 1] == PRESET_CONTROL_POINTS[..PresetCount(raceType)];
  }

  /** Where a control point lies: the coordinate of its two literals. */
  function Position(p: ControlPoint): Coord
  {
    LiteralCoord(p.lat, p.lng)
  }

  /** Height gained going from elevation `from` to elevation `to`: the rise, or nothing on a descent. */
  function Climb(from: int, to: int): (c: int)
    ensures c >= 0
    ensures to <= from ==> c == 0
    ensures to >= from ==> c == to - from
  {
    if to - from > 0 then to - from else 0
  }

  /** The elevations along a chain. */
  function Heights(chain: seq<ControlPoint>): (heights: seq<int>)
    ensures |heights| == |chain|
    ensures forall i :: 0 <= i < |chain| ==> heights[i] == chain[i].elevation
  {
    seq(|chain|, i requires 0 <= i < |chain| => chain[i].elevation)
  }

  /** The height gained over the first n steps along a sequence of elevations. */
  function Rise(heights: seq<int>, n: nat): (total: int)
    requires n < |heights|
    ensures total >= 0
  {
    if n == 0 then 0 else Rise(heights, n - 1) + Climb(heights[n - 1], heights[n])
  }

  /** One leg of the course between consecutive points. */
  datatype Segment = Segment(
    from: string, to: string,
    straight: real, actual: real, climb: int,
    fromName: string, toName: string)

  /**
   * The segment for the pair at `i`: consecutive codes and names, the
   * straight line, the distance the lookup resolves and the climb; or
   * what the lookup raises for a malformed payload.
   */
  function SegmentAt(chain: seq<ControlPoint>, i: nat, outcome: ServiceOutcome): (r: Result<Segment, Raised>)
    requires i + 1 < |chain|
    ensures r.Failure? <==> Malformed(outcome)
    ensures r.Success? ==>
      && r.value.from == chain[i].code && r.value.to == chain[i + 1].code
      && r.value.fromName == chain[i].name && r.value.toName == chain[i + 1].name
      && r.value.straight == StraightLine(Position(chain[i]), Position(chain[i + 1]))
      && r.value.climb == Climb(chain[i].elevation, chain[i + 1].elevation)
      && (Recoverable(outcome) ==> r.value.actual == DETOUR_FACTOR * r.value.straight)
      && (Usable(outcome) ==> r.value.actual == ServiceRoute(outcome).distance)
  {
    var current := chain[i];
    var next := chain[i + 1];
    var route := ResolveRoute(Position(current), Position(next), outcome);
    if route.Failure? then
      Failure(route.error)
    else
      Success(Segment(current.code, next.code, StraightLine(Position(current), Position(next)),
        route.value.distance, Climb(current.elevation, next.elevation), current.name, next.name))
  }

  /**
   * The lookup as the course makes it: both points written as "lat,lng"
   * text, which reads back as their positions.
   */
  method LookUp(current: ControlPoint, next: ControlPoint, outcome: ServiceOutcome) returns (route: Result<RouteInfo, Raised>)
    ensures route == ResolveRoute(Position(current), Position(next), outcome)
  {
    route := GetRoute(LiteralPlace(current.lat, current.lng), LiteralPlace(next.lat, next.lng), outcome);
  }

  /**
   * The first n segments of the chain, the i-th resolved with the i-th
   * outcome; the first exception raised ends the walk.
   */
  function Segments(chain: seq<ControlPoint>, n: nat, responses: nat -> ServiceOutcome): (r: Result<seq<Segment>, Raised>)
    requires n < |chain|
    ensures r.Success? ==> |r.value| == n
  {
    if n == 0 then
      Success([])
    else
      var earlier := Segments(chain, n - 1, responses);
      if earlier.Failure? then
        earlier
      else
        var last := SegmentAt(chain, n - 1, responses(n - 1));
        if last.Failure? then
          Failure(last.error)
        else
          Success(earlier.value + [last.value])
  }

  /** Each walked segment is the one its pair and its outcome resolve to. */
  lemma {:induction false} SegmentsEach(chain: seq<ControlPoint>, n: nat, responses: nat -> ServiceOutcome, j: nat)
    requires j < n < |chain|
    requires Segments(chain, n, responses).Success?
    ensures SegmentAt(chain, j, responses(j)) == Success(Segments(chain, n, responses).value[j])
  {
    var earlier := Segments(chain, n - 1, responses);
    assert earlier.Success?;
    if j < n - 1 {
      SegmentsEach(chain, n - 1, responses, j);
      assert Segments(chain, n, responses).value[j] == earlier.value[j];
    }
  }

  /** The walk over the first n pairs raises exactly when one of their outcomes is malformed. */
  lemma {:induction false} SegmentsRaiseIff(chain: seq<ControlPoint>, n: nat, responses: nat -> ServiceOutcome)
    requires n < |chain|
    ensures Segments(chain, n, responses).Failure? <==> exists j :: 0 <= j < n && Malformed(responses(j))
  {
    if n > 0 {
      SegmentsRaiseIff(chain, n - 1, responses);
      var earlier := Segments(chain, n - 1, responses);
      var last := SegmentAt(chain, n - 1, responses(n - 1));
      assert Segments(chain, n, responses).Failure? <==> earlier.Failure? || last.Failure?;
      if exists j :: 0 <= j < n && Malformed(responses(j)) {
        var j :| 0 <= j < n && Malformed(responses(j));
        assert j < n - 1 ==> exists i :: 0 <= i < n - 1 && Malformed(responses(i));
      }
    }
  }

  /** Once the walk raises, walking further pairs raises the same exception. */
  lemma {:induction false} SegmentsStopAtFailure(chain: seq<ControlPoint>, i: nat, n: nat, responses: nat -> ServiceOutcome)
    requires i <= n < |chain|
    requires Segments(chain, i, responses).Failure?
    ensures Segments(chain, n, responses) == Segments(chain, i, responses)
    decreases n - i
  {
    if i < n {
      SegmentsStopAtFailure(chain, i, n - 1, responses);
    }
  }

  function SumStraight(segments: seq<Segment>): real
  {
    if |segments| == 0 then 0.0 else SumStraight(segments[..|segments| - 1]) + segments[|segments| - 1].straight
  }

  function SumActual(segments: seq<Segment>): real
  {
    if |segments| == 0 then 0.0 else SumActual(segments[..|segments| - 1]) + segments[|segments| - 1].actual
  }

  function SumClimb(segments: seq<Segment>): int
  {
    if |segments| == 0 then 0 else SumClimb(segments[..|segments| - 1]) + segments[|segments| - 1].climb
  }

  /** Total distance over total straight distance, or exactly 1.0 when nothing was walked in a straight line. */
  function RouteChoiceRatio(totalDistance: real, totalStraight: real): (ratio: real)
    ensures totalStraight > 0.0 ==> ratio * totalStraight == totalDistance
    ensures totalStraight <= 0.0 ==> ratio == 1.0
  {
    if totalStraight > 0.0 then totalDistance / totalStraight else 1.0
  }

  datatype Level = Low | Moderate | High

  /** Route-choice difficulty: high above 1.5, low below 1.2, moderate from 1.2 to 1.5 inclusive. */
  function RatioLevel(ratio: real): (level: Level)
    ensures level == High <==> ratio > 1.5
    ensures level == Low <==> ratio < 1.2
    ensures level == Moderate <==> 1.2 <= ratio <= 1.5
  {
    if ratio > 1.5 then High else if ratio < 1.2 then Low else Moderate
  }

  /** Climb difficulty: high when the total climb exceeds the race type's limit, moderate otherwise. */
  function ClimbLevel(totalClimb: int, maxClimb: int): (level: Level)
    ensures level == High <==> totalClimb > maxClimb
    ensures level != Low
  {
    if totalClimb > maxClimb then High else Moderate
  }

  /** The technical point named for a segment. */
  datatype Note = RouteChoice | Climbing | Orientation | QuickDecision

  /**
   * A segment whose resolved distance is more than 1.3 times its straight
   * line is a route-choice leg; failing that, one climbing more than 10 m
   * is a climbing leg; the rest alternate on the segment's index.
   */
  function SegmentNote(segment: Segment, i: nat): (note: Note)
    ensures note == RouteChoice <==> segment.actual > segment.straight * 1.3
    ensures note == Climbing <==> segment.actual <= segment.straight * 1.3 && segment.climb > 10
    ensures note == Orientation <==> segment.actual <= segment.straight * 1.3 && segment.climb <= 10 && i % 3 == 0
  {
    if segment.actual > segment.straight * 1.3 then RouteChoice
    else if segment.climb > 10 then Climbing
    else if i % 3 == 0 then Orientation
    else QuickDecision
  }

  /** The recommended way into a point. */
  datatype Advice = MainRoad | OwnChoice

  function RouteAdvice(toCode: string): (advice: Advice)
    ensures advice == MainRoad <==> toCode in ["3", "4", "10"]
  {
    if toCode in ["3", "4", "10"] then MainRoad else OwnChoice
  }

  /** The figures and classifications the course report states. */
  datatype CourseReport = CourseReport(
    raceType: string, config: RaceConfig, start: string, end: string,
    chain: seq<ControlPoint>, segments: seq<Segment>,
    totalDistance: real, totalStraight: real, totalClimb: int,
    ratio: real, controlCount: int,
    notes: seq<Note>, advice: seq<Advice>,
    climbLevel: Level, ratioLevel: Level)

  datatype CourseOutcome = Unsupported | Crashed(error: Raised) | Report(report: CourseReport)

  /** The per-segment notes, in segment order. */
  function Notes(segments: seq<Segment>): (notes: seq<Note>)
    ensures |notes| == |segments|
    ensures forall i :: 0 <= i < |segments| ==> notes[i] == SegmentNote(segments[i], i)
  {
    seq(|segments|, i requires 0 <= i < |segments| => SegmentNote(segments[i], i))
  }

  /** The per-segment route advice, in segment order. */
  function AdviceFor(segments: seq<Segment>): (advice: seq<Advice>)
    ensures |advice| == |segments|
    ensures forall i :: 0 <= i < |segments| ==> advice[i] == RouteAdvice(segments[i].to)
  {
    seq(|segments|, i requires 0 <= i < |segments| => RouteAdvice(segments[i].to))
  }

  /** What the course builder produces for a race type and the router's answers, one per segment. */
  function ProfessionalCourse(raceType: string, start: string, end: string, responses: nat -> ServiceOutcome): (r: CourseOutcome)
    ensures r.Unsupported? <==> raceType !in RACE_TYPES
  {
    match Config(raceType)
    case None => Unsupported
    case Some(config) =>
      var chain := Chain(raceType, start, end);
      var walked := Segments(chain, |chain| - 1, responses);
      if walked.Failure? then
        Crashed(walked.error)
      else
        var segments := walked.value;
        var totalDistance := SumActual(segments);
        var totalStraight := SumStraight(segments);
        var totalClimb := SumClimb(segments);
        var ratio := RouteChoiceRatio(totalDistance, totalStraight);
        Report(CourseReport(raceType, config, start, end, chain, segments,
          totalDistance, totalStraight, totalClimb, ratio, |chain| - 2,
          Notes(segments), AdviceFor(segments),
          ClimbLevel(totalClimb, config.maxClimb), RatioLevel(ratio)))
  }

  /** The start, the presets the race type visits, and the finish, appended in that order. */
  method BuildChain(raceType: string, start: string, end: string) returns (fullRoute: seq<ControlPoint>)
    ensures fullRoute == Chain(raceType, start, end)
  {
    fullRoute := [StartPoint(start)];
    if raceType == "短距离" {
      fullRoute := fullRoute + PRESET_CONTROL_POINTS[..6];
    } else if raceType == "百米定向" {
      fullRoute := fullRoute + PRESET_CONTROL_POINTS[..4];
    } else if raceType == "积分赛" {
      fullRoute := fullRoute + PRESET_CONTROL_POINTS;
    }
    fullRoute := fullRoute + [FinishPoint(end)];
  }

  /**
   * The segment loop: resolves each consecutive pair in chain order and
   * accumulates the three totals; an exception from the lookup ends it.
   */
  method WalkSegments(fullRoute: seq<ControlPoint>, responses: nat -> ServiceOutcome)
    returns (walked: Result<seq<Segment>, Raised>, totalDistance: real, totalStraight: real, totalClimb: int)
    requires |fullRoute| >= 1
    ensures walked == Segments(fullRoute, |fullRoute| - 1, responses)
    ensures walked.Success? ==>
      && totalDistance == SumActual(walked.value)
      && totalStraight == SumStraight(walked.value)
      && totalClimb == SumClimb(walked.value)
  {
    totalDistance := 0.0;
    totalClimb := 0;
    totalStraight := 0.0;
    var segments: seq<Segment> := [];
    var i := 0;
    while i < |fullRoute| - 1
      invariant 0 <= i <= |fullRoute| - 1
      invariant Segments(fullRoute, i, responses) == Success(segments)
      invariant totalDistance == SumActual(segments)
      invariant totalStraight == SumStraight(segments)
      invariant totalClimb == SumClimb(segments)
    {
      var current := fullRoute[i];
      var next := fullRoute[i + 1];
      var straight := StraightLine(Position(current), Position(next));
      totalStraight := totalStraight + straight;
      var route := LookUp(current, next, responses(i));
      if route.Failure? {
        WalkFails(fullRoute, i, responses, route.error);
        return Failure(route.error), totalDistance, totalStraight, totalClimb;
      }
      var actual := route.value.distance;
      totalDistance := totalDistance + actual;
      var climb := Climb(current.elevation, next.elevation);
      totalClimb := totalClimb + climb;
      var segment := Segment(current.code, next.code, straight, actual, climb, current.name, next.name);
      SegmentsExtend(fullRoute, i, responses, segments, segment);
      segments := segments + [segment];
      i := i + 1;
    }
    walked := Success(segments);
  }

  /** A pair whose lookup raises ends the whole walk with that exception. */
  lemma {:induction false} WalkFails(chain: seq<ControlPoint>, i: nat, responses: nat -> ServiceOutcome, error: Raised)
    requires i + 1 < |chain|
    requires Segments(chain, i, responses).Success?
    requires ResolveRoute(Position(chain[i]), Position(chain[i + 1]), responses(i)) == Failure(error)
    ensures Failure(error) == Segments(chain, |chain| - 1, responses)
  {
    SegmentsFailAt(chain, i, responses, error);
    SegmentsStopAtFailure(chain, i + 1, |chain| - 1, responses);
  }

  lemma {:induction false} SegmentsFailAt(chain: seq<ControlPoint>, i: nat, responses: nat -> ServiceOutcome, error: Raised)
    requires i + 1 < |chain|
    requires Segments(chain, i, responses).Success?
    requires ResolveRoute(Position(chain[i]), Position(chain[i + 1]), responses(i)) == Failure(error)
    ensures Segments(chain, i + 1, responses) == Failure(error)
  {
    assert SegmentAt(chain, i, responses(i)) == Failure(error);
  }

  /** A segment resolved at pair i extends the walk and each of its totals. */
  lemma {:induction false} SegmentsExtend(chain: seq<ControlPoint>, i: nat, responses: nat -> ServiceOutcome,
                       segments: seq<Segment>, segment: Segment)
    requires i + 1 < |chain|
    requires Segments(chain, i, responses) == Success(segments)
    requires segment.from == chain[i].code && segment.to == chain[i + 1].code
    requires segment.fromName == chain[i].name && segment.toName == chain[i + 1].name
    requires segment.straight == StraightLine(Position(chain[i]), Position(chain[i + 1]))
    requires segment.climb == Climb(chain[i].elevation, chain[i + 1].elevation)
    requires ResolveRoute(Position(chain[i]), Position(chain[i + 1]), responses(i)).Success?
    requires ResolveRoute(Position(chain[i]), Position(chain[i + 1]), responses(i)).value.distance == segment.actual
    ensures Segments(chain, i + 1, responses) == Success(segments + [segment])
    ensures SumActual(segments + [segment]) == SumActual(segments) + segment.actual
    ensures SumStraight(segments + [segment]) == SumStraight(segments) + segment.straight
    ensures SumClimb(segments + [segment]) == SumClimb(segments) + segment.climb
  {
    assert SegmentAt(chain, i, responses(i)) == Success(segment);
    assert (segments + [segment])[..|segments|] == segments;
  }

  /** The report loop's classification: a note and a route advice per segment, in order. */
  method ClassifySegments(segments: seq<Segment>) returns (notes: seq<Note>, advice: seq<Advice>)
    ensures notes == Notes(segments)
    ensures advice == AdviceFor(segments)
  {
    notes := [];
    advice := [];
    var j := 0;
    while j < |segments|
      invariant 0 <= j <= |segments|
      invariant notes == Notes(segments)[..j]
      invariant advice == AdviceFor(segments)[..j]
    {
      var segment := segments[j];
      var note :=
        if segment.actual > segment.straight * 1.3 then RouteChoice
        else if segment.climb > 10 then Climbing
        else if j % 3 == 0 then Orientation
        else QuickDecision;
      notes := notes + [note];
      advice := advice + [if segment.to in ["3", "4", "10"] then MainRoad else OwnChoice];
      j := j + 1;
    }
  }

  /**
   * Builds the chain, walks its segments resolving each with the route
   * lookup, accumulates the totals, and classifies segments and course.
   */
  method ProfessionalMode(raceType: string, start: string, end: string, responses: nat -> ServiceOutcome)
    returns (r: CourseOutcome)
    ensures r == ProfessionalCourse(raceType, start, end, responses)
  {
    var config := Config(raceType);
    if config.None? {
      return Unsupported;
    }
    var fullRoute := BuildChain(raceType, start, end);
    var walked, totalDistance, totalStraight, totalClimb := WalkSegments(fullRoute, responses);
    if walked.Failure? {
      return Crashed(walked.error);
    }
    var segments := walked.value;
    var ratio := if totalStraight > 0.0 then totalDistance / totalStraight else 1.0;
    var notes, advice := ClassifySegments(segments);
    var climbLevel := if totalClimb > config.value.maxClimb then High else Moderate;
    var ratioLevel := if ratio > 1.5 then High else if ratio < 1.2 then Low else Moderate;
    r := Report(CourseReport(raceType, config.value, start, end, fullRoute, segments,
      totalDistance, totalStraight, totalClimb, ratio, |fullRoute| - 2,
      notes, advice, climbLevel, ratioLevel));
  }
}
