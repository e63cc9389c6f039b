/**
 * What the professional course promises about its report: its shape,
 * exactly when it raises, its climb totals, and its figures when every
 * lookup falls back to the local estimate.
 */
module CourseProperties {
  import opened Wrappers
  import Numerals
  import opened Geometry
  import opened Routing
  import opened Course

  /**
   * A report walks the chain S, the first k presets, F: one segment per
   * consecutive pair, in chain order, and counts k control points.
   */
  lemma {:induction false} ReportShape(raceType: string, start: string, end: string, responses: nat -> ServiceOutcome)
    requires ProfessionalCourse(raceType, start, end, responses).Report?
    ensures var rep := ProfessionalCourse(raceType, start, end, responses).report;
      && rep.chain == Chain(raceType, start, end)
      && |rep.segments| == |rep.chain| - 1
      && rep.controlCount == PresetCount(raceType)
      && |rep.notes| == |rep.segments| && |rep.advice| == |rep.segments|
      && forall j :: 0 <= j < |rep.segments| ==>
        && rep.segments[j].from == rep.chain[j].code
        && rep.segments[j].to == rep.chain[j + 1].code
        && rep.segments[j].climb == Climb(rep.chain[j].elevation, rep.chain[j + 1].elevation)
  {
    var chain := Chain(raceType, start, end);
    var n := |chain| - 1;
    var segments := Segments(chain, n, responses).value;
    forall j | 0 <= j < |segments|
      ensures segments[j].from == chain[j].code && segments[j].to == chain[j + 1].code
      ensures segments[j].climb == Climb(chain[j].elevation, chain[j + 1].elevation)
    {
      SegmentsEach(chain, n, responses, j);
    }
  }

  /**
   * A supported race raises exactly when one of the k + 1 lookups it makes
   * gets a malformed payload; the router's later answers are never read.
   */
  lemma {:induction false} CrashIff(raceType: string, start: string, end: string, responses: nat -> ServiceOutcome)
    requires raceType in RACE_TYPES
    ensures ProfessionalCourse(raceType, start, end, responses).Crashed? <==>
      exists j :: 0 <= j <= PresetCount(raceType) && Malformed(responses(j))
  {
    var chain := Chain(raceType, start, end);
    SegmentsRaiseIff(chain, |chain| - 1, responses);
  }

  /** Every lookup the race makes falls back to the local estimate. */
  predicate FallsBack(raceType: string, responses: nat -> ServiceOutcome)
  {
    forall j :: 0 <= j <= PresetCount(raceType) ==> Recoverable(responses(j))
  }

  /**
   * With the router unavailable, the report still comes out: the total
   * distance is the detour factor times the total straight line, which is
   * positive, so the ratio is exactly 1.2, of moderate difficulty, and no
   * segment is a route-choice leg.
   */
  lemma {:induction false} FallbackCourse(raceType: string, start: string, end: string, responses: nat -> ServiceOutcome)
    requires raceType in RACE_TYPES
    requires FallsBack(raceType, responses)
    ensures var r := ProfessionalCourse(raceType, start, end, responses);
      && r.Report?
      && r.report.totalDistance == DETOUR_FACTOR * r.report.totalStraight
      && r.report.totalStraight > 0.0
      && r.report.ratio == DETOUR_FACTOR
      && r.report.ratioLevel == Moderate
      && RouteChoice !in r.report.notes
  {
    var chain := Chain(raceType, start, end);
    SecondLegIsLong(raceType, start, end);
    FallbackWalk(chain, responses);
    var segments := Segments(chain, |chain| - 1, responses).value;
    DetourRatio(SumActual(segments), SumStraight(segments));
  }

  /** A total that is the detour of a positive straight-line total has exactly the detour factor as ratio. */
  lemma {:induction false} DetourRatio(total: real, straight: real)
    requires straight > 0.0 && total == DETOUR_FACTOR * straight
    ensures RouteChoiceRatio(total, straight) == DETOUR_FACTOR
  {
  }

  /**
   * The walk of a chain whose lookups all fall back: it completes, its
   * total is the detour of its straight-line total, which the second pair
   * makes positive, and no segment is noted as a route choice.
   */
  lemma {:induction false} FallbackWalk(chain: seq<ControlPoint>, responses: nat -> ServiceOutcome)
    requires |chain| > 2
    requires forall j :: 0 <= j < |chain| - 1 ==> Recoverable(responses(j))
    requires StraightLine(Position(chain[1]), Position(chain[2])) > 0.0
    ensures Segments(chain, |chain| - 1, responses).Success?
    ensures var segments := Segments(chain, |chain| - 1, responses).value;
      && SumActual(segments) == DETOUR_FACTOR * SumStraight(segments)
      && SumStraight(segments) > 0.0
      && RouteChoice !in Notes(segments)
  {
    var n := |chain| - 1;
    FallbackEach(chain, n, responses);
    SegmentsEach(chain, n, responses, 1);
    var segments := Segments(chain, n, responses).value;
    SumsUnderFallback(segments);
    SumStraightAtLeast(segments, 1);
    NoRouteChoice(segments);
  }

  /** Each segment of a walk that falls back is its straight line times the detour factor. */
  lemma {:induction false} FallbackEach(chain: seq<ControlPoint>, n: nat, responses: nat -> ServiceOutcome)
    requires n == |chain| - 1
    requires forall j :: 0 <= j < n ==> Recoverable(responses(j))
    ensures Segments(chain, n, responses).Success?
    ensures forall j :: 0 <= j < n ==> Detoured(Segments(chain, n, responses).value[j])
  {
    SegmentsRaiseIff(chain, n, responses);
    var segments := Segments(chain, n, responses).value;
    forall j | 0 <= j < n
      ensures Detoured(segments[j])
    {
      SegmentsEach(chain, n, responses, j);
    }
  }

  /** A segment as the estimate makes it: a non-negative straight line, walked with the detour. */
  predicate Detoured(segment: Segment)
  {
    segment.straight >= 0.0 && segment.actual == DETOUR_FACTOR * segment.straight
  }

  /** A detoured segment is never longer than 1.3 times its straight line: no route-choice note. */
  lemma {:induction false} NoRouteChoice(segments: seq<Segment>)
    requires forall j :: 0 <= j < |segments| ==> Detoured(segments[j])
    ensures RouteChoice !in Notes(segments)
  {
    var notes := Notes(segments);
    forall i | 0 <= i < |notes|
      ensures notes[i] != RouteChoice
    {
      assert Detoured(segments[i]);
    }
  }

  /** When every segment is the detour of its straight line, so are the totals. */
  lemma {:induction false} SumsUnderFallback(segments: seq<Segment>)
    requires forall j :: 0 <= j < |segments| ==> Detoured(segments[j])
    ensures SumActual(segments) == DETOUR_FACTOR * SumStraight(segments)
  {
    if |segments| > 0 {
      var prefix := segments[..|segments| - 1];
      assert forall j :: 0 <= j < |prefix| ==> prefix[j] == segments[j];
      SumsUnderFallback(prefix);
    }
  }

  /** With no negative straight line, the total is at least each one. */
  lemma {:induction false} SumStraightAtLeast(segments: seq<Segment>, j: nat)
    requires j < |segments|
    requires forall i :: 0 <= i < |segments| ==> Detoured(segments[i])
    ensures SumStraight(segments) >= segments[j].straight
  {
    var prefix := segments[..|segments| - 1];
    assert forall i :: 0 <= i < |prefix| ==> prefix[i] == segments[i];
    if j < |prefix| {
      SumStraightAtLeast(prefix, j);
    } else {
      SumStraightNonNegative(prefix);
    }
  }

  lemma {:induction false} SumStraightNonNegative(segments: seq<Segment>)
    requires forall i :: 0 <= i < |segments| ==> Detoured(segments[i])
    ensures SumStraight(segments) >= 0.0
  {
    if |segments| > 0 {
      var prefix := segments[..|segments| - 1];
      assert forall i :: 0 <= i < |prefix| ==> prefix[i] == segments[i];
      SumStraightNonNegative(prefix);
    }
  }

  /** The chain's second pair is CP1 to CP2, two different places. */
  lemma {:induction false} SecondLegIsLong(raceType: string, start: string, end: string)
    requires raceType in RACE_TYPES
    ensures var chain := Chain(raceType, start, end);
      |chain| > 2 && StraightLine(Position(chain[1]), Position(chain[2])) > 0.0
  {
    var chain := Chain(raceType, start, end);
    assert chain[1] == PRESET_CONTROL_POINTS[0] && chain[2] == PRESET_CONTROL_POINTS[1];
    Numerals.ValueInjective(PRESET_CONTROL_POINTS[0].lat, PRESET_CONTROL_POINTS[1].lat);
  }

  /** The walked climb is the rise along the chain's elevations. */
  lemma {:induction false} ClimbIsRise(chain: seq<ControlPoint>, n: nat, responses: nat -> ServiceOutcome)
    requires n < |chain|
    requires Segments(chain, n, responses).Success?
    ensures SumClimb(Segments(chain, n, responses).value) == Rise(Heights(chain), n)
  {
    if n > 0 {
      var segments := Segments(chain, n, responses).value;
      var earlier := Segments(chain, n - 1, responses);
      assert earlier.Success?;
      assert segments[..n - 1] == earlier.value;
      ClimbIsRise(chain, n - 1, responses);
      SegmentsEach(chain, n, responses, n - 1);
    }
  }

  /**
   * The climb a race reports depends on its type alone: 37 m for the
   * sprint and the park sprint, 70 m for the score race; only the park
   * sprint, limited to 20 m, is of high climb difficulty.
   */
  lemma {:induction false} ClimbTotals(raceType: string, start: string, end: string, responses: nat -> ServiceOutcome)
    requires ProfessionalCourse(raceType, start, end, responses).Report?
    ensures var rep := ProfessionalCourse(raceType, start, end, responses).report;
      && rep.totalClimb == (if raceType == "积分赛" then 70 else 37)
      && (rep.climbLevel == High <==> raceType == "百米定向")
  {
    var chain := Chain(raceType, start, end);
    ClimbIsRise(chain, |chain| - 1, responses);
    ChainRise(raceType, start, end);
  }

  /** The rise along each race type's chain of elevations. */
  lemma {:induction false} ChainRise(raceType: string, start: string, end: string)
    requires raceType in RACE_TYPES
    ensures var chain := Chain(raceType, start, end);
      Rise(Heights(chain), |chain| - 1) == (if raceType == "积分赛" then 70 else 37)
  {
    var chain := Chain(raceType, start, end);
    if raceType == "短距离" {
      assert Heights(chain) == [30, 30, 28, 45, 65, 35, 32, 28];
      assert Rise([30, 30, 28, 45, 65, 35, 32, 28], 7) == 37;
    } else if raceType == "百米定向" {
      assert Heights(chain) == [30, 30, 28, 45, 65, 28];
      assert Rise([30, 30, 28, 45, 65, 28], 5) == 37;
    } else {
      assert Heights(chain) == [30, 30, 28, 45, 65, 35, 32, 25, 22, 35, 55, 28];
      assert Rise([30, 30, 28, 45, 65, 35, 32, 25, 22, 35, 55, 28], 6) == 37;
      assert Rise([30, 30, 28, 45, 65, 35, 32, 25, 22, 35, 55, 28], 11) == 70;
    }
  }
}
