/**
 * What the fun mode promises about its plan: the points it reports depend
 * on the theme alone, it raises exactly when one of its four lookups gets
 * a malformed payload, and with the router unavailable it still plans,
 * with a walk of no negative length.
 */
module FunProperties {
  import opened Wrappers
  import opened Routing
  import opened Fun

  /** The points a key contributes: its tasks' points, or nothing for a key the table lacks. */
  function KeyPoints(key: string): (points: nat)
    ensures key !in POI_KEYS ==> points == 0
  {
    if PoiAt(key).Some? then TaskPoints(PoiAt(key).value.tasks) else 0
  }

  /** The points of the first n stops, whatever the router answers. */
  function StopPoints(stops: seq<string>, n: nat): nat
    requires n <= |stops|
  {
    if n == 0 then 0 else StopPoints(stops, n - 1) + KeyPoints(stops[n - 1])
  }

  /** A tally that completes has the stops' points, independently of the routes. */
  lemma {:induction false} TallyPoints(stops: seq<string>, n: nat, responses: nat -> ServiceOutcome)
    requires n <= |stops|
    requires Tally(stops, n, responses).Success?
    ensures Tally(stops, n, responses).value.points == StopPoints(stops, n)
  {
    if n > 0 {
      assert Tally(stops, n - 1, responses).Success?;
      TallyPoints(stops, n - 1, responses);
    }
  }

  /** The tally raises exactly when a stop in the table gets a malformed payload. */
  lemma {:induction false} TallyRaisesIff(stops: seq<string>, n: nat, responses: nat -> ServiceOutcome)
    requires n <= |stops|
    ensures Tally(stops, n, responses).Failure? <==>
      exists j :: 0 <= j < n && stops[j] in POI_KEYS && Malformed(responses(j))
  {
    if n > 0 {
      TallyRaisesIff(stops, n - 1, responses);
      if Tally(stops, n - 1, responses).Success? && stops[n - 1] in POI_KEYS && Malformed(responses(n - 1)) {
        assert Visit(stops[n - 1], responses(n - 1)).Failure?;
      }
    }
  }

  /** Every theme visits four stops, each in the table. */
  lemma {:induction false} ThemeShape(theme: string)
    requires theme in THEMES
    ensures var stops := ThemeStops(theme).value;
      |stops| == 4 && forall j :: 0 <= j < 4 ==> stops[j] in POI_KEYS
  {
  }

  /**
   * A known theme raises exactly when one of its four lookups, made in
   * stop order, gets a malformed payload; later answers are never read.
   */
  lemma {:induction false} FunCrashIff(theme: string, responses: nat -> ServiceOutcome)
    requires theme in THEMES
    ensures FunPlanFor(theme, responses).Crashed? <==> exists j :: 0 <= j < 4 && Malformed(responses(j))
  {
    var stops := ThemeStops(theme).value;
    ThemeShape(theme);
    TallyRaisesIff(stops, 4, responses);
    if exists j :: 0 <= j < 4 && Malformed(responses(j)) {
      var j :| 0 <= j < 4 && Malformed(responses(j));
      assert stops[j] in POI_KEYS;
    }
  }

  /** The points a theme's plan reports depend on the theme alone. */
  lemma {:induction false} PlanPointsFixed(theme: string, responses: nat -> ServiceOutcome, other: nat -> ServiceOutcome)
    requires FunPlanFor(theme, responses).Plan? && FunPlanFor(theme, other).Plan?
    ensures FunPlanFor(theme, responses).plan.totalPoints == FunPlanFor(theme, other).plan.totalPoints
  {
    var stops := ThemeStops(theme).value;
    TallyPoints(stops, |stops|, responses);
    TallyPoints(stops, |stops|, other);
  }

  /** The attainable points of each theme's plan. */
  lemma {:induction false} ThemePoints(theme: string, responses: nat -> ServiceOutcome)
    requires FunPlanFor(theme, responses).Plan?
    ensures FunPlanFor(theme, responses).plan.totalPoints ==
      if theme == "樱花季" then 140
      else if theme == "校史探秘" then 165
      else if theme == "文化体验" then 140
      else if theme == "团日活动" then 170
      else if theme == "新生破冰" then 155
      else if theme == "社团活动" then 155
      else if theme == "户外拓展" then 175
      else 155
  {
    var stops := ThemeStops(theme).value;
    TallyPoints(stops, |stops|, responses);
    ThemeStopPoints(theme);
  }

  /** The points of each theme's four stops. */
  lemma {:induction false} ThemeStopPoints(theme: string)
    requires theme in THEMES
    ensures var stops := ThemeStops(theme).value;
      StopPoints(stops, |stops|) ==
        if theme == "樱花季" then 140
        else if theme == "校史探秘" then 165
        else if theme == "文化体验" then 140
        else if theme == "团日活动" then 170
        else if theme == "新生破冰" then 155
        else if theme == "社团活动" then 155
        else if theme == "户外拓展" then 175
        else 155
  {
    ThemeShape(theme);
    FourStops(ThemeStops(theme).value);
    KeyTable();
  }

  /** Four stops are worth their keys' points together. */
  lemma {:induction false} FourStops(stops: seq<string>)
    requires |stops| == 4
    ensures StopPoints(stops, 4) ==
      KeyPoints(stops[0]) + KeyPoints(stops[1]) + KeyPoints(stops[2]) + KeyPoints(stops[3])
  {
    assert StopPoints(stops, 1) == KeyPoints(stops[0]);
    assert StopPoints(stops, 2) == StopPoints(stops, 1) + KeyPoints(stops[1]);
    assert StopPoints(stops, 3) == StopPoints(stops, 2) + KeyPoints(stops[2]);
  }

  /** The points of each stop in the table. */
  lemma {:induction false} KeyTable()
    ensures KeyPoints("樱花大道") == 25 && KeyPoints("樱顶") == 30
    ensures KeyPoints("老图书馆") == 40 && KeyPoints("宋卿体育馆") == 35
    ensures KeyPoints("十八栋") == 50 && KeyPoints("万林艺术博物馆") == 45
    ensures KeyPoints("郭沫若铜像") == 40 && KeyPoints("工学部操场") == 55
  {
    TwoTasks(PoiAt("樱花大道").value.tasks);
    TwoTasks(PoiAt("樱顶").value.tasks);
    TwoTasks(PoiAt("老图书馆").value.tasks);
    TwoTasks(PoiAt("宋卿体育馆").value.tasks);
    TwoTasks(PoiAt("十八栋").value.tasks);
    TwoTasks(PoiAt("万林艺术博物馆").value.tasks);
    TwoTasks(PoiAt("郭沫若铜像").value.tasks);
    TwoTasks(PoiAt("工学部操场").value.tasks);
  }

  /** Two tasks are worth their points together. */
  lemma {:induction false} TwoTasks(tasks: seq<Task>)
    requires |tasks| == 2
    ensures TaskPoints(tasks) == tasks[0].points + tasks[1].points
  {
    assert TaskPoints(tasks[..1]) == TaskPoints(tasks[..1][..0]) + tasks[0].points;
  }

  /** The whole minutes of the route from the origin to a stop; none for a key the table lacks or a lookup that raises. */
  function RouteMinutes(key: string, outcome: ServiceOutcome): int
  {
    if PoiAt(key).None? then 0
    else
      var route := ResolveRoute(Origin(), Position(PoiAt(key).value), outcome);
      if route.Success? then Minutes(route.value.duration) else 0
  }

  /** The route minutes of the first n stops, the j-th with the j-th answer. */
  function StopMinutes(stops: seq<string>, n: nat, responses: nat -> ServiceOutcome): int
    requires n <= |stops|
  {
    if n == 0 then 0 else StopMinutes(stops, n - 1, responses) + RouteMinutes(stops[n - 1], responses(n - 1))
  }

  /** A tally that completes has walked the sum of its stops' route minutes. */
  lemma {:induction false} TallyMinutesSum(stops: seq<string>, n: nat, responses: nat -> ServiceOutcome)
    requires n <= |stops|
    requires Tally(stops, n, responses).Success?
    ensures Tally(stops, n, responses).value.minutes == StopMinutes(stops, n, responses)
  {
    if n > 0 {
      assert Tally(stops, n - 1, responses).Success?;
      TallyMinutesSum(stops, n - 1, responses);
    }
  }

  /** A plan reports as walking time the whole minutes of the routes to its four stops, in turn. */
  lemma {:induction false} PlanMinutes(theme: string, responses: nat -> ServiceOutcome)
    requires FunPlanFor(theme, responses).Plan?
    ensures var stops := ThemeStops(theme).value;
      |stops| == 4 && FunPlanFor(theme, responses).plan.totalMinutes == StopMinutes(stops, 4, responses)
  {
    ThemeShape(theme);
    TallyMinutesSum(ThemeStops(theme).value, 4, responses);
  }

  /** Every lookup the theme makes falls back to the local estimate. */
  predicate FallsBack(responses: nat -> ServiceOutcome)
  {
    forall j :: 0 <= j < 4 ==> Recoverable(responses(j))
  }

  /** With the router unavailable, a known theme still plans, and its walk takes no negative time. */
  lemma {:induction false} FunFallback(theme: string, responses: nat -> ServiceOutcome)
    requires theme in THEMES
    requires FallsBack(responses)
    ensures FunPlanFor(theme, responses).Plan?
    ensures FunPlanFor(theme, responses).plan.totalMinutes >= 0
  {
    var stops := ThemeStops(theme).value;
    ThemeShape(theme);
    FunCrashIff(theme, responses);
    TallyMinutes(stops, 4, responses);
  }

  /** Stops whose lookups all fall back add no negative minutes. */
  lemma {:induction false} TallyMinutes(stops: seq<string>, n: nat, responses: nat -> ServiceOutcome)
    requires n <= |stops|
    requires forall j :: 0 <= j < n ==> Recoverable(responses(j))
    ensures Tally(stops, n, responses).Success? ==> Tally(stops, n, responses).value.minutes >= 0
  {
    if n > 0 {
      TallyMinutes(stops, n - 1, responses);
      assert Recoverable(responses(n - 1));
    }
  }

  /** Every entry of the table has two tasks, a name that starts with "武" and holds no '·'. */
  lemma {:induction false} EntryShape(key: string)
    requires key in POI_KEYS
    ensures TasksAt(key) == 2
    ensures var name := PoiAt(key).value.name; |name| > 0 && name[0] == '武' && '·' !in name
  {
  }

  /**
   * The overview's task count as written is 0 for every theme: each stop
   * key is a bare place name, each entry's name carries the university's
   * name in front, so no entry ever matches.
   */
  lemma {:induction false} TaskCountAsWrittenIsZero(theme: string)
    requires theme in THEMES
    ensures TaskCountAsWritten(ThemeStops(theme).value) == 0
  {
    var stops := ThemeStops(theme).value;
    ThemeShape(theme);
    var pieces := Pieces(stops);
    forall j | 0 <= j < |stops|
      ensures pieces[j] == stops[j] && |stops[j]| > 0 && stops[j][0] != '武'
    {
      KeyShape(stops[j]);
    }
    assert pieces == stops;
    NoNameMatches(POI_ORDER, stops);
  }

  /** No key of the table is empty, starts with "武" or holds a '·'. */
  lemma {:induction false} KeyShape(key: string)
    requires key in POI_KEYS
    ensures |key| > 0 && key[0] != '武' && '·' !in key
  {
  }

  /** Entry names, which start with "武", match none of the given keys. */
  lemma {:induction false} NoNameMatches(keys: seq<string>, wanted: seq<string>)
    requires forall j :: 0 <= j < |wanted| ==> |wanted[j]| > 0 && wanted[j][0] != '武'
    ensures MatchedByName(keys, wanted) == 0
  {
    if |keys| > 0 {
      NoNameMatches(keys[..|keys| - 1], wanted);
      var key := keys[|keys| - 1];
      if PoiAt(key).Some? {
        EntryShape(key);
        assert PoiAt(key).value.name !in wanted;
      }
    }
  }

  /** The overview's task count as intended: every theme's four stops hold eight tasks. */
  lemma {:induction false} ThemeTaskCount(theme: string)
    requires theme in THEMES
    ensures TaskCount(ThemeStops(theme).value, 4) == 8
  {
    var stops := ThemeStops(theme).value;
    ThemeShape(theme);
    EntryShape(stops[0]);
    EntryShape(stops[1]);
    EntryShape(stops[2]);
    EntryShape(stops[3]);
    assert TaskCount(stops, 1) == 2;
    assert TaskCount(stops, 2) == 4;
    assert TaskCount(stops, 3) == 6;
  }

  /** As written, a plan reports no tasks at all, whatever the theme and the router's answers. */
  lemma {:induction false} PlanTasks(theme: string, responses: nat -> ServiceOutcome)
    requires FunPlanFor(theme, responses).Plan?
    ensures FunPlanFor(theme, responses).plan.totalTasks == 0
  {
    TaskCountAsWrittenIsZero(theme);
  }
}
