/**
 * The team-building ("fun") mode: a theme picks four points of interest;
 * for each one the walking route from the campus origin is looked up and
 * its duration counted in whole minutes, and the points of the stop's
 * tasks are added up.
 */
module Fun {
  import opened Wrappers
  import opened Failures
  import Text
  import Numerals
  import opened Geometry
  import opened Routing

  /** A task at a point of interest; only its points enter the tally. */
  datatype Task = Task(name: string, points: nat)

  /** A point of interest: its name, its location as two decimal literals, and its tasks. */
  datatype Poi = Poi(name: string, lat: Numerals.Fixed, lng: Numerals.Fixed, tasks: seq<Task>)

  /** The points of interest by key; None for a key the table lacks. */
  function PoiAt(key: string): (p: Option<Poi>)
    ensures p.Some? <==> key in POI_KEYS
  {
    if key == "樱花大道" then
      Some(Poi("武汉大学樱花大道", Numerals.Fixed(305900, 4), Numerals.Fixed(1143020, 4),
        [Task("樱花创意合影", 10), Task("樱花诗词接龙", 15)]))
    else if key == "樱顶" then
      Some(Poi("武汉大学樱顶", Numerals.Fixed(305910, 4), Numerals.Fixed(1143000, 4),
        [Task("校训解密", 10), Task("校园俯瞰拼图", 20)]))
    else if key == "老图书馆" then
      Some(Poi("武汉大学老图书馆", Numerals.Fixed(305910, 4), Numerals.Fixed(1143000, 4),
        [Task("身体拼字", 15), Task("历史问答", 25)]))
    else if key == "宋卿体育馆" then
      Some(Poi("武汉大学宋卿体育馆", Numerals.Fixed(305920, 4), Numerals.Fixed(1143030, 4),
        [Task("两人三足挑战", 20), Task("篮球投篮比赛", 15)]))
    else if key == "十八栋" then
      Some(Poi("武汉大学十八栋", Numerals.Fixed(305940, 4), Numerals.Fixed(1142980, 4),
        [Task("老建筑探索", 30), Task("自然寻宝", 20)]))
    else if key == "万林艺术博物馆" then
      Some(Poi("武汉大学万林艺术博物馆", Numerals.Fixed(305890, 4), Numerals.Fixed(1143010, 4),
        [Task("传统与现代对比", 20), Task("建筑创意素描", 25)]))
    else if key == "郭沫若铜像" then
      Some(Poi("武汉大学郭沫若铜像", Numerals.Fixed(305885, 4), Numerals.Fixed(1142990, 4),
        [Task("即兴短剧表演", 25), Task("诗歌朗诵", 15)]))
    else if key == "工学部操场" then
      Some(Poi("武汉大学工学部操场", Numerals.Fixed(305930, 4), Numerals.Fixed(1143070, 4),
        [Task("拔河比赛", 30), Task("接力赛跑", 25)]))
    else None
  }

  /** The keys of the table; the same keys as POI_ORDER (PoiOrderIsKeys). */
  const POI_KEYS: set<string> :=
    {"樱花大道", "樱顶", "老图书馆", "宋卿体育馆", "十八栋", "万林艺术博物馆", "郭沫若铜像", "工学部操场"}

  const THEMES: set<string> :=
    {"樱花季", "校史探秘", "文化体验", "团日活动", "新生破冰", "社团活动", "户外拓展", "文化传承"}

  /** The four stops of each theme, in visiting order; None for an unknown theme. */
  function ThemeStops(theme: string): (stops: Option<seq<string>>)
    ensures stops.Some? <==> theme in THEMES
  {
    if theme == "樱花季" then Some(["樱花大道", "樱顶", "老图书馆", "万林艺术博物馆"])
    else if theme == "校史探秘" then Some(["老图书馆", "宋卿体育馆", "十八栋", "郭沫若铜像"])
    else if theme == "文化体验" then Some(["万林艺术博物馆", "郭沫若铜像", "樱花大道", "樱顶"])
    else if theme == "团日活动" then Some(["老图书馆", "宋卿体育馆", "郭沫若铜像", "工学部操场"])
    else if theme == "新生破冰" then Some(["樱花大道", "樱顶", "工学部操场", "万林艺术博物馆"])
    else if theme == "社团活动" then Some(["万林艺术博物馆", "十八栋", "宋卿体育馆", "樱花大道"])
    else if theme == "户外拓展" then Some(["工学部操场", "十八栋", "樱顶", "老图书馆"])
    else if theme == "文化传承" then Some(["郭沫若铜像", "老图书馆", "樱顶", "万林艺术博物馆"])
    else None
  }

  /** Where every route of the mode starts: 30.514438, 114.371233. */
  const ORIGIN_LAT: Numerals.Fixed := Numerals.Fixed(30514438, 6)
  const ORIGIN_LNG: Numerals.Fixed := Numerals.Fixed(114371233, 6)

  function Origin(): Coord
  {
    LiteralCoord(ORIGIN_LAT, ORIGIN_LNG)
  }

  /** Where a point of interest lies: the coordinate of its two literals. */
  function Position(poi: Poi): Coord
  {
    LiteralCoord(poi.lat, poi.lng)
  }

  /** The points of a list of tasks. */
  function TaskPoints(tasks: seq<Task>): nat
  {
    if |tasks| == 0 then 0 else TaskPoints(tasks[..|tasks| - 1]) + tasks[|tasks| - 1].points
  }

  /** The table's keys in the order its entries are iterated. */
  const POI_ORDER: seq<string> :=
    ["樱花大道", "樱顶", "老图书馆", "宋卿体育馆", "十八栋", "万林艺术博物馆", "郭沫若铜像", "工学部操场"]

  /** The iteration order lists exactly the table's keys. */
  lemma PoiOrderIsKeys()
    ensures forall key :: key in POI_ORDER <==> key in POI_KEYS
  {
  }

  /** The number of tasks at a key; none for a key the table lacks. */
  function TasksAt(key: string): nat
  {
    if PoiAt(key).Some? then |PoiAt(key).value.tasks| else 0
  }

  /** The part of a name after its last '·', the whole name when it has none. */
  function LastPiece(name: string): (piece: string)
    ensures '·' !in name ==> piece == name
  {
    var parts := Text.Split(name, '·');
    parts[|parts| - 1]
  }

  /** The last pieces of the stops' keys. */
  function Pieces(stops: seq<string>): (pieces: seq<string>)
    ensures |pieces| == |stops|
    ensures forall j :: 0 <= j < |stops| ==> pieces[j] == LastPiece(stops[j])
  {
    seq(|stops|, j requires 0 <= j < |stops| => LastPiece(stops[j]))
  }

  /** How many tasks the entries among `keys` hold, counting those whose name's last piece is one of `wanted`. */
  function MatchedByName(keys: seq<string>, wanted: seq<string>): nat
  {
    if |keys| == 0 then 0
    else
      var key := keys[|keys| - 1];
      MatchedByName(keys[..|keys| - 1], wanted) +
        (if PoiAt(key).Some? && LastPiece(PoiAt(key).value.name) in wanted then TasksAt(key) else 0)
  }

  /**
   * The overview's task count as the code computes it: over the whole
   * table, each entry's tasks when its name matches a stop key, both
   * compared after their last '·'.
   */
  function TaskCountAsWritten(stops: seq<string>): nat
  {
    MatchedByName(POI_ORDER, Pieces(stops))
  }

  /** The overview's task count as intended: how many tasks the first n stops hold. */
  function TaskCount(stops: seq<string>, n: nat): nat
    requires n <= |stops|
  {
    if n == 0 then 0 else TaskCount(stops, n - 1) + TasksAt(stops[n - 1])
  }

  /** Whole minutes in `seconds`, truncated toward zero as Python's int() does. */
  function Minutes(seconds: real): (m: int)
    ensures seconds >= 0.0 ==> 0 <= m && m as real <= seconds / 60.0 < m as real + 1.0
    ensures seconds < 0.0 ==> m <= 0 && m as real - 1.0 < seconds / 60.0 <= m as real
  {
    if seconds >= 0.0 then (seconds / 60.0).Floor else -((-seconds / 60.0).Floor)
  }

  /** The running totals of the mode: walking minutes and task points. */
  datatype Totals = Totals(minutes: int, points: nat)

  /**
   * What one stop adds: the minutes of the route from the origin and the
   * points of its tasks, or what the lookup raises; a key the table lacks
   * adds nothing and makes no lookup.
   */
  function Visit(key: string, outcome: ServiceOutcome): (r: Result<Totals, Raised>)
    ensures r.Failure? <==> key in POI_KEYS && Malformed(outcome)
    ensures r.Success? && key in POI_KEYS ==> r.value.points == TaskPoints(PoiAt(key).value.tasks)
    ensures r.Success? && key in POI_KEYS ==>
      r.value.minutes == Minutes(ResolveRoute(Origin(), Position(PoiAt(key).value), outcome).value.duration)
    ensures key !in POI_KEYS ==> r == Success(Totals(0, 0))
  {
    match PoiAt(key)
    case None => Success(Totals(0, 0))
    case Some(poi) =>
      var route := ResolveRoute(Origin(), Position(poi), outcome);
      if route.Failure? then Failure(route.error)
      else Success(Totals(Minutes(route.value.duration), TaskPoints(poi.tasks)))
  }

  /**
   * The totals over the first n stops, the j-th looked up with the j-th
   * outcome; the first exception ends the tally. A stop outside the table
   * makes no call, so indexing by stop rather than by call differs only for
   * such a stop, and every theme's stops are all in the table (ThemeShape).
   */
  function Tally(stops: seq<string>, n: nat, responses: nat -> ServiceOutcome): Result<Totals, Raised>
    requires n <= |stops|
  {
    if n == 0 then
      Success(Totals(0, 0))
    else
      var earlier := Tally(stops, n - 1, responses);
      if earlier.Failure? then
        earlier
      else
        var visit := Visit(stops[n - 1], responses(n - 1));
        if visit.Failure? then
          Failure(visit.error)
        else
          Success(Totals(earlier.value.minutes + visit.value.minutes, earlier.value.points + visit.value.points))
  }

  /** The figures the plan reports: its stops, walking minutes, attainable points and number of tasks, as the overview counts them. */
  datatype FunPlan = FunPlan(theme: string, stops: seq<string>, totalMinutes: int, totalPoints: nat, totalTasks: nat)

  datatype FunOutcome = UnknownTheme | Crashed(error: Raised) | Plan(plan: FunPlan)

  /** What the fun mode produces for a theme and the router's answers, one per stop. */
  function FunPlanFor(theme: string, responses: nat -> ServiceOutcome): (r: FunOutcome)
    ensures r.UnknownTheme? <==> theme !in THEMES
  {
    match ThemeStops(theme)
    case None => UnknownTheme
    case Some(stops) =>
      var tally := Tally(stops, |stops|, responses);
      if tally.Failure? then Crashed(tally.error)
      else Plan(FunPlan(theme, stops, tally.value.minutes, tally.value.points, TaskCountAsWritten(stops)))
  }

  /** The lookup as the mode makes it: origin and stop written as "lat,lng" text. */
  method LookUp(poi: Poi, outcome: ServiceOutcome) returns (route: Result<RouteInfo, Raised>)
    ensures route == ResolveRoute(Origin(), Position(poi), outcome)
  {
    route := GetRoute(LiteralPlace(ORIGIN_LAT, ORIGIN_LNG), LiteralPlace(poi.lat, poi.lng), outcome);
  }

  /** Adds up the points of a stop's tasks, one task at a time. */
  method SumTaskPoints(tasks: seq<Task>) returns (sum: nat)
    ensures sum == TaskPoints(tasks)
  {
    sum := 0;
    var j := 0;
    while j < |tasks|
      invariant 0 <= j <= |tasks|
      invariant sum == TaskPoints(tasks[..j])
    {
      assert tasks[..j + 1][..j] == tasks[..j];
      sum := sum + tasks[j].points;
      j := j + 1;
    }
    assert tasks[..j] == tasks;
  }

  /** Looks up the theme's stops and tallies them; an unknown theme is rejected before any lookup. */
  method FunMode(theme: string, responses: nat -> ServiceOutcome) returns (r: FunOutcome)
    ensures r == FunPlanFor(theme, responses)
  {
    var selected := ThemeStops(theme);
    if selected.None? {
      return UnknownTheme;
    }
    var stops := selected.value;
    var tally := TallyStops(stops, responses);
    if tally.Failure? {
      return Crashed(tally.error);
    }
    r := Plan(FunPlan(theme, stops, tally.value.minutes, tally.value.points, TaskCountAsWritten(stops)));
  }

  /**
   * For each stop, in order, adds what visiting it adds; the first
   * exception ends the tally.
   */
  method TallyStops(stops: seq<string>, responses: nat -> ServiceOutcome) returns (tally: Result<Totals, Raised>)
    ensures tally == Tally(stops, |stops|, responses)
  {
    var totalDuration := 0;
    var totalPoints: nat := 0;
    var i := 0;
    while i < |stops|
      invariant 0 <= i <= |stops|
      invariant Tally(stops, i, responses) == Success(Totals(totalDuration, totalPoints))
    {
      var visit := VisitStop(stops[i], responses(i));
      if visit.Failure? {
        TallyFails(stops, i, responses, visit.error);
        return Failure(visit.error);
      }
      TallyExtends(stops, i, responses, totalDuration, totalPoints, visit.value.minutes, visit.value.points);
      totalDuration := totalDuration + visit.value.minutes;
      totalPoints := totalPoints + visit.value.points;
      i := i + 1;
    }
    tally := Success(Totals(totalDuration, totalPoints));
  }

  /**
   * One stop: a key in the table has its route from the origin looked up,
   * its minutes truncated and its tasks' points added; any other key adds
   * nothing.
   */
  method VisitStop(key: string, outcome: ServiceOutcome) returns (visit: Result<Totals, Raised>)
    ensures visit == Visit(key, outcome)
  {
    var poi := PoiAt(key);
    if poi.None? {
      return Success(Totals(0, 0));
    }
    var route := LookUp(poi.value, outcome);
    if route.Failure? {
      return Failure(route.error);
    }
    var duration := Minutes(route.value.duration);
    var points := SumTaskPoints(poi.value.tasks);
    visit := Success(Totals(duration, points));
  }

  /** One more stop adds its minutes and points to the tally. */
  lemma {:induction false} TallyExtends(stops: seq<string>, i: nat, responses: nat -> ServiceOutcome,
    minutes: int, points: nat, more: int, gained: nat)
    requires i < |stops|
    requires Tally(stops, i, responses) == Success(Totals(minutes, points))
    requires Visit(stops[i], responses(i)) == Success(Totals(more, gained))
    ensures Tally(stops, i + 1, responses) == Success(Totals(minutes + more, points + gained))
  {
  }

  /** A stop whose visit raises ends the whole tally with that exception. */
  lemma {:induction false} TallyFails(stops: seq<string>, i: nat, responses: nat -> ServiceOutcome, error: Raised)
    requires i < |stops|
    requires Tally(stops, i, responses).Success?
    requires Visit(stops[i], responses(i)) == Failure(error)
    ensures Failure(error) == Tally(stops, |stops|, responses)
  {
    assert Tally(stops, i + 1, responses) == Failure(error);
    TallyStopAtFailure(stops, i + 1, |stops|, responses);
  }

  /** Once the tally raises, tallying further stops raises the same exception. */
  lemma {:induction false} TallyStopAtFailure(stops: seq<string>, i: nat, n: nat, responses: nat -> ServiceOutcome)
    requires i <= n <= |stops|
    requires Tally(stops, i, responses).Failure?
    ensures Tally(stops, n, responses) == Tally(stops, i, responses)
    decreases n - i
  {
    if i < n {
      TallyStopAtFailure(stops, i, n - 1, responses);
    }
  }
}
