/**
 * The entry point: a request in free text is routed by keywords, either to
 * the professional course of a fixed sprint or to the fun mode with a
 * theme read from the text.
 */
module Dispatch {
  import Text
  import opened Routing
  import Course
  import CourseProperties
  import Fun
  import FunProperties

  /** Any of these words in a request asks for a race. */
  const RACE_WORDS: seq<string> := ["比赛", "专业", "赛事", "短距离", "百米定向", "积分赛"]

  /** What a request asks for: a race with its type and ends, or a fun plan of a theme. */
  datatype Intent = Race(raceType: string, start: string, end: string) | Themed(theme: string)

  /** Whether one of the words occurs in the text. */
  function AnyWord(text: string, words: seq<string>): (b: bool)
    ensures b <==> exists k :: 0 <= k < |words| && Text.Contains(text, words[k])
  {
    if |words| == 0 then false
    else AnyWord(text, words[..|words| - 1]) || Text.Contains(text, words[|words| - 1])
  }

  /**
   * The keyword reading of a request. A race word always wins and asks for
   * the sprint between the two sports grounds; otherwise "樱花" picks the
   * cherry-blossom theme before "校史" or "历史" pick the history theme,
   * and anything else gets the culture theme.
   */
  function IntentOf(input: string): (intent: Intent)
    ensures intent.Race? <==> exists k :: 0 <= k < |RACE_WORDS| && Text.Contains(input, RACE_WORDS[k])
    ensures intent.Race? ==> intent == Race("短距离", "武汉大学信息学部操场", "武汉大学文理学部操场")
    ensures intent.Race? ==> intent.raceType in Course.RACE_TYPES
    ensures intent.Themed? ==> intent.theme in Fun.THEMES
    ensures intent.Themed? ==> (intent.theme == "樱花季" <==> Text.Contains(input, "樱花"))
    ensures intent.Themed? ==>
      (intent.theme == "校史探秘" <==>
        !Text.Contains(input, "樱花") && (Text.Contains(input, "校史") || Text.Contains(input, "历史")))
    ensures intent.Themed? ==>
      (intent.theme == "文化体验" <==>
        !Text.Contains(input, "樱花") && !Text.Contains(input, "校史") && !Text.Contains(input, "历史"))
  {
    if AnyWord(input, RACE_WORDS) then Race("短距离", "武汉大学信息学部操场", "武汉大学文理学部操场")
    else if Text.Contains(input, "樱花") then Themed("樱花季")
    else if Text.Contains(input, "校史") || Text.Contains(input, "历史") then Themed("校史探秘")
    else Themed("文化体验")
  }

  /** What a request produces: a course outcome or a fun-mode outcome. */
  datatype Reply = CourseReply(course: Course.CourseOutcome) | FunReply(plan: Fun.FunOutcome)

  /** The reply to a request, given the router's answers in call order. */
  function Respond(input: string, responses: nat -> ServiceOutcome): Reply
  {
    match IntentOf(input)
    case Race(raceType, start, end) => CourseReply(Course.ProfessionalCourse(raceType, start, end, responses))
    case Themed(theme) => FunReply(Fun.FunPlanFor(theme, responses))
  }

  /** Routes the request by its keywords and runs the chosen mode. */
  method ProcessRequest(input: string, responses: nat -> ServiceOutcome) returns (reply: Reply)
    ensures reply == Respond(input, responses)
  {
    if AnyWord(input, RACE_WORDS) {
      var course := Course.ProfessionalMode("短距离", "武汉大学信息学部操场", "武汉大学文理学部操场", responses);
      return CourseReply(course);
    }
    var theme;
    if Text.Contains(input, "樱花") {
      theme := "樱花季";
    } else if Text.Contains(input, "校史") || Text.Contains(input, "历史") {
      theme := "校史探秘";
    } else {
      theme := "文化体验";
    }
    var plan := Fun.FunMode(theme, responses);
    reply := FunReply(plan);
  }

  /** A request is never turned away: the race type and the theme it picks are always known. */
  lemma {:induction false} RespondNeverRejects(input: string, responses: nat -> ServiceOutcome)
    ensures var reply := Respond(input, responses);
      && (reply.CourseReply? ==> !reply.course.Unsupported?)
      && (reply.FunReply? ==> !reply.plan.UnknownTheme?)
  {
  }

  /** Whether the reply is an exception. */
  predicate Raises(reply: Reply)
  {
    match reply
    case CourseReply(course) => course.Crashed?
    case FunReply(plan) => plan.Crashed?
  }

  /**
   * A request raises exactly when one of the lookups its mode makes gets a
   * malformed payload: the sprint makes seven, a fun plan four.
   */
  lemma {:induction false} RespondRaisesIff(input: string, responses: nat -> ServiceOutcome)
    ensures Raises(Respond(input, responses)) <==>
      exists j :: 0 <= j < (if IntentOf(input).Race? then 7 else 4) && Malformed(responses(j))
  {
    var intent := IntentOf(input);
    if intent.Race? {
      CourseProperties.CrashIff(intent.raceType, intent.start, intent.end, responses);
      assert Course.PresetCount(intent.raceType) == 6;
    } else {
      FunProperties.FunCrashIff(intent.theme, responses);
    }
  }
}
