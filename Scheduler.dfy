/** `ScheduleGenerator`: recovery of a JSON object from the model's text, the
    dispatch between the timetable and lesson-plan templates, and the result
    envelope of `generate_schedule` and `refine_schedule`. The JSON parser, the
    JSON serialiser and the prompt-model-parser chain are foreign and given as
    functions. Two copies of this class exist in the repository, line for line the
    same in these methods; this module models both. */
module Scheduler {
  import opened Json

  // ---------------------------------------------------------------------------
  // `str.find`, `str.rfind` and slicing
  // ---------------------------------------------------------------------------

  /** `s.find(c)`: the first index of `c`, or -1. */
  function Find(s: string, c: char): (i: int)
    ensures i == -1 <==> c !in s
    ensures i != -1 ==> 0 <= i < |s| && s[i] == c && c !in s[..i]
  {
    if s == [] then -1
    else if s[0] == c then 0
    else
      var k := Find(s[1..], c);
      assert s[1..][..if k == -1 then 0 else k] == s[1..1 + if k == -1 then 0 else k];
      if k == -1 then -1 else k + 1
  }

  /** `s.rfind(c)`: the last index of `c`, or -1. */
  function RFind(s: string, c: char): (i: int)
    ensures i == -1 <==> c !in s
    ensures i != -1 ==> 0 <= i < |s| && s[i] == c && c !in s[i + 1..]
  {
    if s == [] then -1
    else if s[|s| - 1] == c then |s| - 1
    else
      var k := RFind(s[..|s| - 1], c);
      assert s == s[..|s| - 1] + [s[|s| - 1]];
      assert k != -1 ==> s[k + 1..] == s[..|s| - 1][k + 1..] + [s[|s| - 1]];
      k
  }

  /** Python's `s[i:j]` for indices within the string: empty when `j <= i`. */
  function Slice(s: string, i: nat, j: nat): (r: string)
    requires i <= |s| && j <= |s|
    ensures |r| == (if i < j then j - i else 0)
    ensures forall k :: 0 <= k < |r| ==> r[k] == s[i + k]
  {
    if i < j then s[i..j] else ""
  }

  // ---------------------------------------------------------------------------
  // `_clean_json_response`
  // ---------------------------------------------------------------------------

  /** The dict returned when nothing in the response parses. */
  function ParseFailure(response: string): (j: Json)
    ensures j.JObject? && Keys(j.fields) == ["error", "raw_response"]
    ensures j.fields[0].1 == JString("Failed to parse response") && j.fields[1].1 == JString(response)
  {
    JObject([("error", JString("Failed to parse response")), ("raw_response", JString(response))])
  }

  /** The text between the first '{' and the last '}', both included, or None when
      either brace is missing. */
  function BraceSlice(response: string): (r: Option<string>)
    ensures r.None? <==> '{' !in response || '}' !in response
    ensures r.Some? ==> (r.value == [] <==> RFind(response, '}') < Find(response, '{'))
    ensures r.Some? && Find(response, '{') <= RFind(response, '}') ==>
      r.value == response[Find(response, '{')..RFind(response, '}') + 1]
    ensures r.Some? && r.value != [] ==> r.value[0] == '{' && r.value[|r.value| - 1] == '}'
    ensures r.Some? ==> exists start :: OccursAt(response, r.value, start)
    ensures r.Some? && r.value != [] ==> forall start :: OccursAt(response, r.value, start) ==>
      '{' !in response[..start] && '}' !in response[start + |r.value|..]
  {
    var start := Find(response, '{');
    var end := RFind(response, '}');
    if start == -1 || end == -1 then None
    else
      var r := Slice(response, start, end + 1);
      assert r != [] ==> OccursAt(response, r, start);
      assert r == [] ==> OccursAt(response, r, 0);
      if start <= end then
        BraceSliceOccursOnce(response, start, end, r);
        Some(r)
      else
        Some(r)
  }

  /** A slice from the first '{' to the last '}' occurs in the response only at its
      own start. */
  lemma BraceSliceOccursOnce(response: string, start: nat, end: nat, r: string)
    requires start <= end < |response| && r == response[start..end + 1]
    requires response[start] == '{' && '{' !in response[..start]
    requires response[end] == '}' && '}' !in response[end + 1..]
    ensures forall st :: OccursAt(response, r, st) ==> st == start
  {
    forall st | OccursAt(response, r, st)
      ensures st == start
    {
      assert response[st] == r[0];
      assert response[st + |r| - 1] == r[|r| - 1];
    }
  }

  /** `_clean_json_response`: the whole response when it parses, else the brace slice
      when that parses, else the failure dict carrying the response unchanged. */
  function CleanJsonResponse(parse: string -> Option<Json>, response: string): (j: Json)
    ensures parse(response).Some? ==> j == parse(response).value
    ensures parse(response).None? && BraceSlice(response).Some? && parse(BraceSlice(response).value).Some? ==>
      j == parse(BraceSlice(response).value).value
    ensures parse(response).None? && (BraceSlice(response).None? || parse(BraceSlice(response).value).None?) ==>
      j == ParseFailure(response)
  {
    match parse(response)
    case Some(direct) => direct
    case None =>
      match BraceSlice(response)
      case Some(inner) =>
        (match parse(inner)
         case Some(extracted) => extracted
         case None => ParseFailure(response))
      case None => ParseFailure(response)
  }

  /** When the last '}' comes before the first '{', the slice is empty and only a
      parser that accepts "" saves the response from the failure dict. */
  lemma ClosingBeforeOpeningGivesEmptySlice(parse: string -> Option<Json>, response: string)
    requires '{' in response && '}' in response
    requires RFind(response, '}') < Find(response, '{')
    requires parse(response).None? && parse("").None?
    ensures BraceSlice(response) == Some("")
    ensures CleanJsonResponse(parse, response) == ParseFailure(response)
  {
  }

  /** Whatever the parser, the result is the parse of the whole response, or the parse
      of a piece of the response, or the failure dict holding the response verbatim. */
  lemma CleanJsonResponseOrigin(parse: string -> Option<Json>, response: string)
    ensures var j := CleanJsonResponse(parse, response);
      || Some(j) == parse(response)
      || (BraceSlice(response).Some? && Contains(response, BraceSlice(response).value)
          && Some(j) == parse(BraceSlice(response).value))
      || (j == ParseFailure(response) && j.fields[1] == ("raw_response", JString(response)))
  {
    if BraceSlice(response).Some? {
      ContainsAt(response, BraceSlice(response).value);
    }
  }

  // ---------------------------------------------------------------------------
  // `generate_schedule` and `refine_schedule`
  // ---------------------------------------------------------------------------

  /** `schedule_type.split("_")[0]`: the text before the first underscore. */
  function PlanType(scheduleType: string): (p: string)
    ensures p <= scheduleType && '_' !in p
    ensures |p| < |scheduleType| ==> scheduleType[|p|] == '_'
  {
    var k := Find(scheduleType, '_');
    if k == -1 then scheduleType else scheduleType[..k]
  }

  /** `json.dumps(preferences) if preferences else "None"`. */
  function PreferencesText(preferences: Json, dumps: Json -> string): (t: string)
    ensures Truthy(preferences) ==> t == dumps(preferences)
    ensures !Truthy(preferences) ==> t == "None"
  {
    if Truthy(preferences) then dumps(preferences) else "None"
  }

  /** The variables a chain is invoked with. */
  datatype ChainInput =
    | ScheduleInput(template: string, input: string, preferences: string, planType: string)
    | RefineInput(currentSchedule: string, feedback: string)

  /** What `chain.invoke` did: raised with a message, or returned the parser's value. */
  datatype ChainOutcome = ChainRaised(message: string) | ChainReturned(value: Json)

  /** The result dict: `{"status": "success", "schedule": ...}` or
      `{"status": "error", "message": ..., "raw_response": ...}`, the last key only
      for a non-dict reply. */
  datatype Envelope = Success(schedule: Json) | Failure(message: string, rawResponse: Option<Json>)

  function EnvelopeJson(e: Envelope): (j: Json)
    ensures j.JObject? && |j.fields| >= 2 && j.fields[0] == ("status", JString(if e.Success? then "success" else "error"))
    ensures e.Success? ==> Keys(j.fields) == ["status", "schedule"] && j.fields[1].1 == e.schedule
    ensures e.Failure? && e.rawResponse.None? ==>
      Keys(j.fields) == ["status", "message"] && j.fields[1].1 == JString(e.message)
    ensures e.Failure? && e.rawResponse.Some? ==>
      && Keys(j.fields) == ["status", "message", "raw_response"]
      && j.fields[1].1 == JString(e.message) && j.fields[2].1 == e.rawResponse.value
  {
    match e
    case Success(schedule) => JObject([("status", JString("success")), ("schedule", schedule)])
    case Failure(message, None) => JObject([("status", JString("error")), ("message", JString(message))])
    case Failure(message, Some(raw)) =>
      JObject([("status", JString("error")), ("message", JString(message)), ("raw_response", raw)])
  }

  const NonDictMessage: string := "AI returned non-dict response"
  const GenerationFailedPrefix: string := "AI generation failed: "
  const RefinementFailedPrefix: string := "Refinement failed: "

  /** The envelope around one chain call; `prefix` begins the message of an exception. */
  function Wrap(outcome: ChainOutcome, prefix: string): (e: Envelope)
    ensures e.Success? <==> outcome.ChainReturned? && IsDict(outcome.value)
    ensures e.Success? ==> e.schedule == outcome.value
    ensures outcome.ChainReturned? && !IsDict(outcome.value) ==> e == Failure(NonDictMessage, Some(outcome.value))
    ensures outcome.ChainRaised? ==> e == Failure(prefix + outcome.message, None)
  {
    match outcome
    case ChainRaised(message) => Failure(prefix + message, None)
    case ChainReturned(value) =>
      if IsDict(value) then Success(value) else Failure(NonDictMessage, Some(value))
  }

  /** The keys of the request dict; None when the key is absent. */
  datatype ScheduleRequest = ScheduleRequest(scheduleType: Option<string>, inputContent: Option<string>, preferences: Option<Json>)

  /** `generate_schedule` either returns an envelope or lets a KeyError for a missing
      request key escape (those lookups are outside the try block). */
  datatype Outcome = Returned(envelope: Envelope) | KeyErrorRaised(key: string)

  /** The text of the UnboundLocalError raised when `plan_type` is read on the
      timetable path (CPython 3.11 wording). */
  const UnboundPlanTypeMessage: string := "cannot access local variable 'plan_type' where it is not associated with a value"

  /** `generate_schedule`. */
  function GenerateSchedule(request: ScheduleRequest, dumps: Json -> string, invoke: ChainInput -> ChainOutcome): (o: Outcome)
    ensures request.scheduleType.None? ==> o == KeyErrorRaised("schedule_type")
    ensures request.scheduleType.Some? && request.inputContent.None? ==> o == KeyErrorRaised("input_content")
    ensures request.scheduleType.Some? && request.inputContent.Some? ==> o.Returned?
  {
    if request.scheduleType.None? then KeyErrorRaised("schedule_type")
    else if request.inputContent.None? then KeyErrorRaised("input_content")
    else
      var scheduleType := request.scheduleType.value;
      var preferences := PreferencesText(request.preferences.GetOr(JObject([])), dumps);
      if Contains(scheduleType, "timetable") then
        if Contains(scheduleType, "lesson_plan") then
          Returned(Failure(GenerationFailedPrefix + UnboundPlanTypeMessage, None))
        else
          Returned(Wrap(invoke(ScheduleInput("weekly_timetable", request.inputContent.value, preferences, "")),
                        GenerationFailedPrefix))
      else
        var planType := PlanType(scheduleType);
        var input := "Plan Type: " + planType + "\nRequirements: " + request.inputContent.value;
        Returned(Wrap(invoke(ScheduleInput("lesson_plan", input, preferences,
                                           if Contains(scheduleType, "lesson_plan") then planType else "")),
                      GenerationFailedPrefix))
  }

  /** A timetable type sends the input unchanged to the weekly_timetable template,
      with no plan type. */
  lemma TimetableDispatch(scheduleType: string, input: string, preferences: Option<Json>,
                          dumps: Json -> string, invoke: ChainInput -> ChainOutcome)
    requires Contains(scheduleType, "timetable") && !Contains(scheduleType, "lesson_plan")
    ensures GenerateSchedule(ScheduleRequest(Some(scheduleType), Some(input), preferences), dumps, invoke)
         == Returned(Wrap(invoke(ScheduleInput("weekly_timetable", input,
                                               PreferencesText(preferences.GetOr(JObject([])), dumps), "")),
                          GenerationFailedPrefix))
  {
  }

  /** Any other type uses the lesson_plan template with the plan type prefixed to the
      input; the plan type itself is passed only when the type names a lesson plan. */
  lemma LessonPlanDispatch(scheduleType: string, input: string, preferences: Option<Json>,
                           dumps: Json -> string, invoke: ChainInput -> ChainOutcome)
    requires !Contains(scheduleType, "timetable")
    ensures GenerateSchedule(ScheduleRequest(Some(scheduleType), Some(input), preferences), dumps, invoke)
         == Returned(Wrap(invoke(ScheduleInput("lesson_plan",
                                               "Plan Type: " + PlanType(scheduleType) + "\nRequirements: " + input,
                                               PreferencesText(preferences.GetOr(JObject([])), dumps),
                                               if Contains(scheduleType, "lesson_plan") then PlanType(scheduleType) else "")),
                          GenerationFailedPrefix))
  {
  }

  /** A type naming both a timetable and a lesson plan reads `plan_type` before it is
      assigned: the model is never called and the envelope reports the error. */
  lemma TimetableLessonPlanFails(scheduleType: string, input: string, preferences: Option<Json>,
                                 dumps: Json -> string, invoke: ChainInput -> ChainOutcome)
    requires Contains(scheduleType, "timetable") && Contains(scheduleType, "lesson_plan")
    ensures GenerateSchedule(ScheduleRequest(Some(scheduleType), Some(input), preferences), dumps, invoke)
         == Returned(Failure(GenerationFailedPrefix + UnboundPlanTypeMessage, None))
  {
  }

  lemma TimetableLessonPlanNamesBoth()
    ensures Contains("timetable_lesson_plan", "timetable") && Contains("timetable_lesson_plan", "lesson_plan")
  {
    var s := "timetable_lesson_plan";
    assert OccursAt(s, "timetable", 0);
    assert OccursAt(s, "lesson_plan", 10);
    ContainsAt(s, "timetable");
    ContainsAt(s, "lesson_plan");
  }

  /** The plan type of "{p}_{rest}" is p when p has no underscore, e.g. "daily" for
      "daily_lesson_plan"; a type without an underscore is its own plan type. */
  lemma PlanTypeOfPrefixed(p: string, rest: string)
    requires '_' !in p
    ensures PlanType(p + "_" + rest) == p
    ensures PlanType(p) == p
  {
    var s := p + "_" + rest;
    var i := Find(s, '_');
    assert s[|p|] == '_';
    assert s[..|p|] == p;
  }

  /** Preferences that are absent or empty are sent as the text "None". */
  lemma EmptyPreferencesAreNone(dumps: Json -> string)
    ensures PreferencesText(JObject([]), dumps) == "None"
    ensures PreferencesText(None.GetOr(JObject([])), dumps) == "None"
  {
  }

  /** `refine_schedule`: the current schedule as JSON text and the feedback, with the
      same envelope and the prefix "Refinement failed: ". */
  function RefineSchedule(current: Json, feedback: string, dumps: Json -> string, invoke: ChainInput -> ChainOutcome): (e: Envelope)
    ensures var outcome := invoke(RefineInput(dumps(current), feedback));
      && (e.Success? <==> outcome.ChainReturned? && IsDict(outcome.value))
      && (e.Success? ==> e.schedule == outcome.value)
      && (outcome.ChainReturned? && !IsDict(outcome.value) ==> e == Failure(NonDictMessage, Some(outcome.value)))
      && (outcome.ChainRaised? ==> e == Failure(RefinementFailedPrefix + outcome.message, None))
  {
    Wrap(invoke(RefineInput(dumps(current), feedback)), RefinementFailedPrefix)
  }
}
