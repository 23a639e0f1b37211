/**
 * The planning agent of app/agents/planning_agent.py: it resolves the launch
 * date, asks the model for a timeline (falling back on the date-band
 * timeline when the reply holds no JSON that decodes), and reads the key
 * milestones off whatever timeline it got.
 */
module Planning {
  import opened Wrappers
  import opened Strings
  import opened Json
  import opened Calendar
  import opened Utils
  import opened Timeline
  import opened BaseAgent
  import Tools

  const PlanningFailed: string := "Planning failed: "

  /**
   * `_generate_timeline(...)`: the "timeline" entry of the reply's JSON
   * (an empty list when it has none), or the date-band timeline when there
   * is no JSON that decodes. A failed model call raises: it happens before
   * the `try`.
   */
  function GeneratedTimeline(days: int, decode: Decoder, reply: Reply): Result<Json, PyError>
  {
    var response :- InvokeLlm(reply);
    match DecodeEmbedded(response, decode)
    case Some(data) => Success(Get(data, "timeline", Array([])))
    case None => Success(TimelineJson(Banded(days)))
  }

  /**
   * What `process(request_data)` answers. `today` is `datetime.now()`,
   * `parse` is `dateutil.parser.parse`, `display` is
   * `format_date_for_display`, `decode` is `json.loads` and `reply` is what
   * the model answers to the one prompt.
   */
  function PlanningReply(agentType: string, request: Request, today: DateTime, parse: DateParser,
                         display: DateTime -> string, decode: Decoder, reply: Reply, show: Json -> string): Envelope
  {
    match ParseLaunchDate(Field(request, "launch_date", ""), today, parse)
    case Failure(e) => Failed(agentType, PlanningFailed + e.Message())
    case Success(date) =>
      var days := CalculateTimelineDays(date, today);
      if days < 0 then Failed(agentType, Tools.PastDateMessage)
      else
        match GeneratedTimeline(days, decode, reply)
        case Failure(e) => Failed(agentType, PlanningFailed + e.Message())
        case Success(timeline) =>
          match Milestones(timeline, show)
          case Failure(e) => Failed(agentType, PlanningFailed + e.Message())
          case Success(milestones) => Succeeded(agentType, TimelineData(timeline, days, display(date), milestones))
  }

  class PlanningAgent {
    var agentType: string

    /** `__init__`: the derived type "planning", set once more explicitly. */
    constructor()
      ensures agentType == "planning"
    {
      agentType := DefaultAgentType("PlanningAgent");
      agentType := "planning";
    }

    /** `process(request_data)`, step by step. */
    method Process(request: Request, today: DateTime, parse: DateParser, display: DateTime -> string,
                   decode: Decoder, reply: Reply, show: Json -> string)
      returns (r: Envelope)
      ensures r == PlanningReply(agentType, request, today, parse, display, decode, reply, show)
    {
      var productName := Field(request, "product_name", "");
      var productType := Field(request, "product_type", "");
      var launchDateInput := Field(request, "launch_date", "");
      var additionalNotes := Field(request, "additional_notes", "");
      var parsed := ParseLaunchDate(launchDateInput, today, parse);
      if parsed.Failure? {
        return Failed(agentType, PlanningFailed + parsed.error.Message());
      }
      var launchDate := parsed.value;
      var days := CalculateTimelineDays(launchDate, today);
      if days < 0 {
        return Failed(agentType, Tools.PastDateMessage);
      }
      var generated := GenerateTimeline(productName, productType, launchDate, days, additionalNotes, decode, reply);
      if generated.Failure? {
        return Failed(agentType, PlanningFailed + generated.error.Message());
      }
      var timeline := generated.value;
      var milestones := ExtractMilestones(timeline, show);
      if milestones.Failure? {
        return Failed(agentType, PlanningFailed + milestones.error.Message());
      }
      r := Succeeded(agentType, TimelineData(timeline, days, display(launchDate), milestones.value));
    }

    /** `_generate_timeline(...)`: the prompt's inputs reach only the prompt. */
    method GenerateTimeline(productName: string, productType: string, launchDate: DateTime, days: int,
                            notes: string, decode: Decoder, reply: Reply)
      returns (r: Result<Json, PyError>)
      ensures r == GeneratedTimeline(days, decode, reply)
    {
      var response :- InvokeLlm(reply);
      var data := DecodeEmbedded(response, decode);
      if data.Some? {
        return Success(Get(data.value, "timeline", Array([])));
      }
      var fallback := CreateFallbackTimeline(days);
      r := Success(Array(fallback));
    }

    /** `_create_fallback_timeline(days)`: the very timeline `create_timeline` of app/tools.py builds. */
    method CreateFallbackTimeline(days: int) returns (timeline: seq<Json>)
      ensures timeline == PhaseItems(Banded(days))
    {
      timeline := [];
      if days >= 14 {
        timeline := timeline + [PhaseJson(PreLaunch(days))];
      }
      if days >= 7 {
        timeline := timeline + [PhaseJson(FinalPreparation(days))];
      }
      timeline := timeline + [PhaseJson(LaunchDay)];
    }

    /**
     * `_extract_milestones(timeline)`: the loop of `extract_milestones` in
     * app/tools.py, over whatever the timeline value iterates to.
     */
    method ExtractMilestones(timeline: Json, show: Json -> string) returns (r: Result<seq<string>, PyError>)
      ensures r == Milestones(timeline, show)
      ensures r.Success? ==> |r.value| <= 5
    {
      var phases :- Iterate(timeline);
      r := Tools.ExtractMilestones(phases, show);
    }
  }

  /** Every answer carries the agent's type; a failure carries no data and a message. */
  lemma PlanningEnvelope(agentType: string, request: Request, today: DateTime, parse: DateParser,
                         display: DateTime -> string, decode: Decoder, reply: Reply, show: Json -> string)
    ensures var r := PlanningReply(agentType, request, today, parse, display, decode, reply, show);
            && r.agentType == agentType
            && (r.success <==> r.data.Some?)
            && (r.success <==> r.error.None?)
  {
  }

  /**
   * A launch date that does not resolve gives "Planning failed: " and the
   * error's text; one that resolves into the past, and only such a date,
   * gives the past-date message.
   */
  lemma PlanningDateErrors(agentType: string, request: Request, today: DateTime, parse: DateParser,
                           display: DateTime -> string, decode: Decoder, reply: Reply, show: Json -> string)
    ensures var parsed := ParseLaunchDate(Field(request, "launch_date", ""), today, parse);
            parsed.Failure? ==>
              PlanningReply(agentType, request, today, parse, display, decode, reply, show) ==
              Failed(agentType, PlanningFailed + parsed.error.Message())
    ensures var parsed := ParseLaunchDate(Field(request, "launch_date", ""), today, parse);
            parsed.Success? ==>
              (Day(parsed.value) - Day(today) < 0 <==>
               PlanningReply(agentType, request, today, parse, display, decode, reply, show) ==
               Failed(agentType, Tools.PastDateMessage))
  {
    var parsed := ParseLaunchDate(Field(request, "launch_date", ""), today, parse);
    if parsed.Success? {
      var days := CalculateTimelineDays(parsed.value, today);
      var g := GeneratedTimeline(days, decode, reply);
      if g.Failure? {
        FailureIsNotPastDate(g.error.Message());
      } else {
        var m := Milestones(g.value, show);
        if m.Failure? {
          FailureIsNotPastDate(m.error.Message());
        }
      }
    }
  }

  /** No "Planning failed: " message is the past-date message. */
  lemma FailureIsNotPastDate(text: string)
    ensures PlanningFailed + text != Tools.PastDateMessage
  {
    assert (PlanningFailed + text)[0] == PlanningFailed[0] == 'P';
    assert Tools.PastDateMessage[0] == "Launch date is in the past."[0] == 'L';
  }

  /**
   * A failed model call is not answered with the fallback timeline: the
   * answer is the failure "Planning failed: LLM invocation failed: ...".
   */
  lemma ModelFailureIsNoFallback(agentType: string, request: Request, today: DateTime, parse: DateParser,
                                 display: DateTime -> string, decode: Decoder, error: string, show: Json -> string)
    requires ParseLaunchDate(Field(request, "launch_date", ""), today, parse).Success?
    requires Day(ParseLaunchDate(Field(request, "launch_date", ""), today, parse).value) >= Day(today)
    ensures PlanningReply(agentType, request, today, parse, display, decode, Raised(error), show) ==
            Failed(agentType, PlanningFailed + ("LLM invocation failed: " + error))
  {
  }

  /**
   * A successful answer holds exactly the four timeline keys, a day count
   * that is not negative and at most five milestones.
   */
  lemma PlanningSuccessShape(agentType: string, request: Request, today: DateTime, parse: DateParser,
                             display: DateTime -> string, decode: Decoder, reply: Reply, show: Json -> string)
    ensures var r := PlanningReply(agentType, request, today, parse, display, decode, reply, show);
            r.success ==>
              && r.data.Some?
              && Keys(r.data.value) == ["timeline", "total_days", "launch_date", "key_milestones"]
              && r.data.value[1].1.Int? && r.data.value[1].1.i >= 0
              && r.data.value[3].1.Array? && |r.data.value[3].1.items| <= 5
  {
    var parsed := ParseLaunchDate(Field(request, "launch_date", ""), today, parse);
    if parsed.Success? {
      var days := CalculateTimelineDays(parsed.value, today);
      var g := GeneratedTimeline(days, decode, reply);
      if days >= 0 && g.Success? {
        var m := Milestones(g.value, show);
        if m.Success? {
          assert |Take(PhasesMilestones(Iterate(g.value).value, show).value, 5)| <= 5;
        }
      }
    }
  }

  /**
   * When the reply's JSON decodes, its "timeline" entry (or an empty list)
   * is the timeline, and the fallback is not used; when it does not, the
   * timeline is the date-band one, with its 5, 4 or 2 milestones.
   */
  lemma PlanningTimelineSource(agentType: string, request: Request, today: DateTime, parse: DateParser,
                               display: DateTime -> string, decode: Decoder, text: string, show: Json -> string)
    requires ParseLaunchDate(Field(request, "launch_date", ""), today, parse).Success?
    requires Day(ParseLaunchDate(Field(request, "launch_date", ""), today, parse).value) >= Day(today)
    ensures var r := PlanningReply(agentType, request, today, parse, display, decode, Answered(text), show);
            var data := DecodeEmbedded(text, decode);
            && (data.Some? && r.success ==> r.data.value[0].1 == Get(data.value, "timeline", Array([])))
            && (data.None? ==>
                  var days := Day(ParseLaunchDate(Field(request, "launch_date", ""), today, parse).value) - Day(today);
                  && r.success
                  && r.data.value[0].1 == TimelineJson(Banded(days))
                  && |r.data.value[3].1.items| == (if days >= 14 then 5 else if days >= 7 then 4 else 2))
  {
    var date := ParseLaunchDate(Field(request, "launch_date", ""), today, parse).value;
    BandedMilestoneCount(CalculateTimelineDays(date, today), show);
  }
}
