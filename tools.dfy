/**
 * The tool functions of app/tools.py: the launch-timeline tool, the static
 * marketing-asset and research tools, and the timeline helpers it builds on.
 * Its date helpers (`parse_launch_date`, `calculate_timeline_days`) are the
 * same code as app/utils.py's and are modelled once, in module Utils.
 */
module Tools {
  import opened Wrappers
  import opened Strings
  import opened Json
  import opened Calendar
  import opened Utils
  import opened Timeline
  import opened Templates

  /** In two literals, so that the verifier can read its first characters. */
  const PastDateMessage: string := "Launch date is in the past." + " Please provide a future date."

  /** `create_timeline(...)`: appends the phases due for `days` days to go. */
  method CreateTimeline(productName: string, productType: string, launchDate: DateTime, days: int, notes: string)
    returns (timeline: seq<Json>)
    ensures timeline == PhaseItems(Banded(days))
  {
    timeline := [];
    if days >= 14 {
      timeline := timeline + [PhaseJson(PreLaunch(days))];
    }
    if days >= 7 {
      timeline := timeline + [PhaseJson(FinalPreparation(days))];
    }
    timeline := timeline + [PhaseJson(LaunchDay)];
  }

  /**
   * `extract_milestones(timeline)`: "name - due_date" for each High-priority
   * task, phase by phase, then the first five. It raises as the Python loop
   * does on a phase or task that is not a dict or misses a key.
   */
  method ExtractMilestones(timeline: seq<Json>, show: Json -> string) returns (r: Result<seq<string>, PyError>)
    ensures r == Milestones(Array(timeline), show)
    ensures r.Success? ==> |r.value| <= 5
  {
    var milestones: seq<string> := [];
    var i := 0;
    while i < |timeline|
      invariant 0 <= i <= |timeline|
      invariant PhasesMilestones(timeline[..i], show) == Success(milestones)
    {
      var phase := timeline[i];
      var found := PhaseTasks(phase);
      if found.Failure? {
        PhaseFails(timeline, i, show);
        return Failure(found.error);
      }
      var own := ScanTasks(found.value, show);
      if own.Failure? {
        PhaseTasksFail(timeline, i, found.value, show);
        return Failure(own.error);
      }
      PhasesStep(timeline, i, show);
      milestones := milestones + own.value;
      i := i + 1;
    }
    assert timeline[..i] == timeline;
    r := Success(Take(milestones, 5));
  }

  /** The inner loop of `extract_milestones`: the lines of one phase's High-priority tasks, in order. */
  method ScanTasks(tasks: seq<Json>, show: Json -> string) returns (r: Result<seq<string>, PyError>)
    ensures r == TasksMilestones(tasks, show)
  {
    var milestones: seq<string> := [];
    var j := 0;
    while j < |tasks|
      invariant 0 <= j <= |tasks|
      invariant TasksMilestones(tasks[..j], show) == Success(milestones)
    {
      var task := tasks[j];
      if !task.Object? {
        TaskLineFails(tasks, j, show);
        return Failure(AttributeError(TypeName(task), "get"));
      }
      if Get(task.members, "priority", Null) == Str("High") {
        if !Has(task.members, "name") {
          TaskLineFails(tasks, j, show);
          return Failure(KeyError("name"));
        }
        if !Has(task.members, "due_date") {
          TaskLineFails(tasks, j, show);
          return Failure(KeyError("due_date"));
        }
        var line := Render(Get(task.members, "name", Null), show) + " - " + Render(Get(task.members, "due_date", Null), show);
        assert TaskLine(task, show) == Success([line]);
        TasksStep(tasks, j, show);
        milestones := milestones + [line];
      } else {
        assert TaskLine(task, show) == Success([]);
        TasksStep(tasks, j, show);
        assert milestones + [] == milestones;
      }
      j := j + 1;
    }
    assert tasks[..j] == tasks;
    r := Success(milestones);
  }

  /** The reply of a tool run that failed. */
  function FailureReply(error: string): (r: Members)
    ensures Keys(r) == ["success", "error"]
    ensures r[0].1 == Bool(false) && r[1].1 == Str(error)
  {
    [("success", Bool(false)), ("error", Str(error))]
  }

  /** The reply of a successful run of the timeline tool. */
  function TimelineReply(timeline: Json, days: int, display: string, milestones: seq<string>): (r: Members)
    ensures Keys(r) == ["success", "timeline", "total_days", "launch_date", "key_milestones"]
    ensures r[0].1 == Bool(true) && r[1].1 == timeline && r[2].1 == Int(days) && r[3].1 == Str(display)
    ensures r[4].1 == Strs(milestones)
  {
    [("success", Bool(true))] + TimelineData(timeline, days, display, milestones)
  }

  /**
   * What `generate_launch_timeline(...)` answers. `today` is
   * `datetime.now()`, `parse` is `dateutil.parser.parse` and `display` is
   * `format_date_for_display`.
   */
  function TimelineToolReply(launchDate: string, today: DateTime, parse: DateParser, display: DateTime -> string): Members
  {
    match ParseLaunchDate(launchDate, today, parse)
    case Failure(e) => FailureReply("Timeline generation failed: " + e.Message())
    case Success(date) =>
      var days := CalculateTimelineDays(date, today);
      if days < 0 then FailureReply(PastDateMessage)
      else TimelineReply(TimelineJson(Banded(days)), days, display(date), Take(MilestoneLines(Banded(days)), 5))
  }

  /** `generate_launch_timeline(...)`, step by step. */
  method GenerateLaunchTimeline(productName: string, productType: string, launchDate: string, notes: string,
                                today: DateTime, parse: DateParser, display: DateTime -> string, show: Json -> string)
    returns (r: Members)
    ensures r == TimelineToolReply(launchDate, today, parse, display)
  {
    var parsed := ParseLaunchDate(launchDate, today, parse);
    if parsed.Failure? {
      return FailureReply("Timeline generation failed: " + parsed.error.Message());
    }
    var date := parsed.value;
    var days := CalculateTimelineDays(date, today);
    if days < 0 {
      return FailureReply(PastDateMessage);
    }
    var timeline := CreateTimeline(productName, productType, date, days, notes);
    var milestones := ExtractMilestones(timeline, show);
    BandedMilestoneCount(days, show);
    r := TimelineReply(Array(timeline), days, display(date), milestones.value);
  }

  /**
   * A resolved date in the past, and only such a date, gives the failure
   * reply with the past-date message and no timeline.
   */
  lemma PastDateReply(launchDate: string, today: DateTime, parse: DateParser, display: DateTime -> string)
    requires ParseLaunchDate(launchDate, today, parse).Success?
    ensures var days := Day(ParseLaunchDate(launchDate, today, parse).value) - Day(today);
            days < 0 <==> TimelineToolReply(launchDate, today, parse, display) == FailureReply(PastDateMessage)
    ensures var r := TimelineToolReply(launchDate, today, parse, display);
            r[0].1 == Bool(false) ==> Keys(r) == ["success", "error"]
  {
    var r := TimelineToolReply(launchDate, today, parse, display);
    assert |Keys(r)| == |r|;
  }

  /**
   * A successful reply has the five keys, a day count that is not negative,
   * and 5, 4 or 2 key milestones according to that count; a date that does
   * not resolve gives the failure reply naming the error.
   */
  lemma TimelineToolReplyShape(launchDate: string, today: DateTime, parse: DateParser, display: DateTime -> string)
    ensures ParseLaunchDate(launchDate, today, parse).Failure? ==>
              TimelineToolReply(launchDate, today, parse, display) ==
              FailureReply("Timeline generation failed: " + ParseLaunchDate(launchDate, today, parse).error.Message())
    ensures var r := TimelineToolReply(launchDate, today, parse, display);
            r[0].1 == Bool(true) ==>
              && Keys(r) == ["success", "timeline", "total_days", "launch_date", "key_milestones"]
              && r[2].1.Int? && r[2].1.i >= 0
              && r[4].1.Array? && |r[4].1.items| == (if r[2].1.i >= 14 then 5 else if r[2].1.i >= 7 then 4 else 2)
  {
    var parsed := ParseLaunchDate(launchDate, today, parse);
    if parsed.Success? {
      var days := CalculateTimelineDays(parsed.value, today);
      if days >= 0 {
        BandedMilestoneLines(days);
      }
    }
  }

  /**
   * `generate_marketing_assets(...)`: the stock taglines, a description,
   * the stock tweets and the stock suggestions. Nothing in it can raise, so
   * its error branch is never taken.
   */
  function GenerateMarketingAssets(productName: string, pitch: string, audience: string, tone: string): (r: Members)
    ensures |r| == 5
    ensures Keys(r) == ["success"] + AssetKeys
    ensures r[0].1 == Bool(true)
    ensures r[1].1 == Strs(FallbackTaglines(productName, pitch, audience)) && |r[1].1.items| == 5
    ensures r[2].1 == Str(MarketingDescription(productName, pitch, audience))
    ensures r[3].1 == Strs(FallbackTweets(productName, pitch, audience)) && |r[3].1.items| == 3
    ensures r[4].1 == Strs(FallbackSuggestions(productName, audience)) && |r[4].1.items| == 5
  {
    var data := AssetData(FallbackTaglines(productName, pitch, audience), MarketingDescription(productName, pitch, audience),
                          FallbackTweets(productName, pitch, audience), FallbackSuggestions(productName, audience));
    KeysCons("success", Bool(true), data);
    [("success", Bool(true))] + data
  }

  /**
   * `research_top_launches(...)`: two sample launches, two hunters, five
   * insights and a five-key competitor analysis, all built from the category.
   */
  function ResearchTopLaunches(category: string, audience: string, budget: string): (r: Members)
    ensures |r| == 5
    ensures Keys(r) == ["success"] + ResearchKeys
    ensures r[0].1 == Bool(true)
    ensures r[1].1.Array? && |r[1].1.items| == 2
    ensures r[2].1.Array? && |r[2].1.items| == 2
    ensures r[3].1 == Strs(FallbackInsights(category)) && |r[3].1.items| == 5
    ensures r[4].1.Object? && |r[4].1.members| == 5
  {
    var data := ResearchData(Array(FallbackLaunches(category)), Array(FallbackHunters(category)),
                             FallbackInsights(category), Object(FallbackCompetitors()));
    KeysCons("success", Bool(true), data);
    [("success", Bool(true))] + data
  }

  /** The research tool's answer depends on the category alone. */
  lemma ResearchDependsOnCategoryOnly(category: string, audience1: string, budget1: string, audience2: string, budget2: string)
    ensures ResearchTopLaunches(category, audience1, budget1) == ResearchTopLaunches(category, audience2, budget2)
  {
  }
}
