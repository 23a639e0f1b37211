/**
 * The research agent of app/agents/research_agent.py: four model calls, in
 * the order top launches, hunters, insights, competitor analysis, each read
 * into content with the sample content of module Templates as its fallback.
 */
module Research {
  import opened Wrappers
  import opened Strings
  import opened Json
  import opened Utils
  import opened Templates
  import opened BaseAgent
  import opened Replies

  const ResearchFailed: string := "Research failed: "

  /** `_research_top_launches(category)`: the reply's "launches" entry (an empty list when missing), or the two sample launches. */
  function TopLaunches(category: string, decode: Decoder, reply: Reply): Result<Json, PyError>
  {
    var response :- InvokeLlm(reply);
    match DecodeEmbedded(response, decode)
    case Some(data) => Success(Get(data, "launches", Array([])))
    case None => Success(Array(FallbackLaunches(category)))
  }

  /** `_find_recommended_hunters(category, audience)`: the reply's "hunters" entry, or the two sample hunters. */
  function Hunters(category: string, decode: Decoder, reply: Reply): Result<Json, PyError>
  {
    var response :- InvokeLlm(reply);
    match DecodeEmbedded(response, decode)
    case Some(data) => Success(Get(data, "hunters", Array([])))
    case None => Success(Array(FallbackHunters(category)))
  }

  /** Each line stripped, in order. */
  function StrippedLines(lines: seq<string>): (r: seq<string>)
    ensures |r| == |lines|
    ensures forall k | 0 <= k < |r| :: r[k] == Strip(lines[k])
  {
    seq(|lines|, k requires 0 <= k < |lines| => Strip(lines[k]))
  }

  /** One more line read: its stripped form is kept after the bullets before it exactly when it is a bullet. */
  lemma StrippedStep(lines: seq<string>, i: nat)
    requires i < |lines|
    ensures var kept := Bullets(StrippedLines(lines)[..i]);
            var line := Strip(lines[i]);
            && (Bulleted(line) ==> Bullets(StrippedLines(lines)[..i + 1]) == kept + [line])
            && (!Bulleted(line) ==> Bullets(StrippedLines(lines)[..i + 1]) == kept)
  {
    BulletsStep(StrippedLines(lines), i);
  }

  /** `_generate_insights(...)`: the first five stripped bullet lines, or the five stock insights when there are none. */
  function Insights(category: string, reply: Reply): Result<seq<string>, PyError>
  {
    var response :- InvokeLlm(reply);
    var kept := Bullets(StrippedLines(Split(response, '\n')));
    Success(if kept != [] then Take(kept, 5) else FallbackInsights(category))
  }

  /** `_analyze_competitors(...)`: the reply's whole JSON object, unchecked, or the stock analysis. */
  function Competitors(decode: Decoder, reply: Reply): Result<Json, PyError>
  {
    var response :- InvokeLlm(reply);
    match DecodeEmbedded(response, decode)
    case Some(data) => Success(Object(data))
    case None => Success(Object(FallbackCompetitors()))
  }

  /** The data dict, or the first exception raised on the way, in the order of the calls. */
  function ResearchContent(request: Request, decode: Decoder, launchReply: Reply, hunterReply: Reply,
                           insightReply: Reply, competitorReply: Reply): Result<Members, PyError>
  {
    var category := Field(request, "product_category", "");
    var launches :- TopLaunches(category, decode, launchReply);
    var hunters :- Hunters(category, decode, hunterReply);
    var insights :- Insights(category, insightReply);
    var analysis :- Competitors(decode, competitorReply);
    Success(ResearchData(launches, hunters, insights, analysis))
  }

  /** What `process(request_data)` answers; the four replies are the model's answers to the four prompts. */
  function ResearchReply(agentType: string, request: Request, decode: Decoder, launchReply: Reply, hunterReply: Reply,
                         insightReply: Reply, competitorReply: Reply): Envelope
  {
    match ResearchContent(request, decode, launchReply, hunterReply, insightReply, competitorReply)
    case Failure(e) => Failed(agentType, ResearchFailed + e.Message())
    case Success(data) => Succeeded(agentType, data)
  }

  class ResearchAgent {
    var agentType: string

    /** `__init__`: the derived type "research", set once more explicitly. */
    constructor()
      ensures agentType == "research"
    {
      agentType := DefaultAgentType("ResearchAgent");
      agentType := "research";
    }

    /** `process(request_data)`, step by step. The audience reaches only a prompt. */
    method Process(request: Request, decode: Decoder, launchReply: Reply, hunterReply: Reply,
                   insightReply: Reply, competitorReply: Reply)
      returns (r: Envelope)
      ensures r == ResearchReply(agentType, request, decode, launchReply, hunterReply, insightReply, competitorReply)
    {
      var category := Field(request, "product_category", "");
      var audience := Field(request, "target_audience", "");
      var launches := TopLaunches(category, decode, launchReply);
      if launches.Failure? {
        return Failed(agentType, ResearchFailed + launches.error.Message());
      }
      var hunters := Hunters(category, decode, hunterReply);
      if hunters.Failure? {
        return Failed(agentType, ResearchFailed + hunters.error.Message());
      }
      var insights := GenerateInsights(category, insightReply);
      if insights.Failure? {
        return Failed(agentType, ResearchFailed + insights.error.Message());
      }
      var analysis := Competitors(decode, competitorReply);
      if analysis.Failure? {
        return Failed(agentType, ResearchFailed + analysis.error.Message());
      }
      r := Succeeded(agentType, ResearchData(launches.value, hunters.value, insights.value, analysis.value));
    }

    /** `_generate_insights(...)`: the bulleted lines of the reply, at most five, or the stock insights. */
    method GenerateInsights(category: string, reply: Reply) returns (r: Result<seq<string>, PyError>)
      ensures r == Insights(category, reply)
    {
      var response :- InvokeLlm(reply);
      var insights := ScanInsights(Split(response, '\n'));
      r := Success(if insights != [] then Take(insights, 5) else FallbackInsights(category));
    }

    /** The loop of `_generate_insights`: each line stripped, kept when it is a bullet. */
    method ScanInsights(lines: seq<string>) returns (insights: seq<string>)
      ensures insights == Bullets(StrippedLines(lines))
    {
      insights := [];
      for i := 0 to |lines|
        invariant insights == Bullets(StrippedLines(lines)[..i])
      {
        StrippedStep(lines, i);
        var line := Strip(lines[i]);
        if Bulleted(line) {
          insights := insights + [line];
        }
      }
      BulletsWhole(StrippedLines(lines));
    }
  }

  /**
   * With JSON that decodes, the launches are its "launches" entry, or an
   * empty list when it has none; without, they are the two samples, named
   * "Top {category} Tool" and "AI-Powered {category}".
   */
  lemma TopLaunchesSource(category: string, decode: Decoder, text: string)
    ensures var r := TopLaunches(category, decode, Answered(text));
            var data := DecodeEmbedded(text, decode);
            && r.Success?
            && (data.Some? ==> r.value == Get(data.value, "launches", Array([])))
            && (data.Some? && !Has(data.value, "launches") ==> r.value == Array([]))
            && (data.None? ==>
                  && r.value.Array? && |r.value.items| == 2
                  && r.value.items[0].Object? && Get(r.value.items[0].members, "name", Null) == Str("Top " + category + " Tool")
                  && r.value.items[1].Object? && Get(r.value.items[1].members, "name", Null) == Str("AI-Powered " + category))
  {
    FallbackLaunchNames(category);
  }

  /** With JSON that decodes, the hunters are its "hunters" entry; without, the two samples, the first fitting the category. */
  lemma HuntersSource(category: string, decode: Decoder, text: string)
    ensures var r := Hunters(category, decode, Answered(text));
            var data := DecodeEmbedded(text, decode);
            && r.Success?
            && (data.Some? ==> r.value == Get(data.value, "hunters", Array([])))
            && (data.None? ==>
                  && r.value.Array? && |r.value.items| == 2
                  && r.value.items[0].Object?
                  && Get(r.value.items[0].members, "why_fit", Null) == Str("Specializes in " + category + " launches"))
  {
    FallbackHunterFit(category);
  }

  /**
   * With JSON that decodes, the analysis is that whole object, whatever
   * keys it has; without, the stock five-key analysis, market saturation
   * "Medium".
   */
  lemma CompetitorsSource(decode: Decoder, text: string)
    ensures var r := Competitors(decode, Answered(text));
            var data := DecodeEmbedded(text, decode);
            && r.Success? && r.value.Object?
            && (data.Some? ==> r.value.members == data.value)
            && (data.None? ==>
                  && Keys(r.value.members) ==
                     ["market_saturation", "pricing_strategies", "key_differentiators", "market_gaps", "positioning_strategy"]
                  && Get(r.value.members, "market_saturation", Null) == Str("Medium"))
  {
  }

  /** When no line of the reply strips to a bullet, the insights are the five stock ones, the first naming the category. */
  lemma InsightsFallback(category: string, text: string)
    requires forall j | 0 <= j < |Split(text, '\n')| :: !Bulleted(Strip(Split(text, '\n')[j]))
    ensures var r := Insights(category, Answered(text));
            && r == Success(FallbackInsights(category))
            && |r.value| == 5
            && Contains(r.value[0], category)
  {
    NoBulletFound(text);
    FallbackInsightsQuote(category);
  }

  /** When no line strips to a bullet, no stripped line is a bullet. */
  lemma NoBulletFound(text: string)
    requires forall j | 0 <= j < |Split(text, '\n')| :: !Bulleted(Strip(Split(text, '\n')[j]))
    ensures Bullets(StrippedLines(Split(text, '\n'))) == []
  {
    NoBullets(StrippedLines(Split(text, '\n')));
  }

  /**
   * Otherwise they are the first five stripped bullet lines, in the reply's
   * order: each one opening with '-', '•' or a digit, with no whitespace
   * at either end.
   */
  lemma InsightsKept(category: string, text: string)
    requires exists j | 0 <= j < |Split(text, '\n')| :: Bulleted(Strip(Split(text, '\n')[j]))
    ensures var r := Insights(category, Answered(text));
            && r == Success(Take(Bullets(StrippedLines(Split(text, '\n'))), 5))
            && 1 <= |r.value| <= 5
            && forall k | 0 <= k < |r.value| :: Bulleted(r.value[k]) && Stripped(r.value[k])
  {
    var kept := Bullets(StrippedLines(Split(text, '\n')));
    BulletFound(text);
    InsightsAreBullets(category, text);
    StrippedBullets(text);
    FirstFive(kept);
  }

  /** A line that strips to a bullet leaves a bullet among the stripped lines. */
  lemma BulletFound(text: string)
    requires exists j | 0 <= j < |Split(text, '\n')| :: Bulleted(Strip(Split(text, '\n')[j]))
    ensures Bullets(StrippedLines(Split(text, '\n'))) != []
  {
    var lines := StrippedLines(Split(text, '\n'));
    var j :| 0 <= j < |Split(text, '\n')| && Bulleted(Strip(Split(text, '\n')[j]));
    assert Bulleted(lines[j]);
    NoBullets(lines);
  }

  /** The first five of a non-empty run of stripped bullets are one to five stripped bullets. */
  lemma FirstFive(kept: seq<string>)
    requires kept != []
    requires forall k | 0 <= k < |kept| :: Bulleted(kept[k]) && Stripped(kept[k])
    ensures var r := Take(kept, 5);
            1 <= |r| <= 5 && forall k | 0 <= k < |r| :: Bulleted(r[k]) && Stripped(r[k])
  {
    var r := Take(kept, 5);
    assert forall k | 0 <= k < |r| :: r[k] == kept[k];
  }

  /** With a bullet among the stripped lines, the insights are the first five of them. */
  lemma InsightsAreBullets(category: string, text: string)
    requires Bullets(StrippedLines(Split(text, '\n'))) != []
    ensures Insights(category, Answered(text)) == Success(Take(Bullets(StrippedLines(Split(text, '\n'))), 5))
  {
  }

  /** The bullets among stripped lines are stripped. */
  lemma StrippedBullets(text: string)
    ensures var kept := Bullets(StrippedLines(Split(text, '\n')));
            forall k | 0 <= k < |kept| :: Stripped(kept[k])
  {
    var stripped := StrippedLines(Split(text, '\n'));
    var kept := Bullets(stripped);
    forall k | 0 <= k < |kept| ensures Stripped(kept[k]) {
      assert kept[k] in stripped;
    }
  }

  /** An answered insight call never yields an empty list. */
  lemma InsightsNeverEmpty(category: string, text: string)
    ensures var r := Insights(category, Answered(text));
            r.Success? && 1 <= |r.value| <= 5
  {
    if exists j | 0 <= j < |Split(text, '\n')| :: Bulleted(Strip(Split(text, '\n')[j])) {
      InsightsKept(category, text);
    } else {
      InsightsFallback(category, text);
    }
  }

  /**
   * The answer succeeds exactly when all four model calls answer; then its
   * data holds the four research keys. Otherwise it carries no data and the
   * error of the first failed call, after "Research failed: ".
   */
  lemma ResearchEnvelope(agentType: string, request: Request, decode: Decoder, launchReply: Reply, hunterReply: Reply,
                         insightReply: Reply, competitorReply: Reply)
    ensures var r := ResearchReply(agentType, request, decode, launchReply, hunterReply, insightReply, competitorReply);
            && r.agentType == agentType
            && (r.success <==> launchReply.Answered? && hunterReply.Answered? && insightReply.Answered? && competitorReply.Answered?)
            && (r.success ==> r.data.Some? && r.error.None?)
            && (r.success ==> Keys(r.data.value) == ResearchKeys)
            && (!r.success ==> r.data.None? && r.error.Some?)
            && (launchReply.Raised? ==> r.error == Some(ResearchFailed + ("LLM invocation failed: " + launchReply.error)))
  {
    var category := Field(request, "product_category", "");
    var l := TopLaunches(category, decode, launchReply);
    var h := Hunters(category, decode, hunterReply);
    var i := Insights(category, insightReply);
    var a := Competitors(decode, competitorReply);
    assert l.Success? <==> launchReply.Answered?;
    assert h.Success? <==> hunterReply.Answered?;
    assert i.Success? <==> insightReply.Answered?;
    assert a.Success? <==> competitorReply.Answered?;
    if l.Success? && h.Success? && i.Success? && a.Success? {
      assert ResearchContent(request, decode, launchReply, hunterReply, insightReply, competitorReply) ==
             Success(ResearchData(l.value, h.value, i.value, a.value));
    }
  }
}
