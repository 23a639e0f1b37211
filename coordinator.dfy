/**
 * The agent coordinator of app/coordinator.py: the three routing tokens, the
 * copy of an agent's answer into an `AgentResponse`, and the list of
 * available agents.
 */
module Coordinator {
  import opened Wrappers
  import opened Json
  import opened Calendar
  import opened Utils
  import opened BaseAgent
  import Planning
  import AssetPrep
  import Research

  datatype AgentKind = PlanningKind | AssetPrepKind | ResearchKind

  /** The agent a routing token selects; the comparison is exact. */
  function Dispatch(agentType: string): (k: Option<AgentKind>)
    ensures k == Some(PlanningKind) <==> agentType == "planning"
    ensures k == Some(AssetPrepKind) <==> agentType == "asset_prep"
    ensures k == Some(ResearchKind) <==> agentType == "research"
    ensures k.None? <==> agentType !in ["planning", "asset_prep", "research"]
  {
    if agentType == "planning" then Some(PlanningKind)
    else if agentType == "asset_prep" then Some(AssetPrepKind)
    else if agentType == "research" then Some(ResearchKind)
    else None
  }

  /**
   * `route_request(agent_type, request_data)`. `run(k)` is what the `process`
   * of agent `k` gives: its answer, or the text of an exception it lets
   * escape.
   */
  function RouteRequest(agentType: string, run: AgentKind -> Result<Envelope, string>): (r: Envelope)
    ensures r.agentType == agentType
    ensures r.success <==> Dispatch(agentType).Some? && run(Dispatch(agentType).value).Success? &&
                           run(Dispatch(agentType).value).value.success
    ensures Dispatch(agentType).None? ==> r.data.None? && r.error == Some("Unknown agent type: " + agentType)
  {
    match Dispatch(agentType)
    case None => Envelope(false, None, Some("Unknown agent type: " + agentType), agentType)
    case Some(kind) =>
      match run(kind)
      case Success(result) => Envelope(result.success, result.data, result.error, agentType)
      case Failure(message) => Envelope(false, None, Some("Agent execution failed: " + message), agentType)
  }

  /** An unknown token is answered without running any agent: the answer is the same whatever the agents would do. */
  lemma UnknownToken(agentType: string, run: AgentKind -> Result<Envelope, string>)
    requires agentType !in ["planning", "asset_prep", "research"]
    ensures RouteRequest(agentType, run) == Envelope(false, None, Some("Unknown agent type: " + agentType), agentType)
  {
  }

  /**
   * A known token runs exactly the agent it names: the answer depends on
   * that agent's result only, copies its success, data and error, and
   * carries the token as its type.
   */
  lemma KnownToken(agentType: string, run: AgentKind -> Result<Envelope, string>, other: AgentKind -> Result<Envelope, string>)
    requires Dispatch(agentType).Some?
    ensures var kind := Dispatch(agentType).value;
            run(kind) == other(kind) ==> RouteRequest(agentType, run) == RouteRequest(agentType, other)
    ensures var kind := Dispatch(agentType).value;
            var r := RouteRequest(agentType, run);
            && r.agentType == agentType
            && (run(kind).Success? ==>
                  r.success == run(kind).value.success && r.data == run(kind).value.data && r.error == run(kind).value.error)
            && (run(kind).Failure? ==>
                  !r.success && r.data.None? && r.error == Some("Agent execution failed: " + run(kind).error))
  {
  }

  /** What the model answers to the calls of one request, in call order (the planning agent makes one call). */
  datatype ModelAnswers = ModelAnswers(first: Reply, second: Reply, third: Reply, fourth: Reply)

  /** What an agent gets from outside besides the request: the clock, the parsers, the renderers and the model. */
  datatype Services = Services(
    today: DateTime,
    parse: DateParser,
    display: DateTime -> string,
    decode: Decoder,
    show: Json -> string,
    answers: ModelAnswers)

  /** `process(request_data)` of the agent of kind `kind`, with the type its constructor sets. */
  function Process(kind: AgentKind, request: Request, services: Services): Envelope
  {
    var a := services.answers;
    match kind
    case PlanningKind =>
      Planning.PlanningReply("planning", request, services.today, services.parse, services.display,
                             services.decode, a.first, services.show)
    case AssetPrepKind =>
      AssetPrep.AssetReply("asset_prep", request, services.decode, a.first, a.second, a.third, a.fourth)
    case ResearchKind =>
      Research.ResearchReply("research", request, services.decode, a.first, a.second, a.third, a.fourth)
  }

  /** The three agents: each `process` catches every exception itself, so none escapes. */
  function Agents(request: Request, services: Services): AgentKind -> Result<Envelope, string>
  {
    kind => Success(Process(kind, request, services))
  }

  /**
   * Routed through the coordinator, a known token gives the agent's own
   * answer, and never "Agent execution failed: ..."; each agent's own type
   * is the very token that selects it.
   */
  lemma RoutedAnswer(agentType: string, request: Request, services: Services)
    requires Dispatch(agentType).Some?
    ensures RouteRequest(agentType, Agents(request, services)) == Process(Dispatch(agentType).value, request, services)
  {
    var kind := Dispatch(agentType).value;
    var e := Process(kind, request, services);
    match kind
    case PlanningKind =>
      Planning.PlanningEnvelope("planning", request, services.today, services.parse, services.display,
                                services.decode, services.answers.first, services.show);
    case AssetPrepKind =>
      var a := services.answers;
      AssetPrep.AssetEnvelope("asset_prep", request, services.decode, a.first, a.second, a.third, a.fourth);
    case ResearchKind =>
      var a := services.answers;
      Research.ResearchEnvelope("research", request, services.decode, a.first, a.second, a.third, a.fourth);
  }

  /** `get_available_agents()`: each routing token with its description. */
  function AvailableAgents(): (r: seq<(string, string)>)
    ensures |r| == 3
    ensures forall t :: Dispatch(t).Some? <==> t in [r[0].0, r[1].0, r[2].0]
  {
    [("planning", "Generate launch timeline and checklist"),
     ("asset_prep", "Create taglines, descriptions, and tweets"),
     ("research", "Find top launches and recommend hunters")]
  }
}
