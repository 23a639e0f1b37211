# Product Hunt launch assistant — a verified model of its core

This project models the core of the Product Hunt launch assistant in Dafny and proves properties of the model. The core is:

- the three agents that answer a launch request, and the coordinator that routes a request to one of them by a token:
  - planning: a dated launch timeline and its key milestones;
  - asset preparation: taglines, a description, tweets and suggestions;
  - research: top launches, hunters, insights and a competitor analysis.
- the tool functions that build the same answers without a model;
- the helpers the agents and tools share: launch-date parsing, counting days, cleaning text, and cutting JSON out of a model reply;
- the memory hooks. One adds remembered context to the newest user message. Another saves the last exchange as a memory event. There is also the seeding event and the summary of what is remembered about a user;
- the two catalogue tools: return policies and product information.

## How the model is organised

There is one module per source file:

| module | file |
|---|---|
| `Utils` | app/utils.py |
| `Tools` | app/tools.py |
| `Coordinator` | app/coordinator.py |
| `BaseAgent` | app/agents/base_agent.py |
| `Planning` | app/agents/planning_agent.py |
| `AssetPrep` | app/agents/asset_prep_agent.py |
| `Research` | app/agents/research_agent.py |
| `Memory` | project/src/helpers/memory.py |
| `ProductTools` | project/src/tools/product_tools.py |

Three modules hold what several files share:

- `Timeline`: the date-band timeline. Both `create_timeline` and `_create_fallback_timeline` build it, and two `extract_milestones` loops read it.
- `Templates`: the stock content of the agents and the tools.
- `Replies`: how a plain-text reply is read into bullet lines.

Four more model Python itself:

- `Strings`: the `str` methods used;
- `Json`: decoded JSON values, `dict.get`, iteration and `str()` of exceptions;
- `Calendar`: `datetime` as microseconds from 0001-01-01, with `timedelta` overflow;
- `Wrappers`: `Option` and `Result`.

The styles follow the source:

- Pure code is written as functions with lemmas.
- Loops become methods with loop invariants. Each is proved equal to a specification function:
  - `ExtractMilestones` and `ScanTasks`;
  - the bullet scans `ScanInsights` and `ScanSuggestions`;
  - `ExtractStructuredData`;
  - the memory loops `CollectTexts`, `GetUserMemorySummary`, `RetrieveProductContext` and `SaveLaunchInteraction`.
- Objects are classes:
  - the agents, whose `agent_type` field is set by their constructors;
  - the memory hooks;
  - the agent whose message list the context hook rewrites in place.

Everything outside the program is a parameter:

- the model's reply to each call (`Reply`: its text, or the text of the exception it raised);
- `datetime.now()` (`today`);
- `dateutil.parser.parse` (`parse`);
- `json.loads` on the `{...}` slice (`decode`);
- `format_date_for_display` (`display`);
- `str()` of a JSON container (`show`);
- the memory client's `retrieve_memories` (`retrieve`).

Exceptions are values of `Json.PyError`. Each is carried in a `Result` to the `try` that catches it, so the error strings of the agents and tools are modelled exactly.

app/tools.py carries its own `parse_launch_date` and `calculate_timeline_days` (app/tools.py:217-248). Their code is the same as app/utils.py:55-88, so `Utils.ParseLaunchDate` and `Utils.CalculateTimelineDays` model both files.

## Model

| member | source | states |
|---|---|---|
| `Utils.DaysAhead` | app/utils.py:63-65 | The days to the target weekday are 1 to 7, and that many days after today is the target weekday. |
| `Utils.NextWeekday` | app/utils.py:61-66 | If "next Tuesday" resolves, it is a Tuesday 1 to 7 days after today. |
| `Utils.ParseLaunchDate` | app/utils.py:55-81 | "next" plus "tuesday" gives a Tuesday 1 to 7 days ahead. "next" plus "friday" gives a Friday 1 to 7 days ahead. These two branches fail only by overflow. Otherwise the date parser's answer wins. A digit string the parser rejects means that many days from today. The "Could not parse date" ValueError comes exactly in the remaining case. |
| `Calendar.AddDays` | app/utils.py:66-80 | `today + timedelta(days=n)` succeeds exactly when n is within timedelta's range and the sum within datetime's. It then lands n calendar days later at the same time of day. Otherwise it raises OverflowError. |
| `Utils.CalculateTimelineDays` | app/utils.py:84-88 | The count is the launch's calendar day minus today's calendar day; the time of day is cut off. |
| `Utils.TimelineDaysIgnoreTime` | app/utils.py:86-88 | Two moments of the same day give the same count, and a day counts 0 to itself. |
| `Utils.RelativeDatesAreAhead` | app/utils.py:60-72 | A resolved "next Tuesday" or "next Friday" is 1 to 7 days ahead. |
| `Utils.NextTuesdayFromWednesday` | app/utils.py:61-66 | "next Tuesday" asked on a Wednesday is 6 days ahead. |
| `Utils.CollapseSpacesEnds` | app/utils.py:99 | Collapsing whitespace keeps a string empty or non-empty. It keeps whether the string starts with whitespace, and a string that ends without whitespace still does. |
| `Utils.CollapseSpacesSingle` | app/utils.py:99 | After collapsing, the only whitespace is single plain spaces. |
| `Utils.CollapseStripped` | app/utils.py:99 | Collapsing a stripped string gives whitespace normal form: no space at either end, and never two spaces in a row. |
| `Utils.CollapseKeepsNoMarkdown` | app/utils.py:99 | Collapsing whitespace adds no markdown character. |
| `Utils.CollapseSingleSpaced` | app/utils.py:99 | A single-spaced string collapses to itself. |
| `Utils.StripKeepsNoMarkdown` | app/utils.py:99 | Stripping adds no markdown character. |
| `Utils.RemoveMarkdown` | app/utils.py:101 | The result has no `*`, `_` or backtick, and is no longer than the input. A string without them is unchanged. `RemoveMarkdownAppend` and `RemoveMarkdownChar` pin its content down. |
| `Utils.RemoveMarkdownAppend` | app/utils.py:101 | The deletion goes character by character: the two parts of a string are cleaned separately and the results put together in order. |
| `Utils.RemoveMarkdownChar` | app/utils.py:101 | A `*`, `_` or backtick is deleted, and any other character is kept. |
| `Utils.CollapseKeepsContent` | app/utils.py:99 | Collapsing whitespace keeps every character that is not whitespace, in order. |
| `Utils.FiltersCommute` | app/utils.py:99-101 | Deleting markdown and dropping whitespace give the same result in either order. |
| `Utils.CleanText` | app/utils.py:96-102 | A cleaned text has no markdown character and is no longer than the input. Input without markdown comes out in whitespace normal form. `CleanTextKeepsContent` gives what it keeps. |
| `Utils.CleanTextKeepsContent` | app/utils.py:96-102 | Apart from whitespace, the cleaned text holds exactly the input's characters that are not markdown, in order. |
| `Utils.CleanTextFixesNormalized` | app/utils.py:96-102 | Cleaning a text already in normal form without markdown changes nothing. |
| `Utils.CleanTextIdempotent` | app/utils.py:96-102 | On input without markdown, cleaning twice is the same as cleaning once. |
| `Utils.CleanTextCanLeaveSpace` | app/utils.py:96-102 | Markdown is deleted after whitespace is collapsed, so "* a" cleans to " a", and " a" cleans to "a". Cleaning is therefore not idempotent on markdown input. |
| `Utils.JsonSlice` | app/utils.py:109 | The greedy `\{.*\}` match exists exactly when some '{' comes before some '}'. It then runs from the first '{' to the last '}'. |
| `Utils.ExtractJsonFromResponse` | app/utils.py:105-116 | The result is the decoded slice. It is `{"content": response}` when there is no slice or the slice does not decode. |
| `Coordinator.Dispatch` | app/coordinator.py:23-29 | Each of "planning", "asset_prep" and "research" selects its own agent, and any other token selects none. The comparison is exact. |
| `Coordinator.RouteRequest` | app/coordinator.py:17-48 | The answer always carries the token it was routed by. It succeeds exactly when the token names an agent whose run returns a successful answer. An unknown token gets no data and "Unknown agent type: {token}". `UnknownToken`, `KnownToken` and `RoutedAnswer` give the rest. |
| `Coordinator.UnknownToken` | app/coordinator.py:29-34 | An unknown token gets "Unknown agent type: {token}" under that token, and no agent runs. |
| `Coordinator.KnownToken` | app/coordinator.py:22-48 | A known token gives an answer that depends only on the selected agent's result. It copies that result's success, data and error under the token. An exception escaping the agent becomes "Agent execution failed: {e}". |
| `Coordinator.RoutedAnswer` | app/coordinator.py:17-48 | The agents catch their own errors, so for a known token the routed answer is exactly the selected agent's own answer. |
| `Coordinator.AvailableAgents` | app/coordinator.py:50-56 | There are three agents, and their tokens are exactly those `route_request` accepts. |
| `BaseAgent.DefaultAgentType` | app/agents/base_agent.py:13 | The type derived from a class name is no longer than the name. `DefaultTypeOfAgentClass` gives its content. |
| `BaseAgent.DefaultTypeOfAgentClass` | app/agents/base_agent.py:13 | Any class named N + "Agent" derives N lower-cased, provided no other "agent" occurs before the suffix. |
| `BaseAgent.PlanningResearchTypesDerived` | app/agents/base_agent.py:13 | "PlanningAgent" derives "planning" and "ResearchAgent" derives "research". |
| `BaseAgent.AssetPrepTypeDerived` | app/agents/base_agent.py:13 | "AssetPrepAgent" derives "assetprep", not the routing token "asset_prep". |
| `BaseAgent.InvokeLlm` | app/agents/base_agent.py:20-25 | The call succeeds exactly when the model answers, and gives its text. Any other outcome is an exception reading "LLM invocation failed: {e}". |
| `BaseAgent.FormatResponse` | app/agents/base_agent.py:27-36 | The envelope carries the given success, data and error under the agent's type. |
| `BaseAgent.AsDict` | app/agents/base_agent.py:31-36 | The dict has the keys success, data, error and agent_type, in that order. A missing data or error is None. |
| `BaseAgent.FillWith` | app/agents/base_agent.py:50-52 | Existing entries stay as and where they were. Every expected key ends up present. Entries are appended only for keys that were missing, each key once, with the filler value. |
| `BaseAgent.FillPresent` | app/agents/base_agent.py:50-52 | Expected keys that are all present already leave the dict unchanged. |
| `BaseAgent.FillIdempotent` | app/agents/base_agent.py:50-52 | Filling twice is the same as filling once. |
| `BaseAgent.GetFilled` | app/agents/base_agent.py:50-52 | A key already present keeps its value. A missing expected key reads as the filler. |
| `BaseAgent.StructuredDataFallback` | app/agents/base_agent.py:54-58 | With no JSON that decodes, the result has exactly the expected keys, once each, each mapped to the whole reply. |
| `BaseAgent.ExtractStructuredData` | app/agents/base_agent.py:38-58 | Filling the decoded dict key by key gives the specification `StructuredData`. |
| `Planning.PlanningAgent.constructor` | app/agents/planning_agent.py:15-17 | The agent's type is "planning". |
| `Planning.PlanningAgent.Process` | app/agents/planning_agent.py:19-62 | The step-by-step run gives the answer `PlanningReply` specifies. |
| `Planning.PlanningAgent.GenerateTimeline` | app/agents/planning_agent.py:64-133 | The method gives the timeline `GeneratedTimeline` specifies. That is the reply's "timeline" entry, or an empty list if the entry is missing. With no JSON that decodes, it is the date-band timeline. A failed model call raises. |
| `Planning.PlanningAgent.CreateFallbackTimeline` | app/agents/planning_agent.py:135-207 | The fallback is the date-band timeline of `Timeline.Banded`, the same one `create_timeline` builds. |
| `Planning.PlanningAgent.ExtractMilestones` | app/agents/planning_agent.py:209-216 | The milestones are those `Timeline.Milestones` specifies, never more than five. |
| `Planning.PlanningEnvelope` | app/agents/planning_agent.py:19-62 | Every answer carries the agent's type. It succeeds exactly when it has data, and exactly when it has no error. |
| `Planning.PlanningDateErrors` | app/agents/planning_agent.py:27-35 | A date that does not resolve gives "Planning failed: {e}". A resolved date gets the past-date message exactly when it lies in the past. |
| `Planning.FailureIsNotPastDate` | app/agents/planning_agent.py:59-62 | No "Planning failed: ..." message reads as the past-date message. |
| `Planning.ModelFailureIsNoFallback` | app/agents/planning_agent.py:118-133 | The model call sits outside the `try`, so a failed call fails the request with "Planning failed: LLM invocation failed: {e}". It does not give the fallback timeline. |
| `Planning.PlanningSuccessShape` | app/agents/planning_agent.py:49-57 | A success holds the keys timeline, total_days, launch_date and key_milestones, in that order. The day count is not negative, and there are at most five milestones. |
| `Planning.PlanningTimelineSource` | app/agents/planning_agent.py:121-133 | With JSON that decodes, a successful answer's timeline is its "timeline" entry. Without, it is the date-band timeline, with 5, 4 or 2 milestones by the day count. |
| `AssetPrep.CleanedLines` | app/agents/asset_prep_agent.py:205-207 | The result has one cleaned line per reply line, in order. |
| `AssetPrep.CleanedStep` | app/agents/asset_prep_agent.py:206-211 | Each line read is kept after the bullets found before it exactly when it cleans to a bullet. |
| `AssetPrep.CleanedItems` | app/agents/asset_prep_agent.py:90 | The comprehension succeeds exactly when the entry iterates to strings only. It then gives each item cleaned, in order. |
| `AssetPrep.CleanedList` | app/agents/asset_prep_agent.py:87-92 | A listed entry gives its strings cleaned and free of markdown. A missing entry gives an empty list. No JSON, or an entry that is not all strings, gives the fallback. |
| `AssetPrep.TaglinesFallback` | app/agents/asset_prep_agent.py:83-101 | Without usable JSON, the taglines are the five stock ones, the second "Revolutionary {name} for {audience}". |
| `AssetPrep.TweetsFallback` | app/agents/asset_prep_agent.py:162-178 | Without usable JSON, the tweets are the three stock ones, each ending with "#ProductHunt #Launch". |
| `AssetPrep.DescriptionClean` | app/agents/asset_prep_agent.py:127-128 | The description is the whole reply cleaned. It has no markdown and is no longer than the reply. |
| `AssetPrep.SuggestionsFallback` | app/agents/asset_prep_agent.py:213-223 | If no reply line cleans to a bullet, the suggestions are the five stock ones. |
| `AssetPrep.SuggestionsKept` | app/agents/asset_prep_agent.py:204-215 | Otherwise they are the first one to five cleaned bullet lines, in reply order, each free of markdown. |
| `AssetPrep.CleanBulletFound` | app/agents/asset_prep_agent.py:204-211 | A line that cleans to a bullet leaves the list of kept lines non-empty. |
| `AssetPrep.FirstFiveClean` | app/agents/asset_prep_agent.py:213-215 | The first five of a non-empty run of clean bullets are one to five clean bullets. |
| `AssetPrep.SuggestionsAreBullets` | app/agents/asset_prep_agent.py:213-215 | With at least one bullet, the suggestions are the first five bullets. |
| `AssetPrep.CleanBullets` | app/agents/asset_prep_agent.py:206-211 | Every kept line is free of markdown. |
| `AssetPrep.AssetEnvelope` | app/agents/asset_prep_agent.py:14-47 | The answer succeeds exactly when all four model calls answer, and then has the four asset keys. A failure has no data and an error. A failed first call gives "Asset generation failed: LLM invocation failed: {e}". |
| `AssetPrep.AssetContentOutcome` | app/agents/asset_prep_agent.py:16-42 | The data is built exactly when all four calls answer, and then has the four asset keys in order. A failed tagline call raises the model's error. |
| `AssetPrep.AssetPrepAgent.constructor` | app/agents/asset_prep_agent.py:10-12 | The agent's type is "asset_prep". |
| `AssetPrep.AssetPrepAgent.Process` | app/agents/asset_prep_agent.py:14-47 | The step-by-step run gives the answer `AssetReply` specifies. |
| `AssetPrep.AssetPrepAgent.GenerateSuggestions` | app/agents/asset_prep_agent.py:180-223 | The suggestions are those `Suggestions` specifies. |
| `AssetPrep.AssetPrepAgent.ScanSuggestions` | app/agents/asset_prep_agent.py:204-211 | The loop keeps exactly the bullets among the cleaned lines, in order. |
| `Research.StrippedLines` | app/agents/research_agent.py:218-220 | The result has one stripped line per reply line, in order. |
| `Research.StrippedStep` | app/agents/research_agent.py:219-224 | Each line read is kept after the bullets found before it exactly when it strips to a bullet. |
| `Research.TopLaunchesSource` | app/agents/research_agent.py:84-120 | With JSON that decodes, the launches are its "launches" entry, or an empty list if it has none. Without, they are the two samples "Top {category} Tool" and "AI-Powered {category}". |
| `Research.HuntersSource` | app/agents/research_agent.py:160-192 | With JSON that decodes, the hunters are its "hunters" entry. Without, they are the two samples, the first fitting the category. |
| `Research.CompetitorsSource` | app/agents/research_agent.py:263-290 | With JSON that decodes, the analysis is that whole object, unchecked. Without, it is the stock five-key analysis with market saturation "Medium". |
| `Research.InsightsFallback` | app/agents/research_agent.py:226-236 | If no line strips to a bullet, the insights are the five stock ones, the first naming the category. |
| `Research.NoBulletFound` | app/agents/research_agent.py:217-224 | If no line strips to a bullet, nothing is kept. |
| `Research.InsightsKept` | app/agents/research_agent.py:217-228 | Otherwise they are the first one to five stripped bullet lines, in reply order. |
| `Research.BulletFound` | app/agents/research_agent.py:217-224 | A line that strips to a bullet leaves the list of kept lines non-empty. |
| `Research.FirstFive` | app/agents/research_agent.py:226-228 | The first five of a non-empty run of stripped bullets are one to five stripped bullets. |
| `Research.InsightsAreBullets` | app/agents/research_agent.py:226-228 | With at least one bullet, the insights are the first five bullets. |
| `Research.StrippedBullets` | app/agents/research_agent.py:219-224 | Every kept line is stripped. |
| `Research.InsightsNeverEmpty` | app/agents/research_agent.py:214-236 | An answered insight call gives one to five insights. |
| `Research.ResearchEnvelope` | app/agents/research_agent.py:14-49 | The answer succeeds exactly when all four model calls answer, and then has the four research keys. A failure has no data and an error. A failed first call gives "Research failed: LLM invocation failed: {e}". |
| `Research.ResearchAgent.constructor` | app/agents/research_agent.py:10-12 | The agent's type is "research". |
| `Research.ResearchAgent.Process` | app/agents/research_agent.py:14-49 | The step-by-step run gives the answer `ResearchReply` specifies. |
| `Research.ResearchAgent.GenerateInsights` | app/agents/research_agent.py:194-236 | The insights are those `Insights` specifies. |
| `Research.ResearchAgent.ScanInsights` | app/agents/research_agent.py:217-224 | The loop keeps exactly the bullets among the stripped lines, in order. |
| `Replies.Bullets` | app/agents/research_agent.py:221-224 | The kept lines are bullets taken from the input, no more of them than there are lines. |
| `Replies.NoBullets` | app/agents/research_agent.py:221-228 | Nothing is kept exactly when no line is a bullet. |
| `Replies.BulletsAppend` | app/agents/asset_prep_agent.py:206-211 | Filtering goes line by line: the bullets of two runs of lines are those of each, in order. |
| `Replies.BulletsStep` | app/agents/asset_prep_agent.py:208-211 | One more line read is kept exactly when it is a bullet. |
| `Replies.BulletLine` | app/agents/research_agent.py:221-224 | A single line is kept exactly when it is non-empty and starts with '-', '•' or a digit. |
| `Templates.FallbackTaglines` | app/agents/asset_prep_agent.py:95-101 | There are five stock taglines. |
| `Templates.FallbackTaglinesQuote` | app/agents/asset_prep_agent.py:95-101 | The first tagline starts with the product and ends with the pitch's first 50 characters and "...". The second is "Revolutionary {name} for {audience}". All five name the product. |
| `Templates.MarketingDescriptionQuotes` | app/tools.py:91 | The tool's description starts with the whole pitch and names the audience and the product. |
| `Templates.FallbackTweets` | app/agents/asset_prep_agent.py:174-178 | There are three stock tweets. |
| `Templates.FallbackTweetsQuote` | app/agents/asset_prep_agent.py:174-178 | Each stock tweet ends with the launch hashtags, and the first quotes the pitch's first 100 characters. |
| `Templates.FallbackSuggestions` | app/agents/asset_prep_agent.py:216-222 | There are five stock suggestions. |
| `Templates.FallbackSuggestionsQuote` | app/agents/asset_prep_agent.py:216-222 | The first two stock suggestions name the product and the third names the audience. |
| `Templates.AssetData` | app/agents/asset_prep_agent.py:36-41 | The data has the keys taglines, short_description, tweets and suggestions, in that order, holding the given values. |
| `Templates.FallbackLaunches` | app/agents/research_agent.py:97-120 | There are two sample launches. |
| `Templates.FallbackLaunchNames` | app/agents/research_agent.py:97-120 | The sample launches are named "Top {category} Tool" and "AI-Powered {category}", in that order. |
| `Templates.FallbackHunters` | app/agents/research_agent.py:173-192 | There are two sample hunters. |
| `Templates.FallbackHunterFit` | app/agents/research_agent.py:181 | The first hunter "Specializes in {category} launches". |
| `Templates.FallbackInsights` | app/agents/research_agent.py:229-235 | There are five stock insights. |
| `Templates.FallbackInsightsQuote` | app/agents/research_agent.py:230 | The first stock insight names the category. |
| `Templates.FallbackCompetitors` | app/agents/research_agent.py:276-290 | The stock analysis has its five keys in order, with market saturation "Medium". |
| `Templates.ResearchData` | app/agents/research_agent.py:38-43 | The data has the keys top_launches, recommended_hunters, insights and competitor_analysis, in that order, holding the given values. |
| `Timeline.TimelineData` | app/agents/planning_agent.py:51-56 | The data has the keys timeline, total_days, launch_date and key_milestones, in that order, holding the given values. |
| `Timeline.Banded` | app/tools.py:256-328 | The pre-launch phase is present from 14 days to go, the final preparation from 7, and launch day always, in that order. Every phase has two High-priority tasks. |
| `Timeline.BandedDueDatesAhead` | app/tools.py:260-326 | Every due date starts with "Launch day" or with a digit, so no task is due before the count starts. |
| `Timeline.TasksStep` | app/tools.py:335-337 | One more task read appends its milestone line after those before it. |
| `Timeline.TasksFailurePersists` | app/tools.py:335-337 | Once a task raises, the scan of its phase raises the same error. |
| `Timeline.PhasesFailurePersists` | app/tools.py:334-337 | Once a phase raises, the whole scan raises the same error. |
| `Timeline.PhaseFails` | app/tools.py:335 | A phase that is not a dict, or whose tasks do not iterate, ends the scan with that error. |
| `Timeline.PhaseTasksFail` | app/tools.py:335-337 | A phase whose tasks raise ends the scan with that task's error. |
| `Timeline.TaskLineFails` | app/tools.py:336-337 | A task that raises (not a dict, or a High task without name or due_date) ends the scan of its phase. |
| `Timeline.PhasesStep` | app/tools.py:334-337 | One more phase read appends its lines after those before it. |
| `Timeline.PhaseJsonTasks` | app/tools.py:335 | A built phase dict's tasks iterate to the dicts of its own tasks. |
| `Timeline.TaskJsonLine` | app/tools.py:336-337 | A task dict gives "name - due_date" exactly when its priority is "High". |
| `Timeline.TaskItemsMilestones` | app/tools.py:335-337 | The task dicts of a phase give the lines of its High tasks, in order, and never raise. |
| `Timeline.TimelineJsonMilestones` | app/tools.py:331-338 | Milestones read from the dicts of a built timeline never raise, and give its High-task lines. |
| `Timeline.BandedMilestoneLines` | app/tools.py:256-328 | The date-band timeline has 6, 4 or 2 High-priority tasks, by the day count. |
| `Timeline.BandedMilestoneCount` | app/tools.py:331-338 | The key milestones of the date-band timeline are the first five of its High-task lines: 5, 4 or 2 of them. |
| `Tools.CreateTimeline` | app/tools.py:256-328 | Appending phase by phase builds the date-band timeline. |
| `Tools.ExtractMilestones` | app/tools.py:331-338 | The loop gives the milestones `Timeline.Milestones` specifies, at most five. The error is that of the first phase or task that raises. |
| `Tools.ScanTasks` | app/tools.py:335-337 | The inner loop gives the High-task lines of one phase, or the first error. |
| `Tools.FailureReply` | app/tools.py:37-40 | A failed run answers with two keys: success=False and the error. |
| `Tools.TimelineReply` | app/tools.py:46-52 | A successful run answers success=True, then the timeline, day count, display date and milestones, in that order. |
| `Tools.GenerateLaunchTimeline` | app/tools.py:13-58 | The step-by-step run gives the answer `TimelineToolReply` specifies. |
| `Tools.PastDateReply` | app/tools.py:36-40 | A resolved date gets the past-date failure exactly when it lies in the past. Every failure has exactly the keys success and error. |
| `Tools.TimelineToolReplyShape` | app/tools.py:31-58 | A date that does not resolve gives "Timeline generation failed: {e}". A success has its five keys, a day count that is not negative, and 5, 4 or 2 milestones. |
| `Tools.GenerateMarketingAssets` | app/tools.py:62-121 | The answer is success plus the four asset keys, holding the five stock taglines, the description, the three stock tweets and the five stock suggestions. |
| `Tools.ResearchTopLaunches` | app/tools.py:125-213 | The answer is success plus the four research keys, holding two launches, two hunters, five insights and a five-key analysis. |
| `Tools.ResearchDependsOnCategoryOnly` | app/tools.py:125-213 | The research answer does not depend on the audience or the budget. |
| `Memory.NamespaceMap` | project/src/helpers/memory.py:103-106 | Building the namespace table fails only with IndexError. A table that is built has each strategy type once. |
| `Memory.NamespaceMapFails` | project/src/helpers/memory.py:103-106 | The table fails to build exactly when some strategy has no namespace. |
| `Memory.NamespaceMapLookup` | project/src/helpers/memory.py:103-106 | A type maps to the first namespace of the last strategy of that type. |
| `Memory.NamespaceMapKinds` | project/src/helpers/memory.py:103-106 | The types in the table are exactly the strategies' types. |
| `Memory.PutLookup` | project/src/helpers/memory.py:103-106 | After `d[k] = v`, k reads v and every other key reads as before. |
| `Memory.PutKinds` | project/src/helpers/memory.py:103-106 | An existing key keeps its place, and a new key goes last. |
| `Memory.MemoryHooks.constructor` | project/src/helpers/memory.py:96-102 | The hooks keep the memory, actor, session and namespace table they are given. |
| `Memory.MemoryHooks.Create` | project/src/helpers/memory.py:96-106 | Creating the hooks fails exactly when the table does, with IndexError. Otherwise the new hooks hold the table. |
| `Memory.SubstitutePlain` | project/src/helpers/memory.py:124 | A namespace without a brace is filled in as itself. |
| `Memory.SubstituteOnce` | project/src/helpers/memory.py:124 | A template naming `{actorId}` once gets the actor's id in that place. |
| `Memory.MemoryText` | project/src/helpers/memory.py:129-133 | A memory's text is stripped. The only error it can raise is an AttributeError on `strip`. |
| `Memory.MemoryTextKept` | project/src/helpers/memory.py:129-134 | A memory gives a text exactly when it is a dict whose "content" is a dict whose "text" is a string, non-blank after stripping. |
| `Memory.MemoryTextsShape` | project/src/helpers/memory.py:129-137 | There are no more texts than memories, and each is non-empty and stripped. |
| `Memory.MemoryTextsAppend` | project/src/helpers/memory.py:129-137 | Texts are collected memory by memory: those of two runs of memories are those of each, in order, or the first error. |
| `Memory.MemoryTextsOne` | project/src/helpers/memory.py:129-137 | One memory gives its text, if non-empty, or its error. |
| `Memory.CollectTexts` | project/src/helpers/memory.py:129-137 | The `for memory in memories` loop gives the texts `MemoryTexts` specifies. |
| `Memory.AllContextAppend` | project/src/helpers/memory.py:120-137 | Namespaces are searched one at a time: the items of two runs of namespaces are those of each, in order. |
| `Memory.AllContextOne` | project/src/helpers/memory.py:120-137 | One namespace gives its memories' texts tagged "[TYPE] ", or the search's or text's error. |
| `Memory.InjectedLines` | project/src/helpers/memory.py:141-145 | When no line break is inside, the injected text reads as the heading, one line per item, a blank line and the query. |
| `Memory.InjectedEnds` | project/src/helpers/memory.py:141-145 | The injected text starts with "Product Launch Context:" and a line break, ends with a blank line and the query, and is longer than the query. |
| `Memory.WithText` | project/src/helpers/memory.py:143-145 | Only the text of the first block changes; the role and the other blocks stay. |
| `Memory.ProductContextRaises` | project/src/helpers/memory.py:110-115 | The hook raises exactly when the messages are empty (IndexError), or when the newest is a user message with no first block (IndexError) or no text (KeyError "text"). |
| `Memory.ProductContextInjects` | project/src/helpers/memory.py:108-146 | The messages change exactly when the newest is the user's own text and the search finds an item. Then only that message's first text changes, to the injected context followed by the query. |
| `Memory.SearchFailureCaught` | project/src/helpers/memory.py:148-149 | A search or text that raises is caught, and the messages stay as they are. |
| `Memory.SearchFound` | project/src/helpers/memory.py:139-145 | Found items are put before the query; with none, nothing changes. |
| `Memory.MemoryHooks.RetrieveProductContext` | project/src/helpers/memory.py:108-149 | The agent's messages become those `ProductContext` specifies. An exception that escapes is returned, and the messages are then unchanged. |
| `Memory.ScanKeepsResponse` | project/src/helpers/memory.py:160-169 | Once the backward scan has a response, it keeps it. |
| `Memory.ScanFindsQuery` | project/src/helpers/memory.py:160-169 | A query found is the text of the latest plain user message before the scan's start. |
| `Memory.SavedShape` | project/src/helpers/memory.py:171-181 | A saved event is a non-empty USER turn and a non-empty ASSISTANT turn, under the hooks' memory, actor and session. It is only saved when there are at least two messages and the last is an assistant's. |
| `Memory.SavedQuery` | project/src/helpers/memory.py:160-169 | The saved query is the text of the latest plain user message. |
| `Memory.SavedResponse` | project/src/helpers/memory.py:161-162 | With a non-empty text in the last message, that text is the saved response. |
| `Memory.SavedNeedsReply` | project/src/helpers/memory.py:155 | Nothing is saved unless the last message is an assistant's and it has at least one message before it. |
| `Memory.MemoryHooks.SaveLaunchInteraction` | project/src/helpers/memory.py:151-185 | The backward loop hands over the event `SavedEvent` specifies. Every exception is caught. |
| `Memory.SummaryParts` | project/src/helpers/memory.py:249-283 | The summary holds the preference texts, the semantic texts and the count of all memories retrieved. It is empty when either search or any text raises. |
| `Memory.SummaryBound` | project/src/helpers/memory.py:269-277 | Every text in the summary is non-empty and stripped, and there are no more texts than memories. |
| `Memory.SummaryNamespacesFilled` | project/src/helpers/memory.py:258-261 | The summary's two namespaces are the preference and semantic templates filled in with the actor's id. |
| `Memory.GetUserMemorySummary` | project/src/helpers/memory.py:249-283 | The loop gives the summary `UserMemorySummary` specifies. |
| `Memory.SeedLines` | project/src/helpers/memory.py:220-229 | The seeded context has eight lines. |
| `Memory.SeedEvent` | project/src/helpers/memory.py:216-240 | The seed event is under the given memory and actor, in session "initial_setup". It has a USER turn opening "I'm launching a product: " and an ASSISTANT turn holding the context, which opens with a line break and ends with one and the indentation. |
| `Memory.SeedDefaults` | project/src/helpers/memory.py:216-240 | The seed event is the USER turn "I'm launching a product: {name or 'my product'}" and the context as the ASSISTANT turn, in session "initial_setup". Each missing field reads its default: "Not specified" for the name, audience and launch date; "SaaS" for the type; "Not provided" for the description and repository; "None" for the notes. |
| `Memory.SeedLinesOneLine` | project/src/helpers/memory.py:220-229 | No seeded line breaks when no product value does. |
| `Memory.SeedLayout` | project/src/helpers/memory.py:220-229 | The seeded context splits into an empty line, the eight lines and the closing indentation. |
| `ProductTools.PolicyFor` | project/src/tools/product_tools.py:55 | Every policy's return window is "30 days". |
| `ProductTools.GetReturnPolicy` | project/src/tools/product_tools.py:9-62 | The answer is "Return Policy - {Title}:", a blank line and the six bullets of the category's policy; `ReturnPolicyLookup` and `ReturnPolicyLayout` give the policy chosen and the line layout. |
| `ProductTools.ReturnPolicyLookup` | project/src/tools/product_tools.py:19-55 | The lookup ignores letter case, finds the three known categories, and gives the default policy for any other. |
| `ProductTools.PolicyLines` | project/src/tools/product_tools.py:57-62 | There are six bullet lines, none broken when the policy's texts are not. |
| `ProductTools.PolicyBullets` | project/src/tools/product_tools.py:57-62 | Each bullet has its label, then its text. The window reads "... from delivery". |
| `ProductTools.FormatPolicy` | project/src/tools/product_tools.py:56-62 | The text is the heading line, a blank line and the six bullets, joined by line breaks. |
| `ProductTools.PolicyLayout` | project/src/tools/product_tools.py:56-62 | Split into lines, the text is the heading, a blank line and the six bullets. |
| `ProductTools.ReturnPolicyLayout` | project/src/tools/product_tools.py:9-62 | Split into lines, a return policy is eight lines: "Return Policy - {Title}:", a blank line and the six bullets. |
| `ProductTools.ProductFor` | project/src/tools/product_tools.py:106-108 | A product is found exactly when the lower-cased type is laptops, smartphones, headphones or monitors. |
| `ProductTools.GetProductInfo` | project/src/tools/product_tools.py:66-115 | The answer starts with "Technical Information - " exactly when the type is known. A known type gets its title heading, a blank line and its five bullets. An unknown type gets the "not available" text. |
| `ProductTools.ProductInfoLookup` | project/src/tools/product_tools.py:75-106 | The lookup ignores letter case and finds the four known types. |
| `ProductTools.ProductLines` | project/src/tools/product_tools.py:111-115 | There are five bullet lines, none broken when the product's texts are not. |
| `ProductTools.ProductBullets` | project/src/tools/product_tools.py:111-115 | Each bullet has its label, then its text. |
| `ProductTools.FormatProduct` | project/src/tools/product_tools.py:110-115 | The text is the heading line, a blank line and the five bullets, joined by line breaks. |
| `ProductTools.ProductLayout` | project/src/tools/product_tools.py:110-115 | Split into lines, the text is the heading, a blank line and the five bullets. |
| `ProductTools.ProductInfoMiss` | project/src/tools/product_tools.py:106-108 | An unknown type gets the "not available" answer, which is never laid out as technical information. |
| `ProductTools.UnavailableIsNoInformation` | project/src/tools/product_tools.py:108 | The "not available" answer does not start with "Technical Information - ". |
| `ProductTools.ProductInfoLayout` | project/src/tools/product_tools.py:66-115 | Split into lines, the information on a known type is seven lines: "Technical Information - {Title}:", a blank line and the five bullets. |

## Left out

- The Bedrock client (`BedrockClient`, app/utils.py:10-52):
  - The model's answer to each call is a parameter.
  - The wording it gives its own exceptions arrives inside the parameter's error text.
- Prompts are not modelled:
  - Each prompt's text, and its `max_tokens`, reach only the model.
  - The request fields that feed only prompts are read but play no further part: the tone, the audience of the research agent, the product type and the notes.
  - `top_launches` is passed to `_generate_insights` and `_analyze_competitors` but used by neither, so the model leaves it out of both. `product_category` feeds only the prompt of `_analyze_competitors`; the insight fallback also quotes it.
- `dateutil.parser.parse`, `json.loads`, `strftime` (`format_date_for_display`) and `str()` of a JSON list or dict are parameters. Their internals are not modelled.
- `json.loads` can raise an exception other than `JSONDecodeError`, such as `RecursionError`. In `extract_json_from_response` and `extract_structured_data` it would escape. The model treats every decoding failure as a `JSONDecodeError`.
- `datetime.now()` is read once per request. The source reads it separately in `parse_launch_date` and `calculate_timeline_days`, and these could fall on different days around midnight.
- Time zones are not modelled: every date is naive.
- Only ASCII letters change case in `lower`, `upper` and `title`, and only ASCII digits count for `isdigit`. `strip` and `\s` use the ASCII whitespace set plus the Unicode spaces listed in Strings.
- Request values are strings. A caller passing a non-string value (for example a number as `launch_date`) is not modelled.
- The HTTP layers, the agent framework (`strands`, `@tool`, `register_hooks`), logging and `print` are left out.
- `web_search` (project/src/tools/product_tools.py:119-138) is left out: it calls a search service the model cannot see.
- These memory functions are left out: `create_or_get_memory_resource`, `delete_memory`, `get_memory_hooks`. They are SSM and memory-service set-up, and `uuid` generation.
- `create_event` is the caller's step: the hooks return the event they would hand it. A failing `create_event` and the bool that `seed_product_memory` returns are not modelled.
- Memory.Substitute models `str.format` with `{actorId}` as the template's only replacement field. Other fields and escaped braces are not modelled.
- Memory.Message is limited:
  - A message block is modelled by its "text" entry and whether it has a "toolResult" key. Its other keys, and a text that is not a string, are not modelled.
  - A message without a "role" key is not modelled.
- `pydantic` validation of `AgentResponse` is not modelled. The coordinator's copy of an agent's answer is taken as is.
- JSON objects with repeated keys are not modelled: lookups take the first entry, as a dict built from them would hold at most one.
- ProductTools.ReturnPolicyLayout: its line-by-line layout is stated for a category and policy texts without line breaks, the only inputs for which splitting on line breaks recovers the bullets.
- ProductTools.ProductInfoLayout: its line-by-line layout is stated for a type and product texts without line breaks, for the same reason.
