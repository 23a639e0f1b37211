/**
 * Launch timelines: the date-band timeline that app/tools.py
 * (`create_timeline`) and app/agents/planning_agent.py
 * (`_create_fallback_timeline`) both build, its JSON form, and the key
 * milestones that `extract_milestones` reads off any timeline value.
 */
module Timeline {
  import opened Wrappers
  import opened Strings
  import opened Json

  datatype Task = Task(
    name: string,
    dueDate: string,
    priority: string,
    timeEstimate: string,
    dependencies: string,
    successCriteria: string)

  datatype Phase = Phase(name: string, tasks: seq<Task>)

  function TaskJson(t: Task): Json
  {
    Object([
      ("name", Str(t.name)),
      ("due_date", Str(t.dueDate)),
      ("priority", Str(t.priority)),
      ("time_estimate", Str(t.timeEstimate)),
      ("dependencies", Str(t.dependencies)),
      ("success_criteria", Str(t.successCriteria))])
  }

  function TaskItems(ts: seq<Task>): (items: seq<Json>)
    ensures |items| == |ts|
  {
    seq(|ts|, k requires 0 <= k < |ts| => TaskJson(ts[k]))
  }

  function PhaseJson(p: Phase): Json
  {
    Object([("phase", Str(p.name)), ("tasks", Array(TaskItems(p.tasks)))])
  }

  function PhaseItems(tl: seq<Phase>): (items: seq<Json>)
    ensures |items| == |tl|
  {
    seq(|tl|, k requires 0 <= k < |tl| => PhaseJson(tl[k]))
  }

  /** The list of phase dicts. */
  function TimelineJson(tl: seq<Phase>): Json
  {
    Array(PhaseItems(tl))
  }

  /** The four entries a timeline answer carries, as the tool and the planning agent both return them. */
  function TimelineData(timeline: Json, days: int, display: string, milestones: seq<string>): (r: Members)
    ensures Keys(r) == ["timeline", "total_days", "launch_date", "key_milestones"]
    ensures r[0].1 == timeline && r[1].1 == Int(days) && r[2].1 == Str(display) && r[3].1 == Strs(milestones)
  {
    [("timeline", timeline),
     ("total_days", Int(days)),
     ("launch_date", Str(display)),
     ("key_milestones", Strs(milestones))]
  }

  // ----- the date-band timeline -----

  function DaysBefore(n: int): string
  {
    IntToString(n) + " days before launch"
  }

  /** The four dated tasks, each due a given number of days before launch. */
  const CreateAccount: Task :=
    Task("Create Product Hunt account and profile", "", "High", "1 hour", "None", "Account created with complete profile")
  const PrepareAssets: Task :=
    Task("Prepare product assets (logo, screenshots, demo video)", "", "High", "4-6 hours", "None", "All visual assets ready")
  const WriteDescription: Task :=
    Task("Write compelling product description and tagline", "", "High", "2-3 hours", "Product assets ready",
         "Description approved and ready")
  const ReachHunters: Task :=
    Task("Identify and reach out to potential hunters", "", "High", "3-4 hours", "None", "At least 3 hunters confirmed")

  function PreLaunch(days: int): Phase
  {
    Phase("Pre-launch (2+ weeks before)", [
      CreateAccount.(dueDate := DaysBefore(days - 14)),
      PrepareAssets.(dueDate := DaysBefore(days - 10))])
  }

  function FinalPreparation(days: int): Phase
  {
    Phase("Final preparation (1 week before)", [
      WriteDescription.(dueDate := DaysBefore(days - 7)),
      ReachHunters.(dueDate := DaysBefore(days - 5))])
  }

  const LaunchDay: Phase :=
    Phase("Launch day", [
      Task("Submit product to Product Hunt", "Launch day (12:01 AM PST)", "High",
           "30 minutes", "All assets and hunters ready", "Product live on Product Hunt"),
      Task("Share on social media and personal networks", "Launch day (morning)", "High",
           "2-3 hours", "Product live", "Initial momentum generated")])

  /** A phase of the date-band timeline: two tasks, both of High priority. */
  predicate TwoHighTasks(p: Phase)
  {
    |p.tasks| == 2 && forall t <- p.tasks :: t.priority == "High"
  }

  /** A due date that does not lie in the past: launch day itself, or a count of days that is not negative. */
  predicate AheadOfLaunch(t: Task)
  {
    StartsWith(t.dueDate, "Launch day") || (t.dueDate != [] && IsDigit(t.dueDate[0]))
  }

  /**
   * The phases present for `days` days to go: pre-launch from 14 days,
   * final preparation from 7, launch day always, in that order.
   */
  function Banded(days: int): (tl: seq<Phase>)
    ensures |tl| == if days >= 14 then 3 else if days >= 7 then 2 else 1
    ensures tl[|tl| - 1] == LaunchDay && LaunchDay.name == "Launch day"
    ensures days >= 14 ==> tl[0].name == "Pre-launch (2+ weeks before)" && tl[1].name == "Final preparation (1 week before)"
    ensures 7 <= days < 14 ==> tl[0].name == "Final preparation (1 week before)"
    ensures forall p <- tl :: TwoHighTasks(p)
  {
    (if days >= 14 then [PreLaunch(days)] else [])
    + (if days >= 7 then [FinalPreparation(days)] else [])
    + [LaunchDay]
  }

  /** Every due date of the banded timeline is a count of days that is not negative, or launch day. */
  lemma BandedDueDatesAhead(days: int)
    ensures forall p <- Banded(days) :: forall t <- p.tasks :: AheadOfLaunch(t)
  {
    assert StartsWith(LaunchDay.tasks[0].dueDate, "Launch day");
    assert StartsWith(LaunchDay.tasks[1].dueDate, "Launch day");
    if days >= 7 {
      assert FinalPreparation(days).tasks[0].dueDate == NatToString(days - 7) + " days before launch";
      assert FinalPreparation(days).tasks[1].dueDate == NatToString(days - 5) + " days before launch";
    }
    if days >= 14 {
      assert PreLaunch(days).tasks[0].dueDate == NatToString(days - 14) + " days before launch";
      assert PreLaunch(days).tasks[1].dueDate == NatToString(days - 10) + " days before launch";
    }
  }

  // ----- milestones over any timeline value -----

  /**
   * One task's contribution: a dict whose priority is "High" gives
   * "name - due_date"; `task['name']` and `task['due_date']` raise KeyError
   * when missing; anything but a dict raises AttributeError on `.get`.
   */
  function TaskLine(task: Json, show: Json -> string): Result<seq<string>, PyError>
  {
    match task
    case Object(m) =>
      if Get(m, "priority", Null) != Str("High") then Success([])
      else if !Has(m, "name") then Failure(KeyError("name"))
      else if !Has(m, "due_date") then Failure(KeyError("due_date"))
      else Success([Render(Get(m, "name", Null), show) + " - " + Render(Get(m, "due_date", Null), show)])
    case _ => Failure(AttributeError(TypeName(task), "get"))
  }

  /** The milestones of a phase's tasks, in order; the first failing task decides the error. */
  function TasksMilestones(tasks: seq<Json>, show: Json -> string): Result<seq<string>, PyError>
    decreases |tasks|
  {
    if tasks == [] then Success([])
    else
      var before :- TasksMilestones(tasks[..|tasks| - 1], show);
      var line :- TaskLine(tasks[|tasks| - 1], show);
      Success(before + line)
  }

  /** `phase.get('tasks', [])`, iterated. */
  function PhaseTasks(phase: Json): Result<seq<Json>, PyError>
  {
    match phase
    case Object(m) => Iterate(Get(m, "tasks", Array([])))
    case _ => Failure(AttributeError(TypeName(phase), "get"))
  }

  /** The milestones of all phases, phase by phase. */
  function PhasesMilestones(phases: seq<Json>, show: Json -> string): Result<seq<string>, PyError>
    decreases |phases|
  {
    if phases == [] then Success([])
    else
      var before :- PhasesMilestones(phases[..|phases| - 1], show);
      var tasks :- PhaseTasks(phases[|phases| - 1]);
      var own :- TasksMilestones(tasks, show);
      Success(before + own)
  }

  /** `extract_milestones(timeline)`: every High-priority milestone, then the first five. */
  function Milestones(timeline: Json, show: Json -> string): Result<seq<string>, PyError>
  {
    var phases :- Iterate(timeline);
    var all :- PhasesMilestones(phases, show);
    Success(Take(all, 5))
  }

  /** One more task read: its line goes after those of the tasks before it. */
  lemma TasksStep(tasks: seq<Json>, j: nat, show: Json -> string)
    requires j < |tasks| && TasksMilestones(tasks[..j], show).Success? && TaskLine(tasks[j], show).Success?
    ensures TasksMilestones(tasks[..j + 1], show) ==
            Success(TasksMilestones(tasks[..j], show).value + TaskLine(tasks[j], show).value)
  {
    PrefixStep(tasks, j);
  }

  /** Once a prefix of the tasks raises, the whole scan raises the same error. */
  lemma {:induction false} TasksFailurePersists(tasks: seq<Json>, k: nat, show: Json -> string)
    requires k <= |tasks| && TasksMilestones(tasks[..k], show).Failure?
    ensures TasksMilestones(tasks, show) == TasksMilestones(tasks[..k], show)
    decreases |tasks|
  {
    if k < |tasks| {
      var init := tasks[..|tasks| - 1];
      assert init[..k] == tasks[..k];
      TasksFailurePersists(init, k, show);
    } else {
      assert tasks[..k] == tasks;
    }
  }

  /** Once a prefix of the phases raises, the whole scan raises the same error. */
  lemma {:induction false} PhasesFailurePersists(phases: seq<Json>, k: nat, show: Json -> string)
    requires k <= |phases| && PhasesMilestones(phases[..k], show).Failure?
    ensures PhasesMilestones(phases, show) == PhasesMilestones(phases[..k], show)
    decreases |phases|
  {
    if k < |phases| {
      var init := phases[..|phases| - 1];
      assert init[..k] == phases[..k];
      PhasesFailurePersists(init, k, show);
    } else {
      assert phases[..k] == phases;
    }
  }

  /** A phase whose tasks cannot be read (not a dict, or `tasks` not iterable) ends the scan with that error. */
  lemma PhaseFails(phases: seq<Json>, i: nat, show: Json -> string)
    requires i < |phases| && PhasesMilestones(phases[..i], show).Success?
    requires PhaseTasks(phases[i]).Failure?
    ensures PhasesMilestones(phases, show) == Failure(PhaseTasks(phases[i]).error)
  {
    assert phases[..i + 1][..i] == phases[..i];
    PhasesFailurePersists(phases, i + 1, show);
  }

  /** A phase whose tasks raise ends the scan with their error. */
  lemma PhaseTasksFail(phases: seq<Json>, i: nat, tasks: seq<Json>, show: Json -> string)
    requires i < |phases| && PhasesMilestones(phases[..i], show).Success?
    requires PhaseTasks(phases[i]) == Success(tasks) && TasksMilestones(tasks, show).Failure?
    ensures PhasesMilestones(phases, show) == Failure(TasksMilestones(tasks, show).error)
  {
    assert phases[..i + 1][..i] == phases[..i];
    PhasesFailurePersists(phases, i + 1, show);
  }

  /** A task that raises ends the scan of its phase's tasks with its error. */
  lemma TaskLineFails(tasks: seq<Json>, j: nat, show: Json -> string)
    requires j < |tasks| && TasksMilestones(tasks[..j], show).Success?
    requires TaskLine(tasks[j], show).Failure?
    ensures TasksMilestones(tasks, show) == Failure(TaskLine(tasks[j], show).error)
  {
    PrefixStep(tasks, j);
    TasksFailurePersists(tasks, j + 1, show);
  }

  /** One more phase read: its lines go after those of the phases before it. */
  lemma PhasesStep(phases: seq<Json>, i: nat, show: Json -> string)
    requires i < |phases| && PhasesMilestones(phases[..i], show).Success?
    requires PhaseTasks(phases[i]).Success? && TasksMilestones(PhaseTasks(phases[i]).value, show).Success?
    ensures PhasesMilestones(phases[..i + 1], show) ==
            Success(PhasesMilestones(phases[..i], show).value + TasksMilestones(PhaseTasks(phases[i]).value, show).value)
  {
    PrefixStep(phases, i);
  }

  // ----- milestones of a typed timeline -----

  /** The "name - due_date" lines of the High-priority tasks, in order. */
  function TaskLines(ts: seq<Task>): seq<string>
    decreases |ts|
  {
    if ts == [] then []
    else
      var t := ts[|ts| - 1];
      TaskLines(ts[..|ts| - 1]) + (if t.priority == "High" then [t.name + " - " + t.dueDate] else [])
  }

  function MilestoneLines(tl: seq<Phase>): seq<string>
    decreases |tl|
  {
    if tl == [] then [] else MilestoneLines(tl[..|tl| - 1]) + TaskLines(tl[|tl| - 1].tasks)
  }

  lemma TaskJsonFields(t: Task)
    ensures Has(TaskJson(t).members, "name") && Has(TaskJson(t).members, "due_date")
    ensures Get(TaskJson(t).members, "name", Null) == Str(t.name)
    ensures Get(TaskJson(t).members, "due_date", Null) == Str(t.dueDate)
    ensures Get(TaskJson(t).members, "priority", Null) == Str(t.priority)
  {
    var m := TaskJson(t).members;
    assert Has(m, "name") && Get(m, "name", Null) == Str(t.name) by {
      assert m[0].0 == "name";
    }
    assert Has(m, "due_date") && Get(m, "due_date", Null) == Str(t.dueDate) by {
      assert m[1].0 == "due_date" && m[0].0 != "due_date";
      assert m[1..][0].0 == "due_date";
    }
    var m1, m2 := m[1..], m[1..][1..];
    assert Get(m2, "priority", Null) == Str(t.priority) by {
      assert m2[0].0 == "priority";
    }
    assert Get(m1, "priority", Null) == Get(m2, "priority", Null) by {
      assert "priority"[0] != "due_date"[0];
      assert m1[0].0 != "priority";
    }
    assert Get(m, "priority", Null) == Get(m1, "priority", Null) by {
      assert m[0].0 != "priority";
    }
  }

  lemma TaskJsonLine(t: Task, show: Json -> string)
    ensures TaskLine(TaskJson(t), show) ==
            Success(if t.priority == "High" then [t.name + " - " + t.dueDate] else [])
  {
    TaskJsonFields(t);
  }

  lemma PhaseJsonTasks(p: Phase)
    ensures PhaseTasks(PhaseJson(p)) == Success(TaskItems(p.tasks))
  {
    var m := PhaseJson(p).members;
    assert "tasks" != "phase";
    assert Get(m, "tasks", Array([])) == Get(m[1..], "tasks", Array([])) == Array(TaskItems(p.tasks));
  }

  lemma {:induction false} TaskItemsMilestones(ts: seq<Task>, show: Json -> string)
    ensures TasksMilestones(TaskItems(ts), show) == Success(TaskLines(ts))
    decreases |ts|
  {
    if ts != [] {
      var init := ts[..|ts| - 1];
      assert TaskItems(ts)[..|ts| - 1] == TaskItems(init);
      TaskItemsMilestones(init, show);
      TaskJsonLine(ts[|ts| - 1], show);
    }
  }

  /** Reading milestones off the JSON form of a typed timeline never raises and gives its High-task lines. */
  lemma {:induction false} TimelineJsonMilestones(tl: seq<Phase>, show: Json -> string)
    ensures PhasesMilestones(PhaseItems(tl), show) == Success(MilestoneLines(tl))
    decreases |tl|
  {
    if tl != [] {
      var init, last := tl[..|tl| - 1], tl[|tl| - 1];
      var items := PhaseItems(tl);
      assert items[..|tl| - 1] == PhaseItems(init);
      assert items[|tl| - 1] == PhaseJson(last);
      TimelineJsonMilestones(init, show);
      PhaseJsonTasks(last);
      TaskItemsMilestones(last.tasks, show);
    }
  }

  lemma TwoHighTaskLines(p: Phase)
    requires TwoHighTasks(p)
    ensures |TaskLines(p.tasks)| == 2
  {
    var ts := p.tasks;
    assert ts[0] in ts && ts[1] in ts;
    assert ts[..1][..0] == [] && ts[..1][0] == ts[0];
    assert |TaskLines(ts[..1])| == 1;
    assert ts[..1] == ts[..|ts| - 1];
    assert |TaskLines(ts)| == 2;
  }

  /** The banded timeline has 6, 4 or 2 High-priority tasks. */
  lemma BandedMilestoneLines(days: int)
    ensures |MilestoneLines(Banded(days))| == if days >= 14 then 6 else if days >= 7 then 4 else 2
  {
    var tl := Banded(days);
    forall k | 0 <= k < |tl| ensures |TaskLines(tl[k].tasks)| == 2 {
      assert tl[k] in tl;
      TwoHighTaskLines(tl[k]);
    }
    var n := |tl|;
    if n >= 1 { assert tl[..1][..0] == []; }
    if n >= 2 { assert tl[..2][..1] == tl[..1]; }
    if n >= 3 { assert tl[..3][..2] == tl[..2]; }
    assert tl[..n] == tl;
    assert |MilestoneLines(tl[..1])| == 2;
    if n >= 2 { assert |MilestoneLines(tl[..2])| == 4; }
    if n >= 3 { assert |MilestoneLines(tl[..3])| == 6; }
  }

  /**
   * The key milestones of the banded timeline are the first five of its
   * High-task lines: 5, 4 or 2 of them.
   */
  lemma BandedMilestoneCount(days: int, show: Json -> string)
    ensures Milestones(TimelineJson(Banded(days)), show) == Success(Take(MilestoneLines(Banded(days)), 5))
    ensures |Take(MilestoneLines(Banded(days)), 5)| == if days >= 14 then 5 else if days >= 7 then 4 else 2
  {
    TimelineJsonMilestones(Banded(days), show);
    BandedMilestoneLines(days);
  }
}
