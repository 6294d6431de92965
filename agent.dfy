/** The agent's orchestration (ai_agent/agent.py): tasks from a plan, automation
    suggestions, next steps, script dispatch and the dashboard. */
module Agent {
  import opened Wrappers
  import opened Seqs
  import opened IntText
  import opened Plans
  import opened Tasks

  // ---------------------------------------------------------------------------------------
  // Tasks from a plan

  /** How many leading steps have offsets that parse: the loop of `_create_tasks_from_plan`
      gets this far before `parse_due_offset` raises, or through all steps. */
  function ParsedPrefix(steps: seq<PlanStep>): (k: nat)
    ensures k <= |steps|
    ensures forall i :: 0 <= i < k ==> ParseDueOffset(steps[i].dueOffset).Success?
    ensures k < |steps| ==> ParseDueOffset(steps[k].dueOffset).Failure?
  {
    if |steps| == 0 || ParseDueOffset(steps[0].dueOffset).Failure? then 0
    else
      var k := ParsedPrefix(steps[1..]);
      assert forall i :: 1 <= i < k + 1 ==> steps[i] == steps[1..][i - 1];
      k + 1
  }

  /** The prefix ends at the first step whose offset fails, or at the end. */
  lemma ParsedPrefixAt(steps: seq<PlanStep>, i: nat)
    requires i <= |steps| && OffsetsParse(steps[..i])
    requires i < |steps| ==> ParseDueOffset(steps[i].dueOffset).Failure?
    ensures ParsedPrefix(steps) == i
  {
    assert forall j :: 0 <= j < i ==> steps[..i][j] == steps[j];
  }

  /** The task made for one step: pending, titled after the step and due the parsed offset
      after the shared base time. */
  function TaskFor(step: PlanStep, planId: int, baseTime: int, id: int): (t: Task)
    requires ParseDueOffset(step.dueOffset).Success?
    ensures t.id == id && t.planId == planId && t.title == step.title
    ensures t.status == Pending && t.completedAt == None
    ensures t.dueAt - baseTime == ParseDueOffset(step.dueOffset).value
  {
    Task(id, planId, step.title, baseTime + StepMinutes(step), Pending, None)
  }

  /** The tasks made for the steps, with consecutive ids from `firstId`. */
  function TasksFor(steps: seq<PlanStep>, planId: int, baseTime: int, firstId: int): (r: seq<Task>)
    requires OffsetsParse(steps)
    ensures |r| == |steps|
    ensures forall k :: 0 <= k < |r| ==> r[k].id == firstId + k && r[k].title == steps[k].title
  {
    seq(|steps|, k requires 0 <= k < |steps| => TaskFor(steps[k], planId, baseTime, firstId + k))
  }

  /** One task per step in step order: the step's title, the plan's id, pending, consecutive
      ids, and due at the base time plus the step's offset. */
  lemma TasksForShape(steps: seq<PlanStep>, planId: int, baseTime: int, firstId: int)
    requires OffsetsParse(steps)
    ensures var r := TasksFor(steps, planId, baseTime, firstId);
      && |r| == |steps|
      && forall k :: 0 <= k < |steps| ==>
        && r[k].id == firstId + k && r[k].planId == planId && r[k].title == steps[k].title
        && r[k].status == Pending && r[k].completedAt == None
        && r[k].dueAt == baseTime + OffsetMinutes(steps)[k]
  {
  }

  /** Non-decreasing step offsets give non-decreasing due times. */
  lemma TasksForDueOrder(steps: seq<PlanStep>, planId: int, baseTime: int, firstId: int)
    requires OffsetsParse(steps) && NonDecreasing(OffsetMinutes(steps))
    ensures var r := TasksFor(steps, planId, baseTime, firstId);
      forall i, j :: 0 <= i <= j < |r| ==> r[i].dueAt <= r[j].dueAt
  {
  }

  /** Extending the steps by one extends the tasks by that step's task. */
  lemma TasksForSnoc(steps: seq<PlanStep>, i: nat, planId: int, baseTime: int, firstId: int)
    requires i < |steps| && OffsetsParse(steps[..i]) && ParseDueOffset(steps[i].dueOffset).Success?
    ensures OffsetsParse(steps[..i + 1])
    ensures TasksFor(steps[..i + 1], planId, baseTime, firstId) ==
      TasksFor(steps[..i], planId, baseTime, firstId) + [TaskFor(steps[i], planId, baseTime, firstId + i)]
  {
  }

  /** A generated plan's steps all parse, the first task is due at the base time itself and
      the due times never go back. */
  lemma GeneratedPlanTasks(problemId: int, now: int, baseTime: int, firstId: int)
    ensures var steps := GeneratePlan(problemId, now).steps;
      && ParsedPrefix(steps) == |steps| == 6
      && var r := TasksFor(steps, 1, baseTime, firstId);
      && r[0].dueAt == baseTime
      && forall i, j :: 0 <= i <= j < 6 ==> r[i].dueAt <= r[j].dueAt
  {
    GeneratedPlanWellFormed(problemId, now);
    var steps := GeneratePlan(problemId, now).steps;
    ZeroHours();
    TasksForDueOrder(steps, 1, baseTime, firstId);
  }

  /** Steps due at "0h", "1h", "2h" and so on give one task per step, in step order, due 0,
      60, 120, ... minutes after the base time. */
  lemma HourlySteps(steps: seq<PlanStep>, planId: int, baseTime: int, firstId: int)
    requires forall i :: 0 <= i < |steps| ==> steps[i].dueOffset == ShowInt(i) + ['h']
    ensures ParsedPrefix(steps) == |steps|
    ensures var r := TasksFor(steps, planId, baseTime, firstId);
      && |r| == |steps|
      && forall i :: 0 <= i < |r| ==> r[i].title == steps[i].title && r[i].dueAt == baseTime + 60 * i
  {
    HourlyOffsets(steps);
    assert steps[..|steps|] == steps;
    ParsedPrefixAt(steps, |steps|);
    TasksForShape(steps, planId, baseTime, firstId);
  }

  lemma HourlyOffsets(steps: seq<PlanStep>)
    requires forall i :: 0 <= i < |steps| ==> steps[i].dueOffset == ShowInt(i) + ['h']
    ensures OffsetsParse(steps)
    ensures forall i :: 0 <= i < |steps| ==> OffsetMinutes(steps)[i] == 60 * i
  {
    forall i | 0 <= i < |steps| ensures ParseDueOffset(steps[i].dueOffset) == Success(60 * i) {
      ParseUnitOffset(i, 'h');
    }
    assert OffsetsParse(steps);
  }

  // ---------------------------------------------------------------------------------------
  // Automation suggestions

  datatype Suggestion = Suggestion(automationType: string, script: string, description: string, estimatedTimeSaved: string)

  const BudgetKeywords: seq<string> := ["budget", "money", "expense", "cost", "financial"]
  const ProductivityKeywords: seq<string> := ["schedule", "time", "productivity", "routine", "organize"]

  const BudgetSuggestion := Suggestion("budget", "create_snapshot",
    "Create a budget snapshot to track your finances", "30 minutes")
  const ProductivitySuggestion := Suggestion("productivity", "create_schedule",
    "Create a daily schedule to optimize your time", "15 minutes daily")

  /** `str.lower` on ASCII letters. */
  function LowerChar(c: char): char {
    if 'A' <= c <= 'Z' then ((c as int) + 32) as char else c
  }

  function Lower(s: string): (r: string)
    ensures |r| == |s| && forall i :: 0 <= i < |s| ==> r[i] == LowerChar(s[i])
  {
    seq(|s|, i requires 0 <= i < |s| => LowerChar(s[i]))
  }

  /** Python's substring test `needle in text`. */
  function Contains(text: string, needle: string): (r: bool)
    ensures r ==> |needle| <= |text|
    ensures |needle| <= |text| && text[..|needle|] == needle ==> r
    decreases |text|
  {
    if |needle| > |text| then false
    else text[..|needle|] == needle || (|text| > 0 && Contains(text[1..], needle))
  }

  /** The needle occurs in the text starting at position `i`. */
  predicate OccursAt(text: string, needle: string, i: int) {
    0 <= i <= |text| - |needle| && text[i..i + |needle|] == needle
  }

  /** `needle in text` holds exactly when the needle occurs at some position. */
  lemma {:induction false} ContainsIff(text: string, needle: string)
    ensures Contains(text, needle) <==> exists i :: OccursAt(text, needle, i)
    decreases |text|
  {
    if |needle| <= |text| && |text| > 0 {
      ContainsIff(text[1..], needle);
      if text[..|needle|] == needle {
        assert OccursAt(text, needle, 0);
      }
      if Contains(text[1..], needle) {
        var i :| OccursAt(text[1..], needle, i);
        assert text[1..][i..i + |needle|] == text[i + 1..i + 1 + |needle|];
        assert OccursAt(text, needle, i + 1);
      }
      if exists i :: OccursAt(text, needle, i) {
        var i :| OccursAt(text, needle, i);
        if i > 0 {
          assert text[1..][i - 1..i - 1 + |needle|] == text[i..i + |needle|];
          assert OccursAt(text[1..], needle, i - 1);
        } else {
          assert text[..|needle|] == needle;
        }
      }
    } else if |needle| <= |text| {
      assert OccursAt(text, needle, 0);
    }
  }

  /** `any(keyword in text for keyword in keywords)`. */
  function AnyIn(text: string, keywords: seq<string>): (r: bool)
    ensures r ==> |keywords| > 0
    ensures forall i :: 0 <= i < |keywords| && Contains(text, keywords[i]) ==> r
  {
    if |keywords| == 0 then false
    else Contains(text, keywords[0]) || AnyIn(text, keywords[1..])
  }

  /** Some keyword of the list occurs in the text. */
  lemma {:induction false} AnyInIff(text: string, keywords: seq<string>)
    ensures AnyIn(text, keywords) <==> exists k :: k in keywords && Contains(text, k)
  {
    if |keywords| > 0 {
      AnyInIff(text, keywords[1..]);
      if AnyIn(text, keywords[1..]) {
        var k :| k in keywords[1..] && Contains(text, k);
        assert k in keywords;
      }
      if exists k :: k in keywords && Contains(text, k) {
        var k :| k in keywords && Contains(text, k);
        if k != keywords[0] {
          assert k in keywords[1..];
        }
      }
    }
  }

  /** `_suggest_automations`: the budget suggestion when the lowercased summary mentions a
      budget keyword, then the productivity one when it mentions a productivity keyword. */
  function SuggestAutomations(plan: Plan): (r: seq<Suggestion>)
    ensures |r| <= 2
    ensures BudgetSuggestion in r <==>
      exists k :: k in BudgetKeywords && Contains(Lower(plan.summary), k)
    ensures ProductivitySuggestion in r <==>
      exists k :: k in ProductivityKeywords && Contains(Lower(plan.summary), k)
    ensures forall s :: s in r ==> s == BudgetSuggestion || s == ProductivitySuggestion
    ensures |r| == 2 ==> r == [BudgetSuggestion, ProductivitySuggestion]
  {
    var summary := Lower(plan.summary);
    AnyInIff(summary, BudgetKeywords);
    AnyInIff(summary, ProductivityKeywords);
    (if AnyIn(summary, BudgetKeywords) then [BudgetSuggestion] else [])
    + (if AnyIn(summary, ProductivityKeywords) then [ProductivitySuggestion] else [])
  }

  /** The finance plan gets the budget suggestion: its summary ends in "budget". */
  lemma FinancePlanSuggestsBudget()
    ensures BudgetSuggestion in SuggestAutomations(GeneratePlan(3, 0))
  {
    var text := Lower(FinanceTemplate.summary);
    assert Contains(text, "budget") by {
      assert text[39..45] == "budget";
      assert OccursAt(text, "budget", 39);
      ContainsIff(text, "budget");
    }
    assert "budget" in BudgetKeywords;
  }

  // ---------------------------------------------------------------------------------------
  // Next steps

  const GeneralAdvice: seq<string> := [
    "Review all tasks and their due dates",
    "Set up reminders for important deadlines",
    "Consider running suggested automation scripts",
    "Track your progress and adjust the plan as needed" ]

  function PendingOf(tasks: seq<Task>): (r: seq<Task>)
    ensures forall t :: t in r <==> t in tasks && t.status == Pending
  {
    Filter(tasks, (t: Task) => t.status == Pending)
  }

  /** Python's `min(s, key=due)`: the first task with the smallest due time. */
  function EarliestIndex(s: seq<Task>): (i: nat)
    requires |s| > 0
    ensures i < |s|
    ensures forall j :: 0 <= j < |s| ==> s[i].dueAt <= s[j].dueAt
    ensures forall j :: 0 <= j < i ==> s[j].dueAt > s[i].dueAt
  {
    if |s| == 1 then 0
    else
      var k := EarliestIndex(s[1..]) + 1;
      assert forall j :: 1 <= j < |s| ==> s[j] == s[1..][j - 1];
      if s[0].dueAt <= s[k].dueAt then 0 else k
  }

  /** `_generate_next_steps` (its plan argument is unused). */
  function GenerateNextSteps(tasks: seq<Task>): (r: seq<string>)
    ensures |r| >= 4 && r[|r| - 4..] == GeneralAdvice
    ensures |r| == 5 <==> exists t :: t in tasks && t.status == Pending
    ensures (forall t :: t in tasks ==> t.status != Pending) ==> r == GeneralAdvice
    ensures |r| == 5 ==> var pending := PendingOf(tasks); exists i ::
      && 0 <= i < |pending|
      && r[0] == "Start with: " + pending[i].title
      && (forall j :: 0 <= j < |pending| ==> pending[i].dueAt <= pending[j].dueAt)
      && (forall j :: 0 <= j < i ==> pending[j].dueAt > pending[i].dueAt)
  {
    var pending := PendingOf(tasks);
    if |pending| > 0 then
      var first := pending[EarliestIndex(pending)];
      assert forall u :: u in pending ==> first.dueAt <= u.dueAt;
      ["Start with: " + first.title] + GeneralAdvice
    else
      GeneralAdvice
  }

  // ---------------------------------------------------------------------------------------
  // Automation dispatch

  /** The registry: automation types and the script names registered under each. */
  const AutomationRegistry: map<string, set<string>> := map[
    "budget" := {"create_snapshot", "analyze"},
    "productivity" := {"create_schedule", "focus_timer"} ]

  /** What calling a registered script does: it returns a value or raises with a message. */
  datatype ScriptOutcome<R> = Returned(value: R) | Raised(message: string)

  /** The record `execute_automation` returns; `result` is set on success, `error` on failure. */
  datatype ExecutionRecord<P, R> = ExecutionRecord(
    automationType: string, scriptName: string, parameters: P,
    result: Option<R>, error: Option<string>, status: string, executedAt: int)

  /** `execute_automation`: the two ValueErrors for an unknown type or script, raised before
      any script runs; otherwise the script's outcome wrapped as a success or failure record.
      The script call itself is the parameter `run`. */
  function ExecuteAutomation<P, R>(automationType: string, scriptName: string, parameters: P,
                                   run: (string, string, P) -> ScriptOutcome<R>, now: int)
    : (r: Result<ExecutionRecord<P, R>, string>)
    ensures automationType !in AutomationRegistry ==>
      r == Failure("Unknown automation type: " + automationType)
    ensures r.Failure? <==>
      automationType !in AutomationRegistry || scriptName !in AutomationRegistry[automationType]
    ensures automationType in AutomationRegistry && scriptName !in AutomationRegistry[automationType] ==>
      r == Failure("Unknown script: " + scriptName + " for type " + automationType)
    ensures r.Success? ==>
      && r.value.automationType == automationType && r.value.scriptName == scriptName
      && r.value.parameters == parameters && r.value.executedAt == now
      && (r.value.status == "success" <==> run(automationType, scriptName, parameters).Returned?)
      && (r.value.status == "success" || r.value.status == "failed")
      && (match run(automationType, scriptName, parameters)
          case Returned(v) => r.value.result == Some(v) && r.value.error == None
          case Raised(m) => r.value.result == None && r.value.error == Some(m))
  {
    if automationType !in AutomationRegistry then
      Failure("Unknown automation type: " + automationType)
    else if scriptName !in AutomationRegistry[automationType] then
      Failure("Unknown script: " + scriptName + " for type " + automationType)
    else
      match run(automationType, scriptName, parameters)
      case Returned(v) =>
        Success(ExecutionRecord(automationType, scriptName, parameters, Some(v), None, "success", now))
      case Raised(m) =>
        Success(ExecutionRecord(automationType, scriptName, parameters, None, Some(m), "failed", now))
  }

  /** An unregistered name is rejected whatever the script would have done: nothing runs. */
  lemma UnknownIgnoresScript<P, R>(automationType: string, scriptName: string, parameters: P,
                                   run1: (string, string, P) -> ScriptOutcome<R>,
                                   run2: (string, string, P) -> ScriptOutcome<R>, now: int)
    requires automationType !in AutomationRegistry || scriptName !in AutomationRegistry[automationType]
    ensures ExecuteAutomation(automationType, scriptName, parameters, run1, now) ==
      ExecuteAutomation(automationType, scriptName, parameters, run2, now)
  {
  }

  /** The four registered scripts, and only they, get past the lookup. */
  lemma RegisteredScripts<P, R>(automationType: string, scriptName: string, parameters: P,
                                run: (string, string, P) -> ScriptOutcome<R>, now: int)
    ensures ExecuteAutomation(automationType, scriptName, parameters, run, now).Success? <==>
      (automationType, scriptName) in {("budget", "create_snapshot"), ("budget", "analyze"),
        ("productivity", "create_schedule"), ("productivity", "focus_timer")}
  {
  }

  // ---------------------------------------------------------------------------------------
  // Dashboard

  const Completed := "completed"

  datatype TaskSummary = TaskSummary(totalTasks: int, pendingTasks: int, completedTasks: int, overdueTasks: int)

  datatype Dashboard = Dashboard(
    userId: Option<int>, generatedAt: int, taskSummary: TaskSummary,
    upcomingTasks: seq<Task>, recentCompletions: seq<Task>, recommendations: seq<string>)

  function CompletedOf(tasks: seq<Task>): (r: seq<Task>)
    ensures forall t :: t in r <==> t in tasks && t.status == Completed
  {
    Filter(tasks, (t: Task) => t.status == Completed)
  }

  /** The pending tasks due strictly before `now`. */
  function OverdueOf(pending: seq<Task>, now: int): (r: seq<Task>)
    ensures forall t :: t in r <==> t in pending && t.dueAt < now
  {
    Filter(pending, (t: Task) => t.dueAt < now)
  }

  /** The key of `sorted(pending, key=due_at)`. */
  predicate DueBefore(a: Task, b: Task) { a.dueAt < b.dueAt }

  /** `x.get("completed_at", "")` compared as strings: a missing key is the empty string,
      which sorts before every timestamp. */
  predicate CompletionKeyLess(a: Option<int>, b: Option<int>) {
    match (a, b)
    case (None, Some(_)) => true
    case (Some(x), Some(y)) => x < y
    case _ => false
  }

  /** Order of `sorted(..., reverse=True)` on that key: a comes first when its key is larger. */
  predicate CompletedLater(a: Task, b: Task) { CompletionKeyLess(b.completedAt, a.completedAt) }

  const ManyPendingMessage := "You have many pending tasks. Consider prioritizing the most important ones."
  const NothingPendingMessage := "Great job! You have no pending tasks. Consider creating a new plan for your next goal."

  /** The overdue message, which never equals the two fixed ones: they end differently. */
  function OverdueMessage(n: int): (m: string)
    ensures m != ManyPendingMessage && m != NothingPendingMessage
  {
    var tail := " overdue tasks. Consider rescheduling or completing them.";
    var m := "You have " + ShowInt(n) + tail;
    assert m[|m| - 2] == tail[|tail| - 2] == 'm';
    assert ManyPendingMessage[|ManyPendingMessage| - 2] == 's';
    assert NothingPendingMessage[|NothingPendingMessage| - 2] == 'l';
    m
  }

  /** The recommendations, in the order the dashboard adds them. */
  function Recommendations(overdue: nat, pending: nat): (r: seq<string>)
    ensures forall m :: m in r ==> m == OverdueMessage(overdue) || m == ManyPendingMessage || m == NothingPendingMessage
    ensures r == [] <==> overdue == 0 && 1 <= pending <= 10
    ensures overdue > 0 ==> |r| > 0 && r[0] == OverdueMessage(overdue)
    ensures |r| == (if overdue > 0 then 1 else 0) + (if pending > 10 then 1 else 0) + (if pending == 0 then 1 else 0)
  {
    (if overdue > 0 then [OverdueMessage(overdue)] else [])
    + (if pending > 10 then [ManyPendingMessage] else [])
    + (if pending == 0 then [NothingPendingMessage] else [])
  }

  /** `get_user_dashboard` over the stored tasks, with the clock reading as `now`. */
  function UserDashboard(all: seq<Task>, userId: Option<int>, now: int): (d: Dashboard)
    ensures d.userId == userId && d.generatedAt == now
  {
    var pending := PendingOf(all);
    var completed := CompletedOf(all);
    var overdue := OverdueOf(pending, now);
    Dashboard(
      userId, now,
      TaskSummary(|all|, |pending|, |completed|, |overdue|),
      Take(SortBy(pending, DueBefore), 5),
      Take(SortBy(completed, CompletedLater), 3),
      Recommendations(|overdue|, |pending|))
  }

  /** The counts: every task in the total, pending and completed by status, overdue among the
      pending; so overdue <= pending and pending + completed <= total. */
  lemma DashboardCounts(all: seq<Task>, userId: Option<int>, now: int)
    ensures var s := UserDashboard(all, userId, now).taskSummary;
      && s.totalTasks == |all|
      && s.pendingTasks == |PendingOf(all)| && s.completedTasks == |CompletedOf(all)|
      && s.overdueTasks == |OverdueOf(PendingOf(all), now)|
      && 0 <= s.overdueTasks <= s.pendingTasks
      && s.pendingTasks + s.completedTasks <= s.totalTasks
  {
    FilterDisjoint(all, (t: Task) => t.status == Pending, (t: Task) => t.status == Completed);
  }

  /** The thresholds of the recommendations, given that overdue tasks are pending ones. */
  lemma RecommendationsIff(overdue: nat, pending: nat)
    requires overdue <= pending
    ensures var r := Recommendations(overdue, pending);
      && (OverdueMessage(overdue) in r <==> overdue >= 1)
      && (ManyPendingMessage in r <==> pending > 10)
      && (NothingPendingMessage in r <==> pending == 0)
      && !(OverdueMessage(overdue) in r && NothingPendingMessage in r)
  {
  }

  /** Each recommendation appears exactly when its threshold holds, and the overdue and
      nothing-pending ones never appear together. */
  lemma DashboardRecommendations(all: seq<Task>, userId: Option<int>, now: int)
    ensures var d := UserDashboard(all, userId, now);
      var s := d.taskSummary;
      && (OverdueMessage(s.overdueTasks) in d.recommendations <==> s.overdueTasks >= 1)
      && (ManyPendingMessage in d.recommendations <==> s.pendingTasks > 10)
      && (NothingPendingMessage in d.recommendations <==> s.pendingTasks == 0)
      && !(OverdueMessage(s.overdueTasks) in d.recommendations && NothingPendingMessage in d.recommendations)
  {
    DashboardCounts(all, userId, now);
    var pending := PendingOf(all);
    RecommendationsIff(|OverdueOf(pending, now)|, |pending|);
  }

  lemma DueBeforeOrder()
    ensures StrictWeakOrder(DueBefore)
  {
  }

  lemma CompletedLaterOrder()
    ensures StrictWeakOrder(CompletedLater)
  {
  }

  /** `upcoming_tasks`: at most five pending tasks, in ascending due order, and no pending task
      left out is due before one shown. */
  lemma DashboardUpcoming(all: seq<Task>, userId: Option<int>, now: int)
    ensures var up := UserDashboard(all, userId, now).upcomingTasks;
      var pending := PendingOf(all);
      && |up| == Min(5, |pending|)
      && (forall t :: t in up ==> t in all && t.status == Pending)
      && multiset(up) <= multiset(pending)
      && (forall i, j :: 0 <= i < j < |up| ==> up[i].dueAt <= up[j].dueAt)
      && (forall x, y :: x in up && y in multiset(pending) - multiset(up) ==> x.dueAt <= y.dueAt)
  {
    var pending := PendingOf(all);
    var up := Take(SortBy(pending, DueBefore), 5);
    assert UserDashboard(all, userId, now).upcomingTasks == up;
    DueBeforeOrder();
    TakeOfSortBy(pending, DueBefore, 5);
    forall t | t in up ensures t in pending {
      assert t in multiset(up);
    }
    forall i, j | 0 <= i < j < |up| ensures up[i].dueAt <= up[j].dueAt {
      assert !DueBefore(up[j], up[i]);
    }
    forall x, y | x in up && y in multiset(pending) - multiset(up) ensures x.dueAt <= y.dueAt {
      assert !DueBefore(y, x);
    }
  }

  function TaskId(t: Task): int { t.id }

  /** The `n` earliest of a list in increasing id order: ties in id order, and a task left
      out that is due with one taken has a larger id. */
  lemma EarliestStable(pending: seq<Task>, n: nat)
    requires forall i, j :: 0 <= i < j < |pending| ==> TaskId(pending[i]) < TaskId(pending[j])
    ensures var up := Take(SortBy(pending, DueBefore), n);
      && (forall i, j :: 0 <= i < j < |up| && up[i].dueAt == up[j].dueAt ==> up[i].id < up[j].id)
      && (forall x, y :: x in up && y in multiset(pending) - multiset(up) && x.dueAt == y.dueAt ==> x.id < y.id)
  {
    TakeOfSortByStable(pending, DueBefore, TaskId, n);
    var up := Take(SortBy(pending, DueBefore), n);
    assert TiesRanked(up, DueBefore, TaskId);
    forall x, y | x in up && y in multiset(pending) - multiset(up) && x.dueAt == y.dueAt ensures x.id < y.id {
      assert !DueBefore(x, y);
      assert TaskId(x) < TaskId(y);
    }
  }

  /** The stable sort keeps tied pending tasks in stored order: when the stored ids increase,
      tasks due at the same time are shown in increasing id order, and a pending task left out
      that is due with one shown has a larger id. */
  lemma DashboardUpcomingStable(all: seq<Task>, userId: Option<int>, now: int)
    requires IdsIncreasing(all)
    ensures var up := UserDashboard(all, userId, now).upcomingTasks;
      var pending := PendingOf(all);
      && (forall i, j :: 0 <= i < j < |up| && up[i].dueAt == up[j].dueAt ==> up[i].id < up[j].id)
      && (forall x, y :: x in up && y in multiset(pending) - multiset(up) && x.dueAt == y.dueAt ==> x.id < y.id)
  {
    var pending := PendingOf(all);
    assert UserDashboard(all, userId, now).upcomingTasks == Take(SortBy(pending, DueBefore), 5);
    FilterKeepsOrder(all, (t: Task) => t.status == Pending, (a: Task, b: Task) => a.id < b.id);
    forall i, j | 0 <= i < j < |pending| ensures TaskId(pending[i]) < TaskId(pending[j]) {
      assert ((a: Task, b: Task) => a.id < b.id)(pending[i], pending[j]);
    }
    EarliestStable(pending, 5);
  }

  /** `recent_completions`: at most three completed tasks, latest completion first, and no
      completed task left out was completed later than one shown. */
  lemma DashboardRecent(all: seq<Task>, userId: Option<int>, now: int)
    ensures var recent := UserDashboard(all, userId, now).recentCompletions;
      var completed := CompletedOf(all);
      && |recent| == Min(3, |completed|)
      && (forall t :: t in recent ==> t in all && t.status == Completed)
      && multiset(recent) <= multiset(completed)
      && (forall i, j :: 0 <= i < j < |recent| ==> !CompletedLater(recent[j], recent[i]))
      && (forall x, y :: x in recent && y in multiset(completed) - multiset(recent) ==> !CompletedLater(y, x))
  {
    var completed := CompletedOf(all);
    var recent := Take(SortBy(completed, CompletedLater), 3);
    CompletedLaterOrder();
    TakeOfSortBy(completed, CompletedLater, 3);
    forall t | t in recent ensures t in completed {
      assert t in multiset(recent);
    }
  }

  /** With no `completed_at` recorded, every key ties and the stable sort keeps stored order:
      the recent completions are the first three completed tasks. */
  lemma RecentWithoutTimestamps(all: seq<Task>, userId: Option<int>, now: int)
    requires forall i :: 0 <= i < |all| ==> all[i].completedAt == None
    ensures UserDashboard(all, userId, now).recentCompletions == Take(CompletedOf(all), 3)
  {
    var completed := CompletedOf(all);
    forall i, j | 0 <= i < |completed| && 0 <= j < |completed| ensures !CompletedLater(completed[i], completed[j]) {
      assert completed[i] in all && completed[j] in all;
    }
    SortByAllTied(completed, CompletedLater);
  }

  /** One pending task due a day before `now`, one due a day after: one overdue, the overdue
      message, and the earlier task listed first. */
  lemma OverdueExample(now: int)
    ensures var a := Task(1, 1, "a", now - 1440, Pending, None);
      var b := Task(2, 1, "b", now + 1440, Pending, None);
      var d := UserDashboard([a, b], None, now);
      && d.taskSummary == TaskSummary(2, 2, 0, 1)
      && d.recommendations == [OverdueMessage(1)]
      && d.upcomingTasks == [a, b]
  {
    var a := Task(1, 1, "a", now - 1440, Pending, None);
    var b := Task(2, 1, "b", now + 1440, Pending, None);
    assert [a, b][1..] == [b] && [b][1..] == [];
    assert Pending != Completed;
    assert PendingOf([a, b]) == [a, b];
    assert CompletedOf([b]) == [];
    assert CompletedOf([a, b]) == [];
    assert OverdueOf([b], now) == [];
    assert OverdueOf([a, b], now) == [a];
    assert SortBy([b], DueBefore) == [b];
  }

  // ---------------------------------------------------------------------------------------
  // The agent object

  class LifeHackAgent {
    const taskManager: TaskManager

    constructor()
      ensures fresh(taskManager)
      ensures taskManager.tasks == [] && taskManager.nextId == 1 && taskManager.Valid()
    {
      taskManager := new TaskManager();
    }

    /** The loop body's `add_task` followed by `get_task` on the id it returned, which finds
        the task just added. */
    method AddAndFetch(planId: int, title: string, dueAt: int) returns (task: Task)
      requires taskManager.Valid()
      modifies taskManager
      ensures task == Task(old(taskManager.nextId), planId, title, dueAt, Pending, None)
      ensures taskManager.tasks == old(taskManager.tasks) + [task]
      ensures taskManager.nextId == old(taskManager.nextId) + 1
      ensures taskManager.Valid()
    {
      var id := taskManager.AddTask(planId, title, dueAt);
      IndexOfUnique(taskManager.tasks, taskManager.nextId, |taskManager.tasks| - 1);
      var found := taskManager.GetTask(id);
      task := found.value;
    }

    /** `_create_tasks_from_plan`: adds one task per step, in step order, all timed from the
        one base time. A step whose offset does not parse raises; the tasks added before it
        stay in the store. */
    method CreateTasksFromPlan(plan: Plan, baseTime: int) returns (r: Result<seq<Task>, OffsetError>)
      requires taskManager.Valid()
      modifies taskManager
      ensures taskManager.Valid()
      ensures var k := ParsedPrefix(plan.steps);
        && OffsetsParse(plan.steps[..k])
        && taskManager.nextId == old(taskManager.nextId) + k
        && taskManager.tasks == old(taskManager.tasks)
             + TasksFor(plan.steps[..k], plan.planId, baseTime, old(taskManager.nextId))
        && (if k == |plan.steps|
            then r == Success(TasksFor(plan.steps[..k], plan.planId, baseTime, old(taskManager.nextId)))
            else r == Failure(ParseDueOffset(plan.steps[k].dueOffset).error))
    {
      var steps := plan.steps;
      ghost var before := taskManager.tasks;
      ghost var firstId := taskManager.nextId;
      var created: seq<Task> := [];
      var i := 0;
      while i < |steps|
        invariant 0 <= i <= |steps|
        invariant OffsetsParse(steps[..i])
        invariant created == TasksFor(steps[..i], plan.planId, baseTime, firstId)
        invariant taskManager.tasks == before + created
        invariant taskManager.nextId == firstId + i
        invariant taskManager.Valid()
      {
        var offset := ParseDueOffset(steps[i].dueOffset);
        if offset.Failure? {
          ParsedPrefixAt(steps, i);
          return Failure(offset.error);
        }
        var task := AddAndFetch(plan.planId, steps[i].title, baseTime + offset.value);
        TasksForSnoc(steps, i, plan.planId, baseTime, firstId);
        created := created + [task];
        i := i + 1;
      }
      ParsedPrefixAt(steps, i);
      assert steps[..i] == steps;
      return Success(created);
    }

    /** `get_user_dashboard`: reads the store and changes nothing. */
    method GetUserDashboard(userId: Option<int>, now: int) returns (d: Dashboard)
      ensures d == UserDashboard(taskManager.tasks, userId, now)
    {
      var all := taskManager.GetAllTasks();
      d := UserDashboard(all, userId, now);
    }
  }

  /** On a store that never records completion times, the dashboard's recent completions are
      the first three completed tasks in stored order. */
  lemma StoreRecentInStoredOrder(m: TaskManager, userId: Option<int>, now: int)
    requires m.Valid()
    ensures UserDashboard(m.tasks, userId, now).recentCompletions == Take(CompletedOf(m.tasks), 3)
  {
    RecentWithoutTimestamps(m.tasks, userId, now);
  }

  /** On the store, whose ids increase, tied upcoming tasks are shown in creation order. */
  lemma StoreUpcomingStable(m: TaskManager, userId: Option<int>, now: int)
    requires m.Valid()
    ensures var up := UserDashboard(m.tasks, userId, now).upcomingTasks;
      forall i, j :: 0 <= i < j < |up| && up[i].dueAt == up[j].dueAt ==> up[i].id < up[j].id
  {
    DashboardUpcomingStable(m.tasks, userId, now);
  }
}
