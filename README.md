# LifeHackAI core in Dafny

LifeHackAI turns a user's everyday problem into a plan and then into tasks. A problem id picks one
of four fixed plan templates: shopping, productivity, finance or general. Each template has six
steps. Each step has a due offset such as `"2h"` or `"14d"`. When a plan becomes tasks, every
offset is added to one shared base time. The tasks are kept in an in-memory store with an id
counter. The agent also suggests automations from keywords in the plan summary, lists next steps,
dispatches automation scripts through a registry, and builds a dashboard of counts, upcoming
tasks, recent completions and recommendations. The productivity runner builds a daily schedule
of one-hour blocks and a focus timer. The API request models validate problem, task and plan
step bodies.

The model is split into these modules:

- `Wrappers` holds `Option` and `Result`. A Python exception becomes a `Failure` or `None`.
- `Seqs` holds list comprehensions (`Filter`), slicing (`Take`) and Python's stable `sorted`
  (`SortBy`, an insertion sort over a strict weak order).
- `IntText` holds `int()` on decimal text and `str()` on integers.
- `Plans` holds `backend/plans.py`: the templates, `generate_plan` and `parse_due_offset`.
- `Tasks` holds `backend/tasks.py`. `TaskManager` is a class whose methods update its `tasks` and
  `nextId` fields in place.
- `Agent` holds `ai_agent/agent.py`. `LifeHackAgent` is a class holding its task manager.
  Task creation is a method with a loop. Suggestions, next steps, dispatch and the dashboard are
  functions, because the source only reads in them.
- `Productivity` holds `create_daily_schedule`, as a method with a loop, and `set_focus_timer`.
- `Models` holds the required fields, length bounds and status pattern of the API models.

Modelling choices:

- Time is an integer count of minutes. Clock readings (`datetime.now()`) are parameters: the
  base time of a task batch, a plan's generation instant, a timer's start, and the `now` of the
  dashboard and of the schedule. Where the source reads the clock twice in one call, the model
  uses one reading for both (see "## Left out").
- The ISO timestamps the source stores and compares become those integers. ISO strings of one
  format sort like the instants they name.
- A schedule's date is the midnight of `now`, that is `now - now % 1440`.
- `parse_due_offset` always treats the last character as the unit and gives everything before
  it to `int()`. A last character other than `h`, `d` or `w` is dropped, and the rest is read
  as minutes. So `"45m"` is 45, and a bare `"30"` loses its last digit and is 3.
- `int()` is modelled on ASCII text. It skips space and the characters tab to carriage return
  at both ends. It accepts one optional sign and digits with single underscores between them.

## Model

| member | source | states |
|---|---|---|
| IntText.ParseShowInt | backend/plans.py:110 | `int()` reads back what `str()` writes, for every integer, negative ones included |
| IntText.ParseIntRejectsEmpty | backend/plans.py:110 | `int("")`, `int("-")` and `int("+")` raise |
| IntText.StripStartShape | backend/plans.py:110 | leading strip drops exactly a whitespace prefix and stops at the first other character |
| IntText.ParseInt | backend/plans.py:110 | `int()` succeeds only on text that is not blank, and gives a negative value only after a leading minus |
| IntText.ShowInt | ai_agent/agent.py:253 | `str()` of an integer is non-empty, starts with a minus exactly for negatives, and has digits after the first character |
| IntText.StripEndShape | backend/plans.py:110 | trailing strip drops exactly a whitespace suffix and stops at the last other character |
| Plans.GeneratePlan | backend/plans.py:85-95 | plan id 1, the problem's id, the clock reading, and the summary and steps of the template of the problem's category |
| Plans.CategoryOf | backend/plans.py:78-85 | the category is always a key of the template table, and it is general exactly for ids other than 1, 2 and 3 |
| Plans.TemplateFor | backend/plans.py:86 | a template of the table; a known category gets its own template, any other category the general one |
| Plans.GeneratePlanTemplate | backend/plans.py:78-86 | ids 1 to 4 pick shopping, productivity, finance and general; any other id picks general; the category is always in the table |
| Plans.GeneratePlanDeterministic | backend/plans.py:89-95 | two plans for one problem differ only in their generation instant |
| Plans.ParseDueOffset | backend/plans.py:109-119 | IndexError exactly on the empty string; ValueError exactly when `int()` rejects all but the last character |
| Plans.ParseUnitOffset | backend/plans.py:112-117 | `"<n>h"`, `"<n>d"` and `"<n>w"` give 60n, 1440n and 10080n minutes, for every integer n |
| Plans.ParseOtherUnit | backend/plans.py:118-119 | with any other last character, the number before it is read as minutes |
| Plans.BareNumberMisparse | backend/plans.py:109-119 | `"30"` gives 3, `"45m"` gives 45, `"5"` raises ValueError and `""` raises IndexError |
| Plans.ZeroHours | backend/plans.py:112-113 | `"0h"` is 0 minutes |
| Plans.ShoppingWellFormed | backend/plans.py:15-25 | six steps numbered 1 to 6, the first at `"0h"`, all offsets parse and never decrease |
| Plans.ProductivityWellFormed | backend/plans.py:26-36 | the same for the productivity template |
| Plans.FinanceWellFormed | backend/plans.py:37-47 | the same for the finance template |
| Plans.GeneralWellFormed | backend/plans.py:48-58 | the same for the general template |
| Plans.SamplePlansWellFormed | backend/plans.py:14-59 | every template in the table is well formed |
| Plans.GeneratedPlanWellFormed | backend/plans.py:85-95 | the steps of every generated plan are well formed, whatever the problem id |
| Tasks.IndexOf | backend/tasks.py:53-56 | the first position whose task has the id, or None exactly when no task has it |
| Tasks.IndexOfUnique | backend/tasks.py:32-40 | with the store's distinct ids, the task at a position is the one found for its id |
| Tasks.IndexOfFirst | backend/tasks.py:53-55 | a match with no earlier match is the position found |
| Tasks.ByPlan | backend/tasks.py:77 | a task is listed exactly when it is stored and has the plan's id |
| Tasks.ByPlanKeepsOrder | backend/tasks.py:77 | a plan's tasks come in increasing id order |
| Tasks.RemoveKeepsOrder | backend/tasks.py:106-110 | removing one task keeps the ids ordered and below the counter, and its id is gone |
| Tasks.TaskManager.constructor | backend/tasks.py:15-18 | an empty store whose counter starts at 1 |
| Tasks.TaskManager.AddTask | backend/tasks.py:20-41 | appends one pending task whose id is the old counter; the counter grows by one; the new id is above every old one; ids stay distinct and ordered |
| Tasks.TaskManager.FindIndex | backend/tasks.py:53-56 | the linear search finds the first position with the id, or None |
| Tasks.TaskManager.GetTask | backend/tasks.py:43-56 | a task is returned exactly when one has the id, and it is the first stored task with that id |
| Tasks.TaskManager.GetAllTasks | backend/tasks.py:65 | the stored list |
| Tasks.TaskManager.GetTasksByPlan | backend/tasks.py:67-77 | the stored tasks of the plan, in stored order |
| Tasks.TaskManager.UpdateTask | backend/tasks.py:90-94 | only the found task's status changes, to any string given; an absent id changes nothing and gives None |
| Tasks.TaskManager.DeleteTask | backend/tasks.py:106-110 | the found task is removed and the rest keep their order; an absent id changes nothing and gives false; afterwards no task has the id; the counter is unchanged |
| Agent.TaskFor | ai_agent/agent.py:101-109 | the task stored for one step: the given id and plan id, the step's title, pending, due the step's parsed offset after the base time |
| Agent.TasksFor | ai_agent/agent.py:99-112 | one task per step, with consecutive ids from the first one and the steps' titles in step order |
| Agent.ParsedPrefix | ai_agent/agent.py:99-101 | the number of leading steps whose offsets parse; the next step, if any, fails |
| Agent.ParsedPrefixAt | ai_agent/agent.py:99-101 | the steps before the first failing one, or all steps, are the parsed prefix |
| Agent.TasksForShape | ai_agent/agent.py:99-112 | one task per step in step order: consecutive ids, the plan's id, the step's title, pending, due at the base time plus the step's offset |
| Agent.TasksForDueOrder | ai_agent/agent.py:97-102 | with one base time, non-decreasing offsets give non-decreasing due times |
| Agent.TasksForSnoc | ai_agent/agent.py:99-112 | one more parsed step adds exactly that step's task at the end |
| Agent.GeneratedPlanTasks | ai_agent/agent.py:96-112 | a generated plan gives six tasks, the first due at the base time, due times never decreasing |
| Agent.HourlySteps | ai_agent/agent.py:97-112 | steps at `"0h"`, `"1h"`, `"2h"`, ... give tasks due 0, 60, 120, ... minutes after the base time, in step order |
| Agent.Lower | ai_agent/agent.py:130 | same length, each ASCII letter lowered |
| Agent.Contains | ai_agent/agent.py:130 | never holds for a needle longer than the text, and holds when the text starts with the needle |
| Agent.AnyIn | ai_agent/agent.py:130 | false on no keywords, true when any keyword of the list occurs |
| Agent.ContainsIff | ai_agent/agent.py:130 | the substring test holds exactly when the keyword occurs at some position |
| Agent.AnyInIff | ai_agent/agent.py:130 | `any(...)` holds exactly when some keyword of the list occurs |
| Agent.SuggestAutomations | ai_agent/agent.py:126-148 | the budget suggestion exactly when the lowercased summary contains a budget keyword, the productivity one exactly when it contains a productivity keyword, budget first |
| Agent.FinancePlanSuggestsBudget | ai_agent/agent.py:129-136 | the finance plan gets the budget suggestion |
| Agent.PendingOf | ai_agent/agent.py:165 | a task is listed exactly when it is given and pending |
| Agent.EarliestIndex | ai_agent/agent.py:167 | `min` by due time: a smallest due time, and no earlier task has it |
| Agent.GenerateNextSteps | ai_agent/agent.py:161-178 | always ends in the four general lines; with no pending task, exactly those four; five lines exactly when some task is pending, the first naming the first pending task of least due time |
| Agent.ExecuteAutomation | ai_agent/agent.py:194-225 | fails exactly on an unknown type or script, with the source's messages; otherwise a record of the call, `success` with the result when the script returns and `failed` with the message when it raises |
| Agent.UnknownIgnoresScript | ai_agent/agent.py:194-198 | an unknown name is rejected before any script runs |
| Agent.RegisteredScripts | ai_agent/agent.py:35-44 | exactly the four registered type and script pairs get past the lookup |
| Agent.CompletedOf | ai_agent/agent.py:241 | a task is listed exactly when it is given and completed |
| Agent.OverdueOf | ai_agent/agent.py:242-248 | a task is overdue exactly when it is pending and due strictly before now |
| Agent.UserDashboard | ai_agent/agent.py:259-261 | the dashboard carries the user id and the clock reading |
| Agent.DashboardCounts | ai_agent/agent.py:237-266 | total, pending, completed and overdue counts; overdue at most pending; pending plus completed at most total |
| Agent.OverdueMessage | ai_agent/agent.py:253 | the overdue message differs from the two fixed messages |
| Agent.Recommendations | ai_agent/agent.py:251-257 | only the three messages appear, each at most once: one per threshold that holds; none exactly when nothing is overdue and 1 to 10 tasks are pending; the overdue message comes first when there is one |
| Agent.RecommendationsIff | ai_agent/agent.py:251-257 | each recommendation appears exactly when its threshold holds; overdue and nothing-pending never appear together |
| Agent.DashboardRecommendations | ai_agent/agent.py:251-257 | the same, stated on the dashboard's own counts |
| Agent.DueBeforeOrder | ai_agent/agent.py:268 | the due-time key orders tasks as a strict weak order |
| Agent.CompletedLaterOrder | ai_agent/agent.py:269 | the reversed `completed_at` key, with a missing key as the empty string, is a strict weak order |
| Seqs.SortBy | ai_agent/agent.py:268-269 | `sorted` returns a permutation of its input (sorted by Seqs.SortBySorted, stable by Seqs.SortByStable) |
| Seqs.SortBySorted | ai_agent/agent.py:268-269 | under a strict weak order, `sorted` leaves no element strictly before an earlier one |
| Seqs.SortByAllTied | ai_agent/agent.py:269 | when every pair ties, the stable `sorted` returns its input unchanged |
| Seqs.TakeOfSortBy | ai_agent/agent.py:268-269 | `sorted(...)[:n]`: min(n, length) elements of the input, in order, none left out strictly before one taken |
| Seqs.SortByStable | ai_agent/agent.py:268-269 | `sorted` is stable: on an input in increasing rank order, tied elements come out in increasing rank order |
| Seqs.TakeOfSortByStable | ai_agent/agent.py:268-269 | `sorted(...)[:n]` on an input in increasing rank order: taken ties in rank order, and a tied element left out ranks above the taken one |
| Seqs.Take | ai_agent/agent.py:268-269 | `[:n]` is the first min(n, length) elements |
| Agent.DashboardUpcoming | ai_agent/agent.py:268 | at most five pending tasks, drawn from the pending ones, in due order, none due after a pending task left out |
| Agent.DashboardUpcomingStable | ai_agent/agent.py:268 | with stored ids increasing, upcoming tasks due at the same time are in id order, and a pending task left out that ties with one shown has a larger id |
| Agent.StoreUpcomingStable | ai_agent/agent.py:268 | on the store, upcoming tasks due at the same time are shown in creation order |
| Agent.DashboardRecent | ai_agent/agent.py:269 | at most three completed tasks drawn from the completed ones, latest completion first, none completed earlier than a completed task left out |
| Agent.RecentWithoutTimestamps | ai_agent/agent.py:269 | with no completion times, the stable sort keeps stored order: the first three completed tasks |
| Agent.OverdueExample | ai_agent/agent.py:240-268 | one task due a day ago and one due tomorrow: one overdue, only the overdue message, earlier task first |
| Agent.LifeHackAgent.constructor | ai_agent/agent.py:32-34 | a fresh, empty task manager |
| Agent.LifeHackAgent.AddAndFetch | ai_agent/agent.py:105-111 | `add_task` then `get_task` on the returned id gives the task just appended |
| Agent.LifeHackAgent.CreateTasksFromPlan | ai_agent/agent.py:86-114 | adds the tasks of the parsed prefix of the steps with consecutive ids from one base time; returns them all, or the offset error of the first failing step, which leaves the earlier tasks stored |
| Agent.LifeHackAgent.GetUserDashboard | ai_agent/agent.py:227-273 | the dashboard of the stored tasks; the store is not changed |
| Agent.StoreRecentInStoredOrder | ai_agent/agent.py:269 | on the store, which never records completion times, recent completions are the first three completed tasks |
| Productivity.Classify | automation/runners/productivity_automation.py:31-45 | every hour gets one of the four types and one of the three priorities |
| Productivity.BlockAt | automation/runners/productivity_automation.py:47-57 | the block of one hour: from that hour to the next, 60 minutes, the hour's type and priority, and the text naming the type |
| Productivity.CountType | automation/runners/productivity_automation.py:67-68 | at most one per block, and zero when no block has the type |
| Productivity.HourBlocks | automation/runners/productivity_automation.py:29-57 | one block per hour from start up to but excluding end, in hour order |
| Productivity.CreateDailySchedule | automation/runners/productivity_automation.py:26-69 | fails exactly when the range is non-empty and an hour leaves 0..23; otherwise the schedule of the day's hour blocks, with total hours end minus start and the deep-work and break counts |
| Productivity.BlocksShape | automation/runners/productivity_automation.py:47-57 | every block lasts 60 minutes from its hour, follows the previous one without gap, and names its type in its text |
| Productivity.PriorityFollowsType | automation/runners/productivity_automation.py:31-45 | deep work (High) exactly at 8 to 11, break exactly at 12, collaboration exactly at 13 to 15, Medium exactly for break and collaboration, Low exactly for wrap-up |
| Productivity.CountTypeStep | automation/runners/productivity_automation.py:67-68 | one more hour adds one to a type's count exactly when that hour has the type |
| Productivity.DeepWorkCount | automation/runners/productivity_automation.py:67 | the deep-work count is the number of hours of the range within 8 to 11 |
| Productivity.BreakCount | automation/runners/productivity_automation.py:68 | one break block exactly when the range covers noon |
| Productivity.DefaultDayCounts | automation/runners/productivity_automation.py:12-68 | 8 to 18 gives ten blocks, four of deep work and one break; 9 to 17 gives eight |
| Productivity.ReversedRange | automation/runners/productivity_automation.py:29-66 | a reversed range gives no blocks and a negative total of work hours |
| Productivity.SetFocusTimer | automation/runners/productivity_automation.py:92-101 | a running timer for the task that starts now and ends the given minutes later |
| Models.CheckLength | backend/models.py:11-12 | no error exactly when the field is present with a length within the bounds |
| Models.CheckPresent | backend/models.py:26-29 | no error exactly when the field is present |
| Models.ValidateProblemCreate | backend/models.py:9-13 | accepted exactly when title has 5 to 100 characters and category 3 to 50; errors name only those fields |
| Models.MissingCategoryRejected | tests/test_api.py:51-58 | a good title without a category is rejected for the missing category |
| Models.ProblemLengthBounds | backend/models.py:11-12 | the length bounds include both ends |
| Models.ValidateTaskCreate | backend/models.py:40-44 | accepted exactly when the plan id is present; title and due time are optional |
| Models.ValidateTaskUpdate | backend/models.py:46-48 | accepted exactly when the status is one of pending, in_progress and completed |
| Models.StatusMustBeExact | backend/models.py:48 | a trailing newline or another letter case is refused |
| Models.ValidatePlanStep | backend/models.py:24-29 | accepted exactly when all four fields are present; errors are only missing fields |
| Models.AcceptedStepMayNotParse | backend/models.py:29 | a step with an empty due offset is accepted, although its offset raises when parsed |

## Left out

- `solve_problem` and `generate_plan`'s callers in the web routes: outside the modelled core.
- `backend/store.py`, `scripts/setup.py` and `ai_agent/prompts.py` are not part of this model.
- The budget runner (`create_budget_snapshot`, `analyze_budget`): it computes with floating
  point. Dispatch takes any script as the parameter `run`.
- `open_productivity_tools` and the browser it opens: I/O.
- `create_daily_schedule`'s file save and `saved_to` key: file I/O. The model is the
  `save_to_file=False` path.
- `set_focus_timer`'s printed lines: console output.
- Logging, and the rendering of instants as ISO text.
- Python's non-ASCII whitespace, digits and letters in `int()` and `str.lower()`: the model
  handles ASCII only.
- Agent.ExecuteAutomation: keyword arguments are one opaque parameter value. A `TypeError`
  from wrong arguments counts as the script raising.
- Tasks.TaskManager.GetTask: returns a copy of the task, not a reference into the store. Later
  changes through a returned task are not modelled, nor is aliasing between the lists
  `_create_tasks_from_plan` returns and the store.
- Agent.LifeHackAgent.CreateTasksFromPlan: does not model an `OverflowError` from a due time
  beyond `datetime`'s range.
- Productivity.CreateDailySchedule: does not model instants beyond `datetime`'s range.
- Agent.UserDashboard and Agent.LifeHackAgent.GetUserDashboard: the source reads the clock
  twice, once to find overdue tasks and once for `generated_at`; the model uses one `now` for
  both, so the two instants cannot differ.
- Productivity.CreateDailySchedule: the source reads the clock twice, once for the date and
  once for `created_at`; the model derives both from one `now`, so a schedule whose date and
  creation instant straddle midnight is not represented.
- Productivity.SetFocusTimer: does not model the `OverflowError` of an end time beyond
  `datetime`'s range.
- Plans.ParseDueOffset and IntText.ParseShowInt: do not model the limit on the length of integer
  text that newer Pythons enforce in `int()` and `str()` (4300 digits by default), past which
  both raise ValueError; the round trip is stated for every integer.
- Agent.GenerateNextSteps: omits the plan argument the source never reads.
- Default argument values (`set_focus_timer`'s 25 minutes and "Focus Work",
  `create_daily_schedule`'s 8, 18 and `save_to_file=True`, `get_user_dashboard`'s
  `user_id=None`) are not modelled: every argument is passed explicitly.
- The Pydantic models are checked on given field values. Type coercion and the response models
  are left out.
