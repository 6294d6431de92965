/** Plan templates, plan generation and due-offset parsing (backend/plans.py). */
module Plans {
  import opened Wrappers
  import opened IntText

  datatype PlanStep = PlanStep(stepId: int, title: string, details: string, dueOffset: string)

  /** One entry of the fixed template table. */
  datatype Template = Template(summary: string, steps: seq<PlanStep>)

  /** A generated plan; `generatedAt` is the generation instant in minutes. */
  datatype Plan = Plan(planId: int, problemId: int, generatedAt: int, summary: string, steps: seq<PlanStep>)

  /** The two ways `parse_due_offset` raises: `offset[-1]` on "" and `int()` on a bad prefix. */
  datatype OffsetError = IndexError | ValueError

  const ShoppingTemplate := Template(
    "Optimize your weekly grocery shopping to save time and money",
    [ PlanStep(1, "Create a meal plan", "Plan your meals for the week to know exactly what you need", "0h"),
      PlanStep(2, "Take inventory", "Check what you already have to avoid buying duplicates", "1h"),
      PlanStep(3, "Make a shopping list", "Create a detailed list organized by store sections", "2h"),
      PlanStep(4, "Compare prices online", "Check weekly ads and apps for deals", "1d"),
      PlanStep(5, "Shop during off-peak hours", "Go early morning or late evening to avoid crowds", "2d"),
      PlanStep(6, "Batch cook and freeze", "Prepare meals in bulk to save time later", "3d") ])

  const ProductivityTemplate := Template(
    "Establish an effective morning routine for better daily productivity",
    [ PlanStep(1, "Plan the night before", "Set out your priorities for the next day before bed", "0h"),
      PlanStep(2, "Wake up consistently", "Set a regular wake-up time, even on weekends", "1d"),
      PlanStep(3, "Hydrate first", "Drink a glass of water before anything else", "1d"),
      PlanStep(4, "No screens for 30 minutes", "Avoid checking email or social media right away", "1d"),
      PlanStep(5, "Exercise briefly", "Do 5-10 minutes of stretching or light movement", "1d"),
      PlanStep(6, "Review your day's plan", "Check your calendar and top priorities", "1d") ])

  const FinanceTemplate := Template(
    "Create and maintain a personal monthly budget",
    [ PlanStep(1, "Track current spending", "Record all expenses for two weeks to establish a baseline", "0h"),
      PlanStep(2, "Categorize expenses", "Group spending into categories (housing, food, transport, etc.)", "14d"),
      PlanStep(3, "Set category limits", "Establish reasonable spending limits for each category", "15d"),
      PlanStep(4, "Create a budget document", "Use a spreadsheet or app to formalize your budget", "16d"),
      PlanStep(5, "Set up tracking system", "Choose a method to track expenses against budget", "17d"),
      PlanStep(6, "Schedule weekly reviews", "Set aside 15 minutes weekly to review and adjust", "18d") ])

  const GeneralTemplate := Template(
    "Solve your daily life problem with a structured approach",
    [ PlanStep(1, "Define the problem clearly", "Write down exactly what you're trying to solve", "0h"),
      PlanStep(2, "Break it into smaller parts", "Divide the problem into manageable components", "1h"),
      PlanStep(3, "Research solutions", "Look for how others have solved similar problems", "1d"),
      PlanStep(4, "Create an action plan", "List specific steps with deadlines", "2d"),
      PlanStep(5, "Execute first step", "Complete the first action item", "3d"),
      PlanStep(6, "Review and adjust", "Evaluate progress and modify plan as needed", "7d") ])

  /** SAMPLE_PLANS, keyed by category name. */
  const SamplePlans: map<string, Template> := map[
    "shopping" := ShoppingTemplate,
    "productivity" := ProductivityTemplate,
    "finance" := FinanceTemplate,
    "general" := GeneralTemplate ]

  /** The demo's fixed problem-id to category table. */
  const ProblemCategories: map<int, string> := map[1 := "shopping", 2 := "productivity", 3 := "finance", 4 := "general"]

  /** `problem_categories.get(problem_id, "general")`. */
  function CategoryOf(problemId: int): (c: string)
    ensures c in SamplePlans
    ensures c == "general" <==> problemId !in {1, 2, 3}
  {
    if problemId in ProblemCategories then ProblemCategories[problemId] else "general"
  }

  /** `SAMPLE_PLANS.get(category, SAMPLE_PLANS["general"])`. */
  function TemplateFor(category: string): (t: Template)
    ensures t in SamplePlans.Values
    ensures category in SamplePlans ==> t == SamplePlans[category]
    ensures category !in SamplePlans ==> t == GeneralTemplate
  {
    if category in SamplePlans then SamplePlans[category] else SamplePlans["general"]
  }

  /** `generate_plan`, with the clock reading passed in as `now`. */
  function GeneratePlan(problemId: int, now: int): (r: Plan)
    ensures r.planId == 1 && r.problemId == problemId && r.generatedAt == now
    ensures var t := TemplateFor(CategoryOf(problemId)); r.summary == t.summary && r.steps == t.steps
  {
    var template := TemplateFor(CategoryOf(problemId));
    Plan(1, problemId, now, template.summary, template.steps)
  }

  /** Ids 1 to 4 pick the shopping, productivity, finance and general templates; any other id
      picks the general one. The second lookup's fallback is never needed. */
  lemma GeneratePlanTemplate(problemId: int, now: int)
    ensures CategoryOf(problemId) in SamplePlans
    ensures var p := GeneratePlan(problemId, now);
      var t := if problemId == 1 then ShoppingTemplate
               else if problemId == 2 then ProductivityTemplate
               else if problemId == 3 then FinanceTemplate
               else GeneralTemplate;
      p.summary == t.summary && p.steps == t.steps
  {
  }

  /** Two calls for the same problem differ at most in their generation instant. */
  lemma GeneratePlanDeterministic(problemId: int, now1: int, now2: int)
    ensures GeneratePlan(problemId, now1).(generatedAt := now2) == GeneratePlan(problemId, now2)
  {
  }

  /** `parse_due_offset`: the last character is the unit and everything before it goes to
      `int()`, whatever that character is; h, d and w scale to minutes, anything else is taken
      as minutes already. */
  function ParseDueOffset(offset: string): (r: Result<int, OffsetError>)
    ensures r == Failure(IndexError) <==> |offset| == 0
    ensures r == Failure(ValueError) <==> |offset| > 0 && ParseInt(offset[..|offset| - 1]).None?
  {
    if |offset| == 0 then Failure(IndexError)
    else
      var unit := offset[|offset| - 1];
      match ParseInt(offset[..|offset| - 1])
      case None => Failure(ValueError)
      case Some(value) =>
        if unit == 'h' then Success(value * 60)
        else if unit == 'd' then Success(value * 24 * 60)
        else if unit == 'w' then Success(value * 7 * 24 * 60)
        else Success(value)
  }

  /** `"<n>h"`, `"<n>d"` and `"<n>w"` give n hours, days and weeks in minutes. */
  lemma {:induction false} ParseUnitOffset(n: int, unit: char)
    requires unit in {'h', 'd', 'w'}
    ensures ParseDueOffset(ShowInt(n) + [unit]) ==
      Success(if unit == 'h' then n * 60 else if unit == 'd' then n * 1440 else n * 10080)
  {
    var s := ShowInt(n) + [unit];
    assert s[..|s| - 1] == ShowInt(n);
    ParseShowInt(n);
  }

  /** Any other last character is dropped and the prefix is taken as minutes: `"45m"` is 45,
      and a bare number loses its last digit. */
  lemma {:induction false} ParseOtherUnit(n: int, unit: char)
    requires unit !in {'h', 'd', 'w'}
    ensures ParseDueOffset(ShowInt(n) + [unit]) == Success(n)
  {
    var s := ShowInt(n) + [unit];
    assert s[..|s| - 1] == ShowInt(n);
    ParseShowInt(n);
  }

  lemma BareNumberMisparse()
    ensures ParseDueOffset("30") == Success(3)
    ensures ParseDueOffset("45m") == Success(45)
    ensures ParseDueOffset("5") == Failure(ValueError)
    ensures ParseDueOffset("") == Failure(IndexError)
  {
    ParseOtherUnit(3, '0');
    assert ShowInt(3) + ['0'] == "30";
    ParseOtherUnit(45, 'm');
    assert ShowInt(45) + ['m'] == "45m";
    assert "5"[..0] == "";
  }

  /** Minutes of a step whose offset parses. */
  function StepMinutes(step: PlanStep): int
    requires ParseDueOffset(step.dueOffset).Success?
  {
    ParseDueOffset(step.dueOffset).value
  }

  predicate OffsetsParse(steps: seq<PlanStep>) {
    forall i :: 0 <= i < |steps| ==> ParseDueOffset(steps[i].dueOffset).Success?
  }

  /** The parsed offsets of the steps, in step order. */
  function OffsetMinutes(steps: seq<PlanStep>): (m: seq<int>)
    requires OffsetsParse(steps)
    ensures |m| == |steps| && forall i :: 0 <= i < |steps| ==> m[i] == StepMinutes(steps[i])
  {
    seq(|steps|, i requires 0 <= i < |steps| => StepMinutes(steps[i]))
  }

  predicate NonDecreasing(m: seq<int>) {
    forall i, j :: 0 <= i <= j < |m| ==> m[i] <= m[j]
  }

  /** Six steps numbered 1 to 6, the first due at "0h", every offset parsing, and the offsets
      never going back in time. */
  predicate WellFormedTemplate(t: Template) {
    && |t.steps| == 6
    && (forall i :: 0 <= i < 6 ==> t.steps[i].stepId == i + 1)
    && t.steps[0].dueOffset == "0h"
    && OffsetsParse(t.steps)
    && NonDecreasing(OffsetMinutes(t.steps))
  }

  /** The minutes `"<n><unit>"` stands for when the unit is h, d or w. */
  function UnitMinutes(n: int, unit: char): int {
    if unit == 'h' then n * 60 else if unit == 'd' then n * 1440 else n * 10080
  }

  lemma ZeroHours()
    ensures ParseDueOffset("0h") == Success(0)
  {
    assert ShowInt(0) + ['h'] == "0h";
    ParseUnitOffset(0, 'h');
  }

  /** A template is well formed when its six offsets are written as counts with units whose
      minutes never decrease. Stated on a template variable, so that no offset text is a
      literal here. */
  lemma {:induction false} WellFormedBy(t: Template, counts: seq<nat>, units: seq<char>)
    requires |t.steps| == 6 && |counts| == 6 && |units| == 6
    requires forall i :: 0 <= i < 6 ==> t.steps[i].stepId == i + 1
    requires t.steps[0].dueOffset == "0h"
    requires forall i :: 0 <= i < 6 ==> units[i] in {'h', 'd', 'w'}
    requires forall i :: 0 <= i < 6 ==> t.steps[i].dueOffset == ShowInt(counts[i]) + [units[i]]
    requires forall i, j :: 0 <= i <= j < 6 ==> UnitMinutes(counts[i], units[i]) <= UnitMinutes(counts[j], units[j])
    ensures WellFormedTemplate(t)
  {
    forall i | 0 <= i < 6 ensures ParseDueOffset(t.steps[i].dueOffset) == Success(UnitMinutes(counts[i], units[i])) {
      ParseUnitOffset(counts[i], units[i]);
    }
    assert OffsetsParse(t.steps);
    var m := OffsetMinutes(t.steps);
    assert forall i :: 0 <= i < 6 ==> m[i] == UnitMinutes(counts[i], units[i]);
  }

  const ShoppingCounts: seq<nat> := [0, 1, 2, 1, 2, 3]
  const ShoppingUnits: seq<char> := ['h', 'h', 'h', 'd', 'd', 'd']

  lemma ShoppingOffsetTexts()
    ensures forall i :: 0 <= i < 6 ==>
      ShoppingTemplate.steps[i].dueOffset == ShowInt(ShoppingCounts[i]) + [ShoppingUnits[i]]
  {
  }

  lemma ShoppingWellFormed()
    ensures WellFormedTemplate(ShoppingTemplate)
  {
    ShoppingOffsetTexts();
    WellFormedBy(ShoppingTemplate, ShoppingCounts, ShoppingUnits);
  }

  const ProductivityCounts: seq<nat> := [0, 1, 1, 1, 1, 1]
  const ProductivityUnits: seq<char> := ['h', 'd', 'd', 'd', 'd', 'd']

  lemma ProductivityOffsetTexts()
    ensures forall i :: 0 <= i < 6 ==>
      ProductivityTemplate.steps[i].dueOffset == ShowInt(ProductivityCounts[i]) + [ProductivityUnits[i]]
  {
  }

  lemma ProductivityWellFormed()
    ensures WellFormedTemplate(ProductivityTemplate)
  {
    ProductivityOffsetTexts();
    WellFormedBy(ProductivityTemplate, ProductivityCounts, ProductivityUnits);
  }

  const FinanceCounts: seq<nat> := [0, 14, 15, 16, 17, 18]
  const FinanceUnits: seq<char> := ['h', 'd', 'd', 'd', 'd', 'd']

  lemma FinanceOffsetTexts()
    ensures forall i :: 0 <= i < 6 ==>
      FinanceTemplate.steps[i].dueOffset == ShowInt(FinanceCounts[i]) + [FinanceUnits[i]]
  {
  }

  lemma FinanceWellFormed()
    ensures WellFormedTemplate(FinanceTemplate)
  {
    FinanceOffsetTexts();
    WellFormedBy(FinanceTemplate, FinanceCounts, FinanceUnits);
  }

  const GeneralCounts: seq<nat> := [0, 1, 1, 2, 3, 7]
  const GeneralUnits: seq<char> := ['h', 'h', 'd', 'd', 'd', 'd']

  lemma GeneralOffsetTexts()
    ensures forall i :: 0 <= i < 6 ==>
      GeneralTemplate.steps[i].dueOffset == ShowInt(GeneralCounts[i]) + [GeneralUnits[i]]
  {
  }

  lemma GeneralWellFormed()
    ensures WellFormedTemplate(GeneralTemplate)
  {
    GeneralOffsetTexts();
    WellFormedBy(GeneralTemplate, GeneralCounts, GeneralUnits);
  }

  /** Every template of the table is well formed. */
  lemma SamplePlansWellFormed()
    ensures forall c :: c in SamplePlans ==> WellFormedTemplate(SamplePlans[c])
  {
    ShoppingWellFormed();
    ProductivityWellFormed();
    FinanceWellFormed();
    GeneralWellFormed();
  }

  /** Hence every generated plan's steps are well formed, whatever the problem id. */
  lemma GeneratedPlanWellFormed(problemId: int, now: int)
    ensures WellFormedTemplate(Template(GeneratePlan(problemId, now).summary, GeneratePlan(problemId, now).steps))
  {
    SamplePlansWellFormed();
    GeneratePlanTemplate(problemId, now);
  }
}
