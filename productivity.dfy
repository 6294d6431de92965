/** The daily schedule and the focus timer (automation/runners/productivity_automation.py). */
module Productivity {
  import opened Wrappers
  import opened Seqs

  const MinutesPerDay := 1440

  /** One hour of the schedule; times are instants in minutes. */
  datatype TimeBlock = TimeBlock(
    startTime: int, endTime: int, durationMinutes: int,
    taskType: string, priority: string, task: string)

  /** The schedule record: `day` is the midnight of the current date. */
  datatype Schedule = Schedule(
    day: int, createdAt: int, startHour: int, endHour: int, timeBlocks: seq<TimeBlock>,
    totalWorkHours: int, deepWorkBlocks: nat, breakBlocks: nat)

  const DeepWork := "Deep Work"
  const Break := "Break"
  const Collaboration := "Collaboration"
  const WrapUp := "Wrap-up"

  /** The hour table: mornings from 8 are deep work, noon a break, 13 to 15 collaboration, and
      every other hour, early ones included, wrap-up. Gives the type and the priority. */
  function Classify(hour: int): (r: (string, string))
    ensures r.0 in {DeepWork, Break, Collaboration, WrapUp} && r.1 in {"High", "Medium", "Low"}
  {
    if 8 <= hour < 12 then (DeepWork, "High")
    else if hour == 12 then (Break, "Medium")
    else if 13 <= hour < 16 then (Collaboration, "Medium")
    else (WrapUp, "Low")
  }

  /** The block for one hour of the day starting at `day`. */
  function BlockAt(day: int, hour: int): (b: TimeBlock)
    ensures b.startTime == day + 60 * hour && b.endTime == b.startTime + 60 && b.durationMinutes == 60
    ensures (b.taskType, b.priority) == Classify(hour)
    ensures b.task == "Scheduled " + b.taskType + " time"
  {
    var (taskType, priority) := Classify(hour);
    TimeBlock(day + hour * 60, day + (hour + 1) * 60, 60, taskType, priority,
      "Scheduled " + taskType + " time")
  }

  /** The blocks for the hours `start` up to but excluding `end`, in hour order. */
  function HourBlocks(day: int, start: int, end: int): (r: seq<TimeBlock>)
    ensures |r| == if end <= start then 0 else end - start
    ensures forall k :: 0 <= k < |r| ==> r[k] == BlockAt(day, start + k)
    decreases end - start
  {
    if end <= start then [] else HourBlocks(day, start, end - 1) + [BlockAt(day, end - 1)]
  }

  /** `sum(1 for block in blocks if block["task_type"] == taskType)`. */
  function CountType(blocks: seq<TimeBlock>, taskType: string): (n: nat)
    ensures n <= |blocks|
    ensures (forall i :: 0 <= i < |blocks| ==> blocks[i].taskType != taskType) ==> n == 0
  {
    var matching := Filter(blocks, (b: TimeBlock) => b.taskType == taskType);
    assert |matching| > 0 ==> matching[0] in matching;
    |matching|
  }

  /** `datetime.time(hour, 0)` accepts only 0 to 23; the block end asks for hour + 1. */
  const HourError := "hour must be in 0..23"

  /** `create_daily_schedule` without the file save. The clock reading `now` gives the current
      date (its midnight) and the creation instant. An hour outside 0..22 on the way raises. */
  method CreateDailySchedule(startHour: int, endHour: int, now: int) returns (r: Result<Schedule, string>)
    ensures r.Failure? <==> startHour < endHour && (startHour < 0 || endHour > 23)
    ensures r.Failure? ==> r.error == HourError
    ensures r.Success? ==>
      var day := now - now % MinutesPerDay;
      var blocks := HourBlocks(day, startHour, endHour);
      r.value == Schedule(day, now, startHour, endHour, blocks, endHour - startHour,
        CountType(blocks, DeepWork), CountType(blocks, Break))
  {
    var day := now - now % MinutesPerDay;
    var blocks: seq<TimeBlock> := [];
    var hour := startHour;
    while hour < endHour
      invariant startHour <= endHour ==> startHour <= hour <= endHour
      invariant startHour > endHour ==> hour == startHour
      invariant hour > startHour ==> 0 <= startHour && hour - 1 < 23
      invariant blocks == HourBlocks(day, startHour, hour)
    {
      if hour < 0 || hour + 1 > 23 {
        return Failure(HourError);
      }
      blocks := blocks + [BlockAt(day, hour)];
      hour := hour + 1;
    }
    var schedule := Schedule(day, now, startHour, endHour, blocks, endHour - startHour,
      CountType(blocks, DeepWork), CountType(blocks, Break));
    return Success(schedule);
  }

  /** Every block lasts an hour, from its hour to the next, and names its type in its text;
      consecutive blocks follow each other without gap. */
  lemma BlocksShape(day: int, start: int, end: int)
    ensures var r := HourBlocks(day, start, end);
      && (forall k :: 0 <= k < |r| ==>
        && r[k].durationMinutes == 60 && r[k].endTime == r[k].startTime + 60
        && r[k].startTime == day + (start + k) * 60
        && r[k].task == "Scheduled " + r[k].taskType + " time"
        && r[k].taskType in {DeepWork, Break, Collaboration, WrapUp})
      && (forall k :: 0 <= k < |r| - 1 ==> r[k + 1].startTime == r[k].endTime)
  {
  }

  /** Each type has its hours and its priority: deep work 8 to 11 and High, the break at 12,
      collaboration 13 to 15, both Medium, and wrap-up every other hour and Low. */
  lemma PriorityFollowsType(hour: int)
    ensures var (taskType, priority) := Classify(hour);
      && (priority == "High" <==> taskType == DeepWork)
      && (priority == "Low" <==> taskType == WrapUp)
      && (taskType == DeepWork <==> 8 <= hour < 12)
      && (taskType == Break <==> hour == 12)
      && (taskType == Collaboration <==> 13 <= hour < 16)
      && (priority == "Medium" <==> taskType == Break || taskType == Collaboration)
  {
  }

  /** The type count over the hours `start` to `end`, one hour at a time. */
  lemma {:induction false} CountTypeStep(day: int, start: int, end: int, taskType: string)
    requires start <= end
    ensures CountType(HourBlocks(day, start, end + 1), taskType) ==
      CountType(HourBlocks(day, start, end), taskType) + (if BlockAt(day, end).taskType == taskType then 1 else 0)
  {
    var p := (b: TimeBlock) => b.taskType == taskType;
    assert HourBlocks(day, start, end + 1) == HourBlocks(day, start, end) + [BlockAt(day, end)];
    FilterAppend(HourBlocks(day, start, end), [BlockAt(day, end)], p);
    assert [BlockAt(day, end)][1..] == [];
  }

  function Max(a: int, b: int): int { if a >= b then a else b }

  /** The deep-work blocks are the hours of the range that fall in 8 to 11. */
  lemma {:induction false} DeepWorkCount(day: int, start: int, end: int)
    ensures CountType(HourBlocks(day, start, end), DeepWork) == Max(0, Min(end, 12) - Max(start, 8))
    decreases end - start
  {
    if end <= start {
      assert HourBlocks(day, start, end) == [];
    } else {
      DeepWorkCount(day, start, end - 1);
      CountTypeStep(day, start, end - 1, DeepWork);
    }
  }

  /** There is one break block exactly when the range covers noon. */
  lemma {:induction false} BreakCount(day: int, start: int, end: int)
    ensures CountType(HourBlocks(day, start, end), Break) == if start <= 12 < end then 1 else 0
    decreases end - start
  {
    if end <= start {
      assert HourBlocks(day, start, end) == [];
    } else {
      BreakCount(day, start, end - 1);
      CountTypeStep(day, start, end - 1, Break);
    }
  }

  /** The default 8 to 18 day: ten blocks, four of deep work and one break; 9 to 17 has eight. */
  lemma DefaultDayCounts(day: int)
    ensures |HourBlocks(day, 8, 18)| == 10
    ensures CountType(HourBlocks(day, 8, 18), DeepWork) == 4
    ensures CountType(HourBlocks(day, 8, 18), Break) == 1
    ensures |HourBlocks(day, 9, 17)| == 8
  {
    DeepWorkCount(day, 8, 18);
    BreakCount(day, 8, 18);
  }

  /** A reversed range has no blocks but a negative total of work hours. */
  lemma ReversedRange(day: int, start: int, end: int)
    requires end < start
    ensures HourBlocks(day, start, end) == [] && end - start < 0
  {
  }

  datatype FocusTimer = FocusTimer(task: string, startTime: int, endTime: int, durationMinutes: int, status: string)

  /** `set_focus_timer` with the clock reading as `now`: it runs from now for `minutes`. */
  function SetFocusTimer(minutes: int, task: string, now: int): (t: FocusTimer)
    ensures t.task == task && t.status == "running" && t.startTime == now
    ensures t.endTime - t.startTime == t.durationMinutes == minutes
  {
    FocusTimer(task, now, now + minutes, minutes, "running")
  }
}
