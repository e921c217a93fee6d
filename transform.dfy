/** `transformUserToTeamMember` and the helpers it calls: turning one Workdeck user
    and the projects associated with them into a `TeamMember` view model. */
module Transform {

  import opened Options
  import opened JsText
  import opened JsNumber
  import opened JsArray
  import opened Records
  import opened Palette

  const DefaultCapacity: real := 40.0
  const WorkDaysPerWeek: real := 5.0
  /** `1000 * 60 * 60 * 24 * 7`: one week in milliseconds. */
  const WeekMs: int := 604_800_000
  /** The share of the weekly capacity one project may take (0.6). */
  const TargetShare: real := 3.0 / 5.0
  const DefaultDurationWeeks: int := 12
  const DefaultStartWeek: int := -4
  const DefaultEndWeek: int := 20
  const LongTermHours: real := 200.0
  const LongTermWeeks: int := 12
  /** The number of weeks per month the duration label uses, 4.33, as 433 / 100. */
  const WeeksPerMonthHundredths: int := 433
  const UnknownUser: string := "Unknown User"

  /** `generateWorkPattern()`: the fixed working pattern every task carries. */
  const WorkPattern: seq<bool> := [true, true, true, true, true, false, false, true, true]

  // ---------------------------------------------------------------- capacity

  predicate IsMain(t: Timetable) {
    t.isMain
  }

  /** `timeTables.find(tt => tt.isMain) || timeTables[0]`: the first main timetable,
      or the first timetable when none is main. */
  function MainTimetable(tts: seq<Timetable>): (t: Timetable)
    requires |tts| > 0
    ensures t in tts
    ensures (exists i :: 0 <= i < |tts| && tts[i].isMain) ==> t.isMain
    ensures (forall i :: 0 <= i < |tts| ==> !tts[i].isMain) ==> t == tts[0]
    ensures (exists i :: 0 <= i < |tts| && tts[i].isMain) ==>
      exists i :: 0 <= i < |tts| && tts[i] == t && forall j :: 0 <= j < i ==> !tts[j].isMain
  {
    match FindIndex(tts, IsMain)
    case Some(i) => tts[i]
    case None => tts[0]
  }

  /** The weekly capacity in hours (lines 117-127): five times the day hours of the
      main timetable of the user's office, or 40 when the user has no office id, the
      office is not listed, it has no timetables, or the chosen timetable's day
      hours are falsy. */
  function WeeklyCapacity(user: User, offices: seq<Office>): (capacity: real)
    ensures user.officeId == "" ==> capacity == DefaultCapacity
    ensures (forall o :: o in offices ==> o.id != user.officeId || o.timeTables == []) ==>
      capacity == DefaultCapacity
  {
    if user.officeId != "" && |offices| > 0 then
      match FindIndex(offices, (o: Office) => o.id == user.officeId)
      case None => DefaultCapacity
      case Some(i) =>
        if |offices[i].timeTables| > 0 then
          match MainTimetable(offices[i].timeTables).dayHours
          case Some(h) => h * WorkDaysPerWeek
          case None => DefaultCapacity
        else DefaultCapacity
    else DefaultCapacity
  }

  /** When the user's office is found (the first office with that id) and it has
      timetables, the capacity is five times the chosen timetable's day hours if
      they are set, and 40 otherwise. */
  lemma CapacityFromOffice(user: User, offices: seq<Office>, i: nat)
    requires user.officeId != "" && i < |offices| && offices[i].id == user.officeId
    requires forall j :: 0 <= j < i ==> offices[j].id != user.officeId
    requires |offices[i].timeTables| > 0
    ensures var t := MainTimetable(offices[i].timeTables);
      WeeklyCapacity(user, offices) == if t.dayHours.Some? then t.dayHours.value * 5.0 else 40.0
  {
  }

  /** Worked case: the main timetable (wherever it stands) with 8 day hours gives a
      weekly capacity of 40 hours. */
  lemma CapacityOfEightHourDays(user: User, office: Office)
    requires user.officeId != "" && office.id == user.officeId
    requires |office.timeTables| == 2
    requires !office.timeTables[0].isMain && office.timeTables[1] == Timetable(true, Some(8.0))
    ensures WeeklyCapacity(user, [office]) == 40.0
  {
    CapacityFromOffice(user, [office], 0);
  }

  // ---------------------------------------------------- per-project derivation

  /** `project.plannedHours || project.availableHours || 0`. */
  function TotalHours(p: Project): (hours: real)
    ensures p.plannedHours.Some? ==> hours == p.plannedHours.value
    ensures p.plannedHours.None? && p.availableHours.Some? ==> hours == p.availableHours.value
    ensures p.plannedHours.None? && p.availableHours.None? ==> hours == 0.0
  {
    match p.plannedHours
    case Some(h) => h
    case None => match p.availableHours
      case Some(h) => h
      case None => 0.0
  }

  /** `calculateProjectDurationWeeks`: the number of whole weeks needed to cover the
      time from the start to the end date, rounded up, or 12 when either date is
      missing. */
  function DurationWeeks(p: Project): (weeks: int)
    ensures p.startDate.Some? && p.endDate.Some? ==>
      (weeks - 1) * WeekMs < p.endDate.value - p.startDate.value <= weeks * WeekMs
    ensures p.startDate.None? || p.endDate.None? ==> weeks == DefaultDurationWeeks
  {
    if p.startDate.Some? && p.endDate.Some? then
      CeilDiv(p.endDate.value - p.startDate.value, WeekMs)
    else DefaultDurationWeeks
  }

  /** `projectDurationWeeks > 0 ? projectTotalHours / projectDurationWeeks : 0`. */
  function TargetWeeklyHours(p: Project): (hours: real)
    ensures DurationWeeks(p) > 0 ==> hours * DurationWeeks(p) as real == TotalHours(p)
    ensures DurationWeeks(p) <= 0 ==> hours == 0.0
  {
    var weeks := DurationWeeks(p);
    if weeks > 0 then TotalHours(p) / weeks as real else 0.0
  }

  /** `Math.min(targetWeeklyHours, weeklyCapacity * 0.6)`: the even spread of the
      project's hours over its weeks, capped at 60% of the capacity. */
  function TargetHoursPerWeek(p: Project, capacity: real): (hours: real)
    ensures hours <= TargetShare * capacity
    ensures hours <= TargetWeeklyHours(p)
    ensures hours == TargetWeeklyHours(p) || hours == TargetShare * capacity
  {
    Min(TargetWeeklyHours(p), capacity * TargetShare)
  }

  /** `getProjectStatus`, with the clock reading passed in as `now`. */
  function ProjectStatus(p: Project, now: int): (s: Status)
    ensures p.isDraft ==> s == Planned
  {
    if p.isDraft then Planned
    else if p.endDate.Some? && p.endDate.value < now then Completed
    else if p.startDate.Some? && p.startDate.value > now then Planned
    else InProgress
  }

  /** The status rules, stated for each outcome: a project is completed exactly when
      it is not a draft and has ended; planned exactly when it is a draft, or has not
      ended and starts later; in progress otherwise. A draft is never completed. */
  lemma StatusCases(p: Project, now: int)
    ensures ProjectStatus(p, now) == Completed <==>
      !p.isDraft && p.endDate.Some? && p.endDate.value < now
    ensures ProjectStatus(p, now) == Planned <==>
      p.isDraft || (!(p.endDate.Some? && p.endDate.value < now) && p.startDate.Some? && p.startDate.value > now)
    ensures ProjectStatus(p, now) == InProgress <==>
      !p.isDraft && !(p.endDate.Some? && p.endDate.value < now) && !(p.startDate.Some? && p.startDate.value > now)
  {
  }

  /** `isLongTermProject`, on the same total hours and duration the weekly target
      is computed from. */
  function IsLongTerm(p: Project): (long: bool)
    ensures long <==> TotalHours(p) > LongTermHours || DurationWeeks(p) > LongTermWeeks
  {
    TotalHours(p) > LongTermHours || DurationWeeks(p) > LongTermWeeks
  }

  /** A project without both dates runs for the default 12 weeks, which is not long:
      it is long term exactly when it has more than 200 hours. */
  lemma UndatedLongTerm(p: Project)
    requires p.startDate.None? || p.endDate.None?
    ensures IsLongTerm(p) <==> TotalHours(p) > LongTermHours
  {
  }

  /** `calculateProjectStartWeek`: the week, counted from now and rounded down, in
      which the project starts; -4 without a start date. */
  function StartWeek(p: Project, now: int): (week: int)
    ensures p.startDate.Some? ==> week * WeekMs <= p.startDate.value - now < (week + 1) * WeekMs
    ensures p.startDate.None? ==> week == DefaultStartWeek
  {
    if p.startDate.Some? then FloorDiv(p.startDate.value - now, WeekMs) else DefaultStartWeek
  }

  /** `calculateProjectEndWeek`: the week, counted from now and rounded down, in
      which the project ends; 20 without an end date. */
  function EndWeek(p: Project, now: int): (week: int)
    ensures p.endDate.Some? ==> week * WeekMs <= p.endDate.value - now < (week + 1) * WeekMs
    ensures p.endDate.None? ==> week == DefaultEndWeek
  {
    if p.endDate.Some? then FloorDiv(p.endDate.value - now, WeekMs) else DefaultEndWeek
  }

  /** `Math.ceil(weeks / 4.33)`. */
  function MonthsFor(weeks: int): (months: int)
    ensures (months - 1) * WeeksPerMonthHundredths < weeks * 100 <= months * WeeksPerMonthHundredths
  {
    CeilDiv(weeks * 100, WeeksPerMonthHundredths)
  }

  /** `calculateDuration` on a duration in weeks. */
  function DurationText(weeks: int): (text: string)
    ensures text == "TBD" <==> weeks <= 1
  {
    var months := MonthsFor(weeks);
    if months > 1 then NatToDecimal(months) + " months"
    else if weeks > 1 then NatToDecimal(weeks) + " weeks"
    else "TBD"
  }

  /** The label by range of the duration: five weeks or more (more than 4.33) are
      given in months, two to four weeks in weeks, and anything shorter is "TBD". */
  lemma DurationTextCases(weeks: int)
    ensures weeks >= 5 ==> (MonthsFor(weeks) >= 2 &&
      DurationText(weeks) == NatToDecimal(MonthsFor(weeks)) + " months")
    ensures 2 <= weeks <= 4 ==> DurationText(weeks) == NatToDecimal(weeks) + " weeks"
    ensures weeks <= 1 ==> DurationText(weeks) == "TBD"
  {
    var m := MonthsFor(weeks);
    if weeks <= 4 {
      assert (m - 1) * 433 < 400;
      assert m <= 1;
    } else {
      assert 500 <= m * 433;
      assert m >= 2;
    }
  }

  /** Worked case: a ten-week project is labelled "3 months" (10 / 4.33 rounds up to 3). */
  lemma TenWeeksLabel()
    ensures DurationText(10) == "3 months"
  {
    assert MonthsFor(10) == 3;
  }

  /** The `monthlyHours` array: twelve entries, each the weekly target. */
  function MonthlyHours(target: real): (months: seq<real>)
    ensures |months| == 12
    ensures forall i :: 0 <= i < |months| ==> months[i] == target
  {
    seq(12, _ => target)
  }

  /** `projectId`: the project name lower-cased with each run of whitespace turned
      into '-', or `project-<id>` when the project has no name. */
  function ProjectSlug(p: Project): (slug: string)
    ensures p.name != "" ==> |slug| <= |p.name| && forall i :: 0 <= i < |slug| ==> !IsWhitespace(slug[i])
    ensures p.name == "" ==> slug == "project-" + p.id
  {
    var slug := DashWhitespaceRuns(ToLowerAscii(p.name));
    if slug != "" then slug else "project-" + p.id
  }

  /** `project.activities?.[0]?.name || 'General Work'`. */
  function FirstActivityName(p: Project): (name: string)
    ensures name != ""
    ensures (p.activities == [] || p.activities[0].name == "") ==> name == "General Work"
    ensures p.activities != [] && p.activities[0].name != "" ==> name == p.activities[0].name
  {
    if |p.activities| > 0 && p.activities[0].name != "" then p.activities[0].name else "General Work"
  }

  /** `project.activities?.[0]?.tasks?.[0]?.name || project.code || 'Project Tasks'`. */
  function FirstTaskName(p: Project): (name: string)
    ensures name != ""
    ensures p.activities != [] && p.activities[0].tasks != [] && p.activities[0].tasks[0].name != "" ==>
      name == p.activities[0].tasks[0].name
    ensures (p.activities == [] || p.activities[0].tasks == [] || p.activities[0].tasks[0].name == "") ==>
      name == if p.code != "" then p.code else "Project Tasks"
  {
    if |p.activities| > 0 && |p.activities[0].tasks| > 0 && p.activities[0].tasks[0].name != "" then
      p.activities[0].tasks[0].name
    else if p.code != "" then p.code
    else "Project Tasks"
  }

  /** `project.activities?.[0]?.availableHours || projectTotalHours`. */
  function FirstActivityHours(p: Project): (hours: real)
    ensures p.activities != [] && p.activities[0].availableHours.Some? ==> hours == p.activities[0].availableHours.value
    ensures (p.activities == [] || p.activities[0].availableHours.None?) ==> hours == TotalHours(p)
  {
    if |p.activities| > 0 && p.activities[0].availableHours.Some? then p.activities[0].availableHours.value
    else TotalHours(p)
  }

  /** The task built for the project at position `index` of a user's list (lines
      129-157). */
  function BuildTask(userId: string, p: Project, index: nat, capacity: real, now: int): (t: Task)
    ensures t.targetHoursPerWeek <= TargetShare * capacity
    ensures t.targetHoursPerWeek == Min(TargetWeeklyHours(p), TargetShare * capacity)
    ensures |t.monthlyHours| == 12 && forall i :: 0 <= i < 12 ==> t.monthlyHours[i] == t.targetHoursPerWeek
    ensures t.isLongTerm <==> t.totalProjectHours > LongTermHours || DurationWeeks(p) > LongTermWeeks
    ensures t.estimatedHours == t.totalProjectHours == TotalHours(p) && t.actualHours == 0.0
    ensures t.color == ProjectColor(ColorKey(p.id, index)) && t.color in ProjectColors
    ensures t.status == ProjectStatus(p, now)
    ensures t.startWeek == StartWeek(p, now) && t.endWeek == EndWeek(p, now)
    ensures t.duration == DurationText(DurationWeeks(p))
    ensures t.activity == FirstActivityName(p) && t.task == FirstTaskName(p)
    ensures t.totalActivityHours == FirstActivityHours(p)
    ensures t.id == userId + "-" + p.id + "-" + NatToDecimal(index)
    ensures t.project == if p.name != "" then p.name else "Unnamed Project"
    ensures t.projectId == ProjectSlug(p)
    ensures t.velocity == 0.0 && t.pattern == WorkPattern
  {
    var total := TotalHours(p);
    var target := TargetHoursPerWeek(p, capacity);
    Task(
      id := userId + "-" + p.id + "-" + NatToDecimal(index),
      project := if p.name != "" then p.name else "Unnamed Project",
      activity := FirstActivityName(p),
      task := FirstTaskName(p),
      color := ProjectColor(ColorKey(p.id, index)),
      estimatedHours := total,
      actualHours := 0.0,
      totalActivityHours := FirstActivityHours(p),
      totalProjectHours := total,
      velocity := 0.0,
      status := ProjectStatus(p, now),
      startWeek := StartWeek(p, now),
      endWeek := EndWeek(p, now),
      pattern := WorkPattern,
      isLongTerm := IsLongTerm(p),
      targetHoursPerWeek := target,
      duration := DurationText(DurationWeeks(p)),
      projectId := ProjectSlug(p),
      monthlyHours := MonthlyHours(target))
  }

  /** Worked case: 120 planned hours over exactly ten weeks, with a capacity of 40,
      give a target of 12 hours a week (below the cap of 24) and no long-term flag. */
  lemma TenWeekProject(userId: string, p: Project, now: int)
    requires p.plannedHours == Some(120.0)
    requires p.startDate.Some? && p.endDate.Some? && p.endDate.value - p.startDate.value == 10 * WeekMs
    ensures DurationWeeks(p) == 10
    ensures BuildTask(userId, p, 0, 40.0, now).targetHoursPerWeek == 12.0
    ensures !BuildTask(userId, p, 0, 40.0, now).isLongTerm
  {
    var w := DurationWeeks(p);
    assert (w - 1) * WeekMs < 10 * WeekMs <= w * WeekMs;
    assert w == 10;
  }

  // ---------------------------------------------------------- member aggregation

  /** `tasks.map((project, index) => ...)`. */
  function BuildTasks(userId: string, projects: seq<Project>, capacity: real, now: int): (tasks: seq<Task>)
    ensures |tasks| == |projects|
    ensures forall i :: 0 <= i < |projects| ==> tasks[i] == BuildTask(userId, projects[i], i, capacity, now)
  {
    seq(|projects|, i requires 0 <= i < |projects| => BuildTask(userId, projects[i], i, capacity, now))
  }

  /** `tasks.reduce((sum, task) => sum + task.targetHoursPerWeek, 0)`. */
  function SumTargets(tasks: seq<Task>): real {
    if tasks == [] then 0.0 else SumTargets(tasks[..|tasks| - 1]) + tasks[|tasks| - 1].targetHoursPerWeek
  }

  /** Two tasks built for the same user from projects with the same id have
      different ids when their positions differ: the index is the last part of
      the id, and distinct numbers render differently. */
  lemma TaskIdsDiffer(userId: string, p: Project, q: Project, i: nat, j: nat, capacity: real, now: int)
    requires p.id == q.id && i != j
    ensures BuildTask(userId, p, i, capacity, now).id != BuildTask(userId, q, j, capacity, now).id
  {
    var prefix := userId + "-" + p.id + "-";
    var a, b := NatToDecimal(i), NatToDecimal(j);
    assert a != b by {
      if a == b {
        NatToDecimalInjective(i, j);
      }
    }
    assert (prefix + a)[|prefix|..] == a && (prefix + b)[|prefix|..] == b;
  }

  /** Each task takes at most 60% of the capacity, so the sum is at most that much
      per task. */
  lemma {:induction false} SumTargetsBound(tasks: seq<Task>, capacity: real)
    requires forall i :: 0 <= i < |tasks| ==> tasks[i].targetHoursPerWeek <= TargetShare * capacity
    ensures SumTargets(tasks) <= |tasks| as real * (TargetShare * capacity)
  {
    if tasks != [] {
      SumTargetsBound(tasks[..|tasks| - 1], capacity);
    }
  }

  /** `Math.round(hours * 10) / 10`: the nearest tenth, halves rounded up. */
  function RoundToTenth(hours: real): (r: real)
    ensures r - 1.0 / 20.0 <= hours < r + 1.0 / 20.0
    ensures (r * 10.0).Floor as real == r * 10.0
  {
    Round(hours * 10.0) as real / 10.0
  }

  /** `Math.round((scheduledHours / weeklyCapacity) * 100)`: a whole percentage when
      the capacity is not zero; a division by zero gives Infinity, -Infinity or NaN
      according to the sign of the sum. */
  function UtilizationOf(sum: real, capacity: real): (u: Utilization)
    ensures capacity != 0.0 ==> (u.Percent? &&
      u.value as real - 1.0 / 2.0 <= sum / capacity * 100.0 < u.value as real + 1.0 / 2.0)
    ensures capacity == 0.0 ==> !u.Percent?
  {
    if capacity != 0.0 then Percent(Round(sum / capacity * 100.0))
    else if sum > 0.0 then PlusInfinity
    else if sum < 0.0 then MinusInfinity
    else NotANumber
  }

  /** `${user.firstName || ''} ${user.lastName || ''}`.trim() || 'Unknown User'. */
  function DisplayName(user: User): (name: string)
    ensures FullName(user.firstName, user.lastName) != "" ==> name == FullName(user.firstName, user.lastName)
    ensures FullName(user.firstName, user.lastName) == "" ==> name == UnknownUser
  {
    var full := FullName(user.firstName, user.lastName);
    if full != "" then full else UnknownUser
  }

  /** `transformUserToTeamMember(user, userProjects, offices)`, with the clock reading
      passed in as `now`. */
  function TransformUser(user: User, userProjects: seq<Project>, offices: seq<Office>, now: int): (m: TeamMember)
    ensures m.id == user.id && m.name == DisplayName(user)
    ensures m.capacity == WeeklyCapacity(user, offices)
    ensures |m.tasks| == |userProjects|
    ensures forall i :: 0 <= i < |userProjects| ==>
      m.tasks[i] == BuildTask(user.id, userProjects[i], i, m.capacity, now)
    ensures forall i :: 0 <= i < |m.tasks| ==> m.tasks[i].targetHoursPerWeek <= TargetShare * m.capacity
    ensures m.scheduled == RoundToTenth(SumTargets(m.tasks))
    ensures m.utilization == UtilizationOf(SumTargets(m.tasks), m.capacity)
    ensures m.avatar == if user.avatar != "" then user.avatar else AvatarFor(user.firstName, user.lastName)
    ensures m.department == if user.department != "" then user.department else "Unknown"
    ensures m.role == if user.rol != "" then user.rol else "Team Member"
    ensures m.office == if user.officeName != "" then user.officeName else "Remote"
  {
    var capacity := WeeklyCapacity(user, offices);
    var tasks := BuildTasks(user.id, userProjects, capacity, now);
    var sum := SumTargets(tasks);
    TeamMember(
      id := user.id,
      name := DisplayName(user),
      avatar := if user.avatar != "" then user.avatar else AvatarFor(user.firstName, user.lastName),
      department := if user.department != "" then user.department else "Unknown",
      capacity := capacity,
      scheduled := RoundToTenth(sum),
      utilization := UtilizationOf(sum, capacity),
      role := if user.rol != "" then user.rol else "Team Member",
      office := if user.officeName != "" then user.officeName else "Remote",
      tasks := tasks)
  }

  /** A member without projects has nothing scheduled and, with a non-zero capacity,
      a utilization of 0%. */
  lemma NoProjectsNoLoad(user: User, offices: seq<Office>, now: int)
    ensures TransformUser(user, [], offices, now).scheduled == 0.0
    ensures WeeklyCapacity(user, offices) != 0.0 ==> TransformUser(user, [], offices, now).utilization == Percent(0)
  {
    var m := TransformUser(user, [], offices, now);
    assert m.tasks == [];
    assert SumTargets(m.tasks) == 0.0;
    ZeroRoundsToZero(m.capacity);
  }

  lemma ZeroRoundsToZero(capacity: real)
    ensures RoundToTenth(0.0) == 0.0
    ensures capacity != 0.0 ==> UtilizationOf(0.0, capacity) == Percent(0)
  {
    assert Round(0.0) == 0;
  }

  /** With a positive capacity, tasks that each take at most 60% of it give a whole
      utilization of at most 60% per task: a member with n projects is at most at
      60 * n percent. */
  lemma UtilizationWithinShare(tasks: seq<Task>, capacity: real)
    requires capacity > 0.0
    requires forall i :: 0 <= i < |tasks| ==> tasks[i].targetHoursPerWeek <= TargetShare * capacity
    ensures UtilizationOf(SumTargets(tasks), capacity).Percent?
    ensures UtilizationOf(SumTargets(tasks), capacity).value <= 60 * |tasks|
  {
    SumTargetsBound(tasks, capacity);
    PercentBound(SumTargets(tasks), capacity, |tasks|);
  }

  lemma PercentBound(sum: real, capacity: real, n: nat)
    requires capacity > 0.0 && sum <= n as real * (TargetShare * capacity)
    ensures UtilizationOf(sum, capacity).Percent?
    ensures UtilizationOf(sum, capacity).value <= 60 * n
  {
    var u := UtilizationOf(sum, capacity).value;
    assert sum / capacity <= n as real * TargetShare by {
      assert sum <= (n as real * TargetShare) * capacity;
    }
    assert (u as real) < 60.0 * n as real + 1.0;
  }

  /** The utilization is computed from the unrounded sum of the targets, not from the
      rounded `scheduled` value: with a capacity of 1 hour (day hours of 0.2) and a
      single target of 0.04 hours, `scheduled` is 0 while the utilization is 4%. */
  lemma UtilizationUsesUnroundedSum()
    ensures var sum := 4.0 / 100.0;
      RoundToTenth(sum) == 0.0 && UtilizationOf(sum, 1.0) == Percent(4) &&
      UtilizationOf(RoundToTenth(sum), 1.0) == Percent(0)
  {
    assert Round(4.0 / 10.0) == 0;
    assert Round(4.0) == 4;
    assert Round(0.0) == 0;
  }
}
