/** The Workdeck API records the dashboard reads, and the view models it builds
    from them.

    Conventions for optional fields. A text field the API may leave out is a
    `string`, the empty string standing for an absent field: `||`, `&&` and
    `${x || ''}` treat the two alike. Ids placed bare in a template string
    (lines 130 and 137 of ResourcePlanner.jsx) would render an absent id as
    "undefined"; there the model puts "" instead.
    A numeric field that goes through `||` is an `Option<real>`: `None` when the
    field is absent or falsy, `Some(v)` when it is truthy, `v` being its numeric
    value. A date is an `Option<int>` of milliseconds since the epoch. */
module Records {

  import opened Options

  /** An entry of `office.timeTables`; `dayHours` is the value `parseFloat` reads
      from a truthy field. */
  datatype Timetable = Timetable(isMain: bool, dayHours: Option<real>)

  datatype Office = Office(id: string, timeTables: seq<Timetable>)

  /** A user as `/queries/users` returns it; `officeId` and `officeName` are the
      fields of `user.office`, and `rol` is the role. */
  datatype User = User(
    id: string,
    firstName: string,
    lastName: string,
    department: string,
    officeId: string,
    officeName: string,
    avatar: string,
    rol: string)

  /** A task inside a project activity, with the user ids of its participants. */
  datatype ActivityTask = ActivityTask(name: string, participants: seq<string>)

  datatype Activity = Activity(name: string, availableHours: Option<real>, tasks: seq<ActivityTask>)

  /** A project as `/queries/projects-summary` returns it; `members` holds the
      `user.id` of each entry of `project.members`. */
  datatype Project = Project(
    id: string,
    name: string,
    code: string,
    plannedHours: Option<real>,
    availableHours: Option<real>,
    startDate: Option<int>,
    endDate: Option<int>,
    isDraft: bool,
    members: seq<string>,
    activities: seq<Activity>)

  datatype Status = Planned | InProgress | Completed

  /** A member's utilization: `Math.round(scheduled / capacity * 100)`, which is not
      a finite number when the capacity is zero. */
  datatype Utilization = Percent(value: int) | PlusInfinity | MinusInfinity | NotANumber

  /** The view model of one project on one member's board. */
  datatype Task = Task(
    id: string,
    project: string,
    activity: string,
    task: string,
    color: string,
    estimatedHours: real,
    actualHours: real,
    totalActivityHours: real,
    totalProjectHours: real,
    velocity: real,
    status: Status,
    startWeek: int,
    endWeek: int,
    pattern: seq<bool>,
    isLongTerm: bool,
    targetHoursPerWeek: real,
    duration: string,
    projectId: string,
    monthlyHours: seq<real>)

  /** The view model of one team member. */
  datatype TeamMember = TeamMember(
    id: string,
    name: string,
    avatar: string,
    department: string,
    capacity: real,
    scheduled: real,
    utilization: Utilization,
    role: string,
    office: string,
    tasks: seq<Task>)
}
