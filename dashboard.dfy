/** The dashboard component itself: which screen it shows, the small display
    selectors, and the state its handlers update (lines 4-42, 262-334, 379-386,
    389-497, 513-539 of ResourcePlanner.jsx). */
module Dashboard {
  import opened Options
  import opened JsText
  import opened JsArray
  import opened Records
  import opened Transform
  import opened Pipeline
  import JsNumber
  import ApiClient

  // ------------------------------------------------------------------ screens

  /** What the component renders: the token form, the loading spinner, the
      connection-error panel, or the planner board. */
  datatype Screen = TokenEntry | Loading | ErrorPanel | Board

  /** The early returns of the render: the token form when it was asked for or
      when there is no token and nothing is loading, then the spinner, then the
      error panel; the board otherwise. An empty `error` is JavaScript's null. */
  function SelectScreen(showTokenModal: bool, authToken: string, loading: bool, error: string): Screen {
    if showTokenModal || (authToken == "" && !loading) then TokenEntry
    else if loading then Loading
    else if error != "" then ErrorPanel
    else Board
  }

  /** Each screen, exactly when it is shown. */
  lemma ScreenCases(showTokenModal: bool, authToken: string, loading: bool, error: string)
    ensures SelectScreen(showTokenModal, authToken, loading, error) == TokenEntry <==>
      showTokenModal || (authToken == "" && !loading)
    ensures SelectScreen(showTokenModal, authToken, loading, error) == Loading <==>
      !showTokenModal && loading
    ensures SelectScreen(showTokenModal, authToken, loading, error) == ErrorPanel <==>
      !showTokenModal && authToken != "" && !loading && error != ""
    ensures SelectScreen(showTokenModal, authToken, loading, error) == Board <==>
      !showTokenModal && authToken != "" && !loading && error == ""
  {
  }

  // ---------------------------------------------------------------- selectors

  /** The colour family of a badge; each maps to one fixed class string. */
  datatype Tone = Red | Orange | Blue | Green | Gray

  /** `getUtilizationColor`: over 100 red, over 85 orange, under 60 blue, green
      otherwise. Infinity is above every threshold and minus infinity below, and
      NaN fails every comparison, so it is green. */
  function UtilizationTone(u: Utilization): Tone {
    match u
    case Percent(p) => if p > 100 then Red else if p > 85 then Orange else if p < 60 then Blue else Green
    case PlusInfinity => Red
    case MinusInfinity => Blue
    case NotANumber => Green
  }

  /** The four bands of finite utilization. */
  lemma UtilizationBands(p: int)
    ensures UtilizationTone(Percent(p)) == Red <==> p > 100
    ensures UtilizationTone(Percent(p)) == Orange <==> 85 < p <= 100
    ensures UtilizationTone(Percent(p)) == Green <==> 60 <= p <= 85
    ensures UtilizationTone(Percent(p)) == Blue <==> p < 60
  {
  }

  /** Under, healthy, high, over: the order of the bands. Gray is never a
      utilization tone; it is ranked with blue only so that the rank is total. */
  function ToneRank(t: Tone): nat {
    match t
    case Blue => 0
    case Green => 1
    case Orange => 2
    case Red => 3
    case Gray => 0
  }

  /** More load never gives a lower band. */
  lemma UtilizationToneMonotone(p: int, q: int)
    requires p <= q
    ensures ToneRank(UtilizationTone(Percent(p))) <= ToneRank(UtilizationTone(Percent(q)))
  {
  }

  /** A member without projects on an office with a positive capacity is shown as
      under-loaded. */
  lemma IdleMemberIsBlue(user: User, offices: seq<Office>, now: int)
    requires WeeklyCapacity(user, offices) != 0.0
    ensures UtilizationTone(TransformUser(user, [], offices, now).utilization) == Blue
  {
    NoProjectsNoLoad(user, offices, now);
  }

  /** The status text a task carries, as `getProjectStatus` returns it. */
  function StatusName(s: Status): string {
    match s
    case Planned => "planned"
    case InProgress => "in-progress"
    case Completed => "completed"
  }

  /** Each status has its own text, and none is "over-budget". */
  lemma StatusNameDistinct(s: Status, t: Status)
    ensures StatusName(s) != "over-budget"
    ensures StatusName(s) == StatusName(t) <==> s == t
  {
  }

  /** `getTaskStatusColor`: completed green, in progress blue, over budget red,
      planned and anything else gray. */
  function TaskStatusTone(status: string): Tone {
    if status == "completed" then Green
    else if status == "in-progress" then Blue
    else if status == "over-budget" then Red
    else Gray
  }

  /** The derived statuses never show the over-budget colour, and each shows a
      colour of its own. */
  lemma DerivedStatusTones(s: Status, t: Status)
    ensures TaskStatusTone(StatusName(s)) != Red
    ensures s != t ==> TaskStatusTone(StatusName(s)) != TaskStatusTone(StatusName(t))
  {
  }

  /** A status text outside the four known ones falls back to gray. */
  lemma UnknownStatusIsGray(status: string)
    requires status != "completed" && status != "in-progress" && status != "over-budget"
    ensures TaskStatusTone(status) == Gray
  {
  }

  /** `getRemainingHours`: the estimate not yet spent, never below zero. */
  function RemainingHours(t: Task): (r: real)
    ensures r >= 0.0 && r >= t.estimatedHours - t.actualHours
    ensures r == 0.0 || r == t.estimatedHours - t.actualHours
  {
    JsNumber.Max(0.0, t.estimatedHours - t.actualHours)
  }

  /** Nothing remains exactly when the hours spent reach the estimate. */
  lemma NothingRemainsIffSpent(t: Task)
    ensures RemainingHours(t) == 0.0 <==> t.actualHours >= t.estimatedHours
  {
  }

  /** The department drop-down's value for "every department". */
  const AllDepartments := "all"

  /** The members shown for the selected department: everyone under "all", else
      those whose department is the selection, in team order. */
  function DepartmentFilter(team: seq<TeamMember>, selected: string): (shown: seq<TeamMember>)
    ensures selected == AllDepartments ==> shown == team
    ensures forall m :: m in shown <==> m in team && (selected == AllDepartments || m.department == selected)
  {
    Filter(team, (m: TeamMember) => selected == AllDepartments || m.department == selected)
  }

  /** Filtering keeps the team's order. */
  lemma DepartmentFilterInOrder(team: seq<TeamMember>, selected: string)
    ensures IsSubsequence(DepartmentFilter(team, selected), team)
  {
    FilterIsSubsequence(team, (m: TeamMember) => selected == AllDepartments || m.department == selected);
  }

  /** When no user has a department, the drop-down offers only "General", yet every
      member's department is then "Unknown" or blank, so choosing it empties the board. */
  lemma GeneralFallbackShowsNobody(users: seq<User>, projects: seq<Project>, offices: seq<Office>, now: int)
    requires forall i :: 0 <= i < |users| ==> IsBlank(users[i].department)
    ensures DepartmentList(users) == [GeneralDepartment]
    ensures DepartmentFilter(BuildTeam(users, projects, offices, now), GeneralDepartment) == []
  {
    DepartmentFallback(users);
    var team := BuildTeam(users, projects, offices, now);
    assert !IsBlank(GeneralDepartment) by {
      assert !IsWhitespace(GeneralDepartment[0]);
    }
    forall m | m in team ensures m.department != GeneralDepartment {
      var i := MemberOrigin(users, projects, offices, now, m);
    }
    NoneShown(team, GeneralDepartment);
  }

  /** The user a team member was made from, with the department rule of line 166. */
  lemma MemberOrigin(users: seq<User>, projects: seq<Project>, offices: seq<Office>, now: int, m: TeamMember)
    returns (i: nat)
    requires m in BuildTeam(users, projects, offices, now)
    ensures i < |users|
    ensures m.department == if users[i].department != "" then users[i].department else "Unknown"
  {
    TeamIsNamedUsers(users, projects, offices, now);
    i :| 0 <= i < |users| && m == TransformUser(users[i], UserProjects(users[i], projects), offices, now);
  }

  /** A filter no member passes shows nothing. */
  lemma NoneShown(team: seq<TeamMember>, selected: string)
    requires selected != AllDepartments
    requires forall m :: m in team ==> m.department != selected
    ensures DepartmentFilter(team, selected) == []
  {
    var keep := (m: TeamMember) => selected == AllDepartments || m.department == selected;
    FilterCount(team, keep);
    assert multiset(Filter(team, keep)) == multiset{};
  }

  /** `handleTokenSubmit`'s rule: the trimmed token, or nothing for a blank entry. */
  function TrimmedToken(token: string): (r: Option<string>)
    ensures r.None? <==> IsBlank(token)
    ensures r.Some? ==> r.value != [] && !IsWhitespace(r.value[0]) && !IsWhitespace(r.value[|r.value| - 1])
    ensures var lo := LeadingWhitespace(token);
      r.Some? ==> lo + |r.value| <= |token| && r.value == token[lo..lo + |r.value|]
    ensures r.Some? ==> forall i :: 0 <= i < LeadingWhitespace(token) ==> IsWhitespace(token[i])
    ensures r.Some? ==> forall i :: LeadingWhitespace(token) + |r.value| <= i < |token| ==> IsWhitespace(token[i])
  {
    var t := Trim(token);
    if t != "" then Some(t) else None
  }

  // --------------------------------------------------------- component state

  const TokenRequiredMessage := "Authentication token required. Please set your Workdeck token."
  const NoTokenFoundMessage := "No authentication token found. Please set your Workdeck token."

  /** The three lists the loader fetches, already decoded. */
  datatype Batch = Batch(users: seq<User>, projects: seq<Project>, offices: seq<Office>)

  /** How the loader's `try` block ends: with every list read, with a failure
      before the departments are stored (a rejected request, or a user list that
      cannot be mapped), or with a failure after `setDepartments` (line 298), when
      the project or office list cannot be read while the team is shaped. */
  datatype LoadOutcome =
    | Fetched(batch: Batch)
    | FailedEarly(message: string)
    | FailedAfterDepartments(users: seq<User>, message: string)

  /** The component's state: one field per `useState` the modelled handlers update.
      `error` is "" for null and `lastSync` None for null. */
  class Planner {
    var authToken: string
    var showTokenModal: bool
    var loading: bool
    var error: string
    var teamData: seq<TeamMember>
    var projects: seq<Project>
    var departments: seq<string>
    var lastSync: Option<int>
    var selectedDepartment: string
    var currentWeekOffset: int

    /** What the handlers keep true: the team holds only usable names and the
        department list has no repeats. */
    predicate Valid()
      reads this
    {
      (forall m :: m in teamData ==> IsValidMember(m)) && NoDuplicates(departments)
    }

    /** The screen the current state renders. */
    function CurrentScreen(): Screen
      reads this
    {
      SelectScreen(showTokenModal, authToken, loading, error)
    }

    /** `filteredTeamMembers` (lines 513-515): in a valid state, every member the
        board lists has a usable name. */
    function FilteredTeamMembers(): (shown: seq<TeamMember>)
      reads this
      ensures Valid() ==> forall m :: m in shown ==> IsValidMember(m)
    {
      DepartmentFilter(teamData, selectedDepartment)
    }

    /** The first render: the stored token (`|| ''`), loading, nothing fetched. */
    constructor (storedToken: string)
      ensures Valid()
      ensures authToken == storedToken && loading && !showTokenModal && error == ""
      ensures teamData == [] && projects == [] && departments == [] && lastSync == None
      ensures selectedDepartment == AllDepartments && currentWeekOffset == 0
    {
      authToken := storedToken;
      showTokenModal := false;
      loading := true;
      error := "";
      teamData := [];
      projects := [];
      departments := [];
      lastSync := None;
      selectedDepartment := AllDepartments;
      currentWeekOffset := 0;
    }

    /** The mount effect (lines 36-42): without a token, stop loading and ask for one. */
    method CheckToken()
      requires Valid()
      modifies this
      ensures old(authToken) == "" ==> showTokenModal && !loading && error == TokenRequiredMessage
      ensures old(authToken) == "" ==> CurrentScreen() == TokenEntry
      ensures old(authToken) != "" ==> showTokenModal == old(showTokenModal) && loading == old(loading) && error == old(error)
      ensures authToken == old(authToken) && teamData == old(teamData) && projects == old(projects)
      ensures departments == old(departments) && lastSync == old(lastSync)
      ensures selectedDepartment == old(selectedDepartment) && currentWeekOffset == old(currentWeekOffset)
      ensures Valid()
    {
      if authToken == "" {
        showTokenModal := true;
        loading := false;
        error := TokenRequiredMessage;
      }
    }

    /** `loadWorkdeckData` (lines 262-334), with the fetches already settled. A
        success replaces the departments, the valid team, the projects and the
        sync time; an early failure only records its message; a late one has
        already replaced the departments. */
    method LoadWorkdeckData(outcome: LoadOutcome, now: int)
      requires Valid()
      modifies this
      ensures old(authToken) == "" ==>
        error == NoTokenFoundMessage && !loading && showTokenModal &&
        teamData == old(teamData) && projects == old(projects) &&
        departments == old(departments) && lastSync == old(lastSync)
      ensures old(authToken) != "" && outcome.Fetched? ==>
        var b := outcome.batch;
        departments == DepartmentList(b.users) &&
        teamData == BuildTeam(b.users, b.projects, b.offices, now) &&
        projects == b.projects && lastSync == Some(now) &&
        !loading && error == "" && showTokenModal == old(showTokenModal)
      ensures old(authToken) != "" && outcome.FailedEarly? ==>
        error == outcome.message && !loading && showTokenModal == old(showTokenModal) &&
        teamData == old(teamData) && projects == old(projects) &&
        departments == old(departments) && lastSync == old(lastSync)
      ensures old(authToken) != "" && outcome.FailedAfterDepartments? ==>
        error == outcome.message && !loading && showTokenModal == old(showTokenModal) &&
        departments == DepartmentList(outcome.users) &&
        teamData == old(teamData) && projects == old(projects) && lastSync == old(lastSync)
      ensures authToken == old(authToken)
      ensures selectedDepartment == old(selectedDepartment) && currentWeekOffset == old(currentWeekOffset)
      ensures Valid()
    {
      if authToken == "" {
        error := NoTokenFoundMessage;
        loading := false;
        showTokenModal := true;
        return;
      }
      loading := true;
      error := "";
      match outcome
      case FailedEarly(message) =>
        error := message;
        loading := false;
      case FailedAfterDepartments(users, message) =>
        departments := DepartmentList(users);
        error := message;
        loading := false;
      case Fetched(b) =>
        var loaded := LoadPipeline(b.users, b.projects, b.offices, now);
        Show(loaded, b.projects, now);
    }

    /** The success path of the loader: the shaped lists, the projects and the sync
        time are stored and loading ends. */
    method Show(loaded: Loaded, fetchedProjects: seq<Project>, now: int)
      modifies this
      ensures departments == loaded.departments && teamData == loaded.team
      ensures projects == fetchedProjects && lastSync == Some(now) && !loading
      ensures authToken == old(authToken) && showTokenModal == old(showTokenModal) && error == old(error)
      ensures selectedDepartment == old(selectedDepartment) && currentWeekOffset == old(currentWeekOffset)
    {
      departments := loaded.departments;
      teamData := loaded.team;
      projects := fetchedProjects;
      lastSync := Some(now);
      loading := false;
    }

    /** `handleTokenSubmit` (lines 379-386): a non-blank entry is trimmed, becomes
        the token and closes the form; `stored` is what goes to local storage. */
    method SubmitToken(token: string) returns (stored: Option<string>)
      requires Valid()
      modifies this
      ensures stored == TrimmedToken(token)
      ensures stored.Some? ==> authToken == stored.value && !showTokenModal && error == ""
      ensures stored.None? ==> authToken == old(authToken) && showTokenModal == old(showTokenModal) && error == old(error)
      ensures loading == old(loading) && teamData == old(teamData) && projects == old(projects)
      ensures departments == old(departments) && lastSync == old(lastSync)
      ensures selectedDepartment == old(selectedDepartment) && currentWeekOffset == old(currentWeekOffset)
      ensures Valid()
    {
      stored := TrimmedToken(token);
      if stored.Some? {
        authToken := stored.value;
        showTokenModal := false;
        error := "";
      }
    }

    /** The "Update Token" buttons (lines 497, 631): reopen the token form. */
    method RequestTokenUpdate()
      requires Valid()
      modifies this
      ensures showTokenModal && CurrentScreen() == TokenEntry
      ensures authToken == old(authToken) && loading == old(loading) && error == old(error)
      ensures teamData == old(teamData) && projects == old(projects)
      ensures departments == old(departments) && lastSync == old(lastSync)
      ensures selectedDepartment == old(selectedDepartment) && currentWeekOffset == old(currentWeekOffset)
      ensures Valid()
    {
      showTokenModal := true;
    }

    /** The department drop-down (line 690). */
    method SelectDepartment(department: string)
      requires Valid()
      modifies this
      ensures selectedDepartment == department
      ensures FilteredTeamMembers() == DepartmentFilter(old(teamData), department)
      ensures authToken == old(authToken) && showTokenModal == old(showTokenModal)
      ensures loading == old(loading) && error == old(error)
      ensures teamData == old(teamData) && projects == old(projects)
      ensures departments == old(departments) && lastSync == old(lastSync)
      ensures currentWeekOffset == old(currentWeekOffset)
      ensures Valid()
    {
      selectedDepartment := department;
    }

    /** `goToPreviousWeek` (line 518). */
    method GoToPreviousWeek()
      modifies this`currentWeekOffset
      ensures currentWeekOffset == old(currentWeekOffset) - 1
    {
      currentWeekOffset := currentWeekOffset - 1;
    }

    /** `goToNextWeek` (line 519). */
    method GoToNextWeek()
      modifies this`currentWeekOffset
      ensures currentWeekOffset == old(currentWeekOffset) + 1
    {
      currentWeekOffset := currentWeekOffset + 1;
    }

    /** `goToToday` (line 520). */
    method GoToToday()
      modifies this`currentWeekOffset
      ensures currentWeekOffset == 0
    {
      currentWeekOffset := 0;
    }
  }

  /** A rejected token: the failed load shows the error panel, "Update Token"
      brings back the form, and a new token closes it again. */
  method RejectedTokenRecovery(token: string, newToken: string, now: int) returns (screens: seq<Screen>)
    requires token != "" && !IsBlank(newToken)
    ensures screens == [ErrorPanel, TokenEntry, Board]
  {
    var planner := new Planner(token);
    planner.CheckToken();
    var rejected := ApiClient.FetchQuery(token, ApiClient.Response(401, "Unauthorized", ApiClient.JNull));
    ApiClient.StatusMapping(token, ApiClient.Response(401, "Unauthorized", ApiClient.JNull));
    planner.LoadWorkdeckData(FailedEarly(ApiClient.Message(rejected.error)), now);
    var first := planner.CurrentScreen();
    planner.RequestTokenUpdate();
    var second := planner.CurrentScreen();
    var stored := planner.SubmitToken(newToken);
    var third := planner.CurrentScreen();
    screens := [first, second, third];
  }

  /** Moving a week back and then forward returns to the same week. */
  method WeekNavigationRoundTrip(planner: Planner)
    modifies planner`currentWeekOffset
    ensures planner.currentWeekOffset == old(planner.currentWeekOffset)
  {
    planner.GoToPreviousWeek();
    planner.GoToNextWeek();
  }
}
