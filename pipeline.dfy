/** The pure part of `loadWorkdeckData` (lines 290-320): from the users, projects and
    offices already fetched, the department list and the valid team. */
module Pipeline {

  import opened JsText
  import opened JsArray
  import opened Records
  import opened Palette
  import opened Transform

  const GeneralDepartment: string := "General"

  // ------------------------------------------------------------- departments

  /** `dept && dept.trim() !== ''`. */
  predicate HasDepartment(dept: string) {
    dept != "" && Trim(dept) != ""
  }

  /** `users.map(user => user.department)`. */
  function DepartmentNames(users: seq<User>): (names: seq<string>)
    ensures |names| == |users|
    ensures forall i :: 0 <= i < |users| ==> names[i] == users[i].department
  {
    seq(|users|, i requires 0 <= i < |users| => users[i].department)
  }

  /** The department list: the distinct non-blank departments of the users, or
      exactly ["General"] when no user has one. */
  function DepartmentList(users: seq<User>): (depts: seq<string>)
    ensures depts != [] && NoDuplicates(depts)
  {
    var found := Distinct(Filter(DepartmentNames(users), HasDepartment));
    if |found| == 0 then [GeneralDepartment] else found
  }

  /** When no user has a non-blank department, the list is exactly ["General"]. */
  lemma DepartmentFallback(users: seq<User>)
    requires forall i :: 0 <= i < |users| ==> IsBlank(users[i].department)
    ensures DepartmentList(users) == [GeneralDepartment]
  {
    var names := DepartmentNames(users);
    forall d | d in names ensures !HasDepartment(d) {
      HasDepartmentIffNonBlank(d);
    }
    FilterCount(names, HasDepartment);
    assert multiset(Filter(names, HasDepartment)) == multiset{};
  }

  /** When some user has a non-blank department, the list holds exactly the
      non-blank departments of the users. */
  lemma DepartmentsAreTheUsers(users: seq<User>)
    requires exists i :: 0 <= i < |users| && !IsBlank(users[i].department)
    ensures forall d :: d in DepartmentList(users) <==>
      !IsBlank(d) && exists i :: 0 <= i < |users| && users[i].department == d
  {
    var names := DepartmentNames(users);
    var found := Distinct(Filter(names, HasDepartment));
    var k :| 0 <= k < |users| && !IsBlank(users[k].department);
    HasDepartmentIffNonBlank(names[k]);
    assert names[k] in found;
    forall d ensures d in found <==> !IsBlank(d) && exists i :: 0 <= i < |users| && users[i].department == d {
      HasDepartmentIffNonBlank(d);
      if d in names {
        var i :| 0 <= i < |names| && names[i] == d;
        assert users[i].department == d;
      }
      if exists i :: 0 <= i < |users| && users[i].department == d {
        var i :| 0 <= i < |users| && users[i].department == d;
        assert names[i] == d;
      }
    }
  }

  lemma HasDepartmentIffNonBlank(d: string)
    ensures HasDepartment(d) <==> !IsBlank(d)
  {
  }

  /** Filtering keeps the relative order of first occurrences. */
  lemma {:induction false} FilterKeepsFirstOccurrenceOrder<T(!new)>(s: seq<T>, keep: T -> bool, x: T, y: T)
    requires x in Filter(s, keep) && y in Filter(s, keep)
    ensures IndexOf(Filter(s, keep), x) < IndexOf(Filter(s, keep), y) <==> IndexOf(s, x) < IndexOf(s, y)
  {
    var f, g := Filter(s, keep), Filter(s[1..], keep);
    if s[0] == x || s[0] == y {
    } else {
      FilterKeepsFirstOccurrenceOrder(s[1..], keep, x, y);
      if keep(s[0]) {
        assert f == [s[0]] + g;
        assert f[1..] == g;
      } else {
        assert f == g;
      }
    }
  }

  /** When some user has a department, the list holds the departments in the order
      of their first occurrence among the users. */
  lemma DepartmentsInFirstOccurrenceOrder(users: seq<User>)
    requires exists i :: 0 <= i < |users| && !IsBlank(users[i].department)
    ensures var depts := DepartmentList(users);
      forall i, j :: 0 <= i < j < |depts| ==>
        IndexOf(DepartmentNames(users), depts[i]) < IndexOf(DepartmentNames(users), depts[j])
  {
    var names := DepartmentNames(users);
    var kept := Filter(names, HasDepartment);
    var depts := DepartmentList(users);
    var k :| 0 <= k < |users| && !IsBlank(users[k].department);
    HasDepartmentIffNonBlank(names[k]);
    assert names[k] in kept;
    assert depts == Distinct(kept);
    DistinctInFirstOccurrenceOrder(kept);
    forall i, j | 0 <= i < j < |depts| ensures IndexOf(names, depts[i]) < IndexOf(names, depts[j]) {
      FilterKeepsFirstOccurrenceOrder(names, HasDepartment, depts[i], depts[j]);
    }
  }

  // --------------------------------------------------------------- association

  /** A project is associated with a user when the user is one of its members, or a
      participant of some task of some activity. */
  predicate IsAssociated(userId: string, p: Project) {
    || (exists m :: m in p.members && m == userId)
    || (exists a :: a in p.activities && exists t :: t in a.tasks && exists q :: q in t.participants && q == userId)
  }

  /** `projects.filter(...)` for one user (lines 301-313). */
  function UserProjects(user: User, projects: seq<Project>): (ps: seq<Project>)
    ensures |ps| <= |projects|
    ensures forall p :: p in ps <==> p in projects && IsAssociated(user.id, p)
    ensures forall p :: multiset(ps)[p] == if IsAssociated(user.id, p) then multiset(projects)[p] else 0
  {
    FilterCount(projects, p => IsAssociated(user.id, p));
    Filter(projects, p => IsAssociated(user.id, p))
  }

  /** A user's projects keep the order of the project list. */
  lemma UserProjectsInOrder(user: User, projects: seq<Project>)
    ensures IsSubsequence(UserProjects(user, projects), projects)
  {
    FilterIsSubsequence(projects, p => IsAssociated(user.id, p));
  }

  /** A project the user both belongs to and takes part in is still listed once:
      without duplicates in the project list there are none in the user's list. */
  lemma UserProjectsNoDuplicates(user: User, projects: seq<Project>)
    requires NoDuplicates(projects)
    ensures NoDuplicates(UserProjects(user, projects))
  {
    FilterKeepsNoDuplicates(projects, p => IsAssociated(user.id, p));
  }

  // ------------------------------------------------------------------- team

  /** `users.map(user => transformUserToTeamMember(user, userProjects, offices))`. */
  function TransformTeam(users: seq<User>, projects: seq<Project>, offices: seq<Office>, now: int): (team: seq<TeamMember>)
    ensures |team| == |users|
    ensures forall i :: 0 <= i < |users| ==>
      team[i] == TransformUser(users[i], UserProjects(users[i], projects), offices, now)
  {
    seq(|users|, i requires 0 <= i < |users| => TransformUser(users[i], UserProjects(users[i], projects), offices, now))
  }

  /** `member.name && member.name.trim() !== '' && member.name !== 'Unknown User'`. */
  predicate IsValidMember(m: TeamMember) {
    m.name != "" && Trim(m.name) != "" && m.name != UnknownUser
  }

  /** A transformed user is kept exactly when their trimmed full name is neither empty
      nor the literal "Unknown User". */
  lemma ValidMemberIffNamed(user: User, userProjects: seq<Project>, offices: seq<Office>, now: int)
    ensures IsValidMember(TransformUser(user, userProjects, offices, now)) <==>
      FullName(user.firstName, user.lastName) != "" && FullName(user.firstName, user.lastName) != UnknownUser
  {
    var full := FullName(user.firstName, user.lastName);
    var joined := user.firstName + " " + user.lastName;
    assert full == Trim(joined);
    TrimIdempotent(joined);
  }

  /** The team the dashboard shows: every user transformed, those without a usable
      name dropped. */
  function BuildTeam(users: seq<User>, projects: seq<Project>, offices: seq<Office>, now: int): (team: seq<TeamMember>)
    ensures |team| <= |users|
    ensures forall m :: m in team ==> IsValidMember(m)
  {
    Filter(TransformTeam(users, projects, offices, now), IsValidMember)
  }

  /** Every member of the team is the transform of a user with a usable name, and
      every user with a usable name gives a member of the team. */
  lemma TeamIsNamedUsers(users: seq<User>, projects: seq<Project>, offices: seq<Office>, now: int)
    ensures forall m :: m in BuildTeam(users, projects, offices, now) ==>
      exists i :: 0 <= i < |users| && m == TransformUser(users[i], UserProjects(users[i], projects), offices, now) &&
        FullName(users[i].firstName, users[i].lastName) != "" && FullName(users[i].firstName, users[i].lastName) != UnknownUser
    ensures forall i :: (0 <= i < |users| && FullName(users[i].firstName, users[i].lastName) != "" &&
      FullName(users[i].firstName, users[i].lastName) != UnknownUser) ==>
        TransformUser(users[i], UserProjects(users[i], projects), offices, now) in BuildTeam(users, projects, offices, now)
  {
    var all := TransformTeam(users, projects, offices, now);
    forall i | 0 <= i < |users| ensures IsValidMember(all[i]) <==>
      FullName(users[i].firstName, users[i].lastName) != "" && FullName(users[i].firstName, users[i].lastName) != UnknownUser
    {
      ValidMemberIffNamed(users[i], UserProjects(users[i], projects), offices, now);
    }
    forall m | m in BuildTeam(users, projects, offices, now) ensures
      exists i :: 0 <= i < |users| && m == TransformUser(users[i], UserProjects(users[i], projects), offices, now) &&
        FullName(users[i].firstName, users[i].lastName) != "" && FullName(users[i].firstName, users[i].lastName) != UnknownUser
    {
      assert m in all;
      var i :| 0 <= i < |all| && all[i] == m;
      assert IsValidMember(all[i]);
    }
    forall i | (0 <= i < |users| && FullName(users[i].firstName, users[i].lastName) != "" &&
      FullName(users[i].firstName, users[i].lastName) != UnknownUser)
      ensures TransformUser(users[i], UserProjects(users[i], projects), offices, now) in BuildTeam(users, projects, offices, now)
    {
      assert all[i] in all;
    }
  }

  /** What one load produces for the dashboard. */
  datatype Loaded = Loaded(departments: seq<string>, team: seq<TeamMember>)

  /** Lines 290-320 on already-fetched records, the clock reading passed in. */
  function LoadPipeline(users: seq<User>, projects: seq<Project>, offices: seq<Office>, now: int): (l: Loaded)
    ensures l.departments == DepartmentList(users)
    ensures l.team == BuildTeam(users, projects, offices, now)
  {
    Loaded(DepartmentList(users), BuildTeam(users, projects, offices, now))
  }
}
