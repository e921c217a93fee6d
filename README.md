# Workdeck Resource Planner — a Dafny model

This project models the `ResourcePlanner` React component of the Workdeck resource
planner (`public/src/src/src/components/ResourcePlanner.jsx`). The component:

- reads users, projects and offices from the Workdeck API;
- turns each user into a `TeamMember` view model. This covers weekly capacity, one
  `Task` per associated project, scheduled hours, utilization, avatar and defaults;
- shapes the department list and the valid team;
- works out which screen to show: the token form, the loading spinner, the error
  panel, or the board.

The model and its proofs live in these modules, one per file:

| module | file | contents |
|---|---|---|
| `Options` | `options.dfy` | the `Option` and `Result` wrappers |
| `JsText` | `js_text.dfy` | JavaScript's whitespace set, `trim`, the slug rewrite, and decimal rendering of integers with its inverse |
| `JsNumber` | `js_number.dfy` | the 32-bit `a & a` wrap (ToInt32), `Math.round`, `Math.abs`, `Math.min`/`Math.max`, floor and ceiling division |
| `JsArray` | `js_array.dfy` | `filter`, `find`/`findIndex`, and deduplication as `new Set` does it |
| `Records` | `records.dfy` | the API records (user, office, timetable, project, activity) and the view models (`Task`, `TeamMember`) |
| `Palette` | `palette.dfy` | the string hash of `getProjectColor` and `getAvatarForUser`, the palettes, and the name-based avatar |
| `Transform` | `transform.dfy` | `transformUserToTeamMember` and the per-project helpers: capacity, duration, status, target hours, labels, utilization |
| `Pipeline` | `pipeline.dfy` | the list shaping in `loadWorkdeckData`: departments, user–project association, valid team |
| `ApiClient` | `api_client.dfy` | `fetchWithAuth`'s status-to-error mapping, the `data.result \|\| data` unwrap, and the create-task request body |
| `Dashboard` | `dashboard.dfy` | screen selection, the badge colour selectors, the department filter, and the `Planner` class |

The `Planner` class holds the component's state. Its methods are the handlers that
update that state.

Modelling conventions:

- A text field that may be missing is a `string`, and "" stands for missing. Through
  `||`, `&&` and `${x || ''}`, which is how the code reads most such fields, `undefined`
  and "" behave alike. The ids placed bare into template strings at lines 130 and 137
  are the exception; "## Left out" says what the model loses there.
- A numeric field read through `||` is an `Option<real>`. `None` stands for missing or
  falsy, so both zero and absent are `None`.
- Hours are mathematical reals: 0.6 is `3/5` and 4.33 is `433/100`.
- Dates are integer milliseconds. The clock reading `new Date()` becomes a parameter
  `now`.
- `Math.round(x)` is the floor of `x + 1/2`.
- `Math.ceil` and `Math.floor` on a quotient by one week are integer ceiling and floor
  division.
- The hash step `((a << 5) - a) + c` followed by `a & a` is `ToInt32(31*a + c)`.
  `JsHashStepIsHashStep` proves these two forms equal.
- Utilization is a datatype: `Percent(n)`, or `PlusInfinity`, `MinusInfinity` or
  `NotANumber`. A timetable with `dayHours` "0" gives capacity 0. Line 160 then divides
  by zero, and the model keeps that case.
- The network exchange becomes a `Response`: a status, a status text and a parsed JSON
  body. The three fetched lists reach `LoadWorkdeckData` already decoded, or as the
  message of what failed: before `setDepartments`, or after it.

Utilization is easy to read as `round(scheduled / capacity * 100)`, where `scheduled`
is the sum rounded to one decimal. Line 160 of the code divides the unrounded sum
instead. The model follows the code, and `Transform.UtilizationUsesUnroundedSum`
exhibits an input where the two readings differ.

## Model

| member | source | states |
|---|---|---|
| JsText.LeadingWhitespace | public/src/src/src/components/ResourcePlanner.jsx:164 | the length of the run of whitespace the text starts with: all of it whitespace, and the character after it is not |
| JsText.TrailingWhitespace | public/src/src/src/components/ResourcePlanner.jsx:164 | the length of the run of whitespace the text ends with: all of it whitespace, and the character before it is not |
| JsText.TrimStart | public/src/src/src/components/ResourcePlanner.jsx:164 | the result is a suffix of the input that does not start with JavaScript whitespace, and everything removed is whitespace |
| JsText.Trim | public/src/src/src/components/ResourcePlanner.jsx:164 | `trim()`: the result is the slice of the input between its leading and its trailing whitespace; everything cut off at either end is whitespace, the result has no whitespace at either end, and it is empty exactly when the input is blank |
| JsText.TrimUnique | public/src/src/src/components/ResourcePlanner.jsx:164 | `trim()` is determined by its result: whitespace, then a part with no whitespace at either end, then whitespace, trims to that part |
| JsText.TrimJoin | public/src/src/src/components/ResourcePlanner.jsx:250 | trimming `first + " " + last`: a blank part drops out and the other is trimmed; when neither is blank only the leading whitespace of `first` and the trailing whitespace of `last` go, and the inner whitespace and the space stay |
| JsText.TrimIdempotent | public/src/src/src/components/ResourcePlanner.jsx:319 | trimming twice is trimming once, which is why `member.name.trim() !== ''` adds nothing once the name is already trimmed |
| JsText.LowerAscii | public/src/src/src/components/ResourcePlanner.jsx:130 | one character of `toLowerCase()`: 'A'..'Z' move to 'a'..'z' and every other character is kept |
| JsText.ToLowerAscii | public/src/src/src/components/ResourcePlanner.jsx:130 | `toLowerCase()` maps each position through the character rule, so it keeps the length and the positions of whitespace and leaves no ASCII capital letter |
| JsText.DashWhitespaceRuns | public/src/src/src/components/ResourcePlanner.jsx:130 | `replace(/\s+/g, '-')` leaves no whitespace, is never longer than its input, and yields "" only for "" |
| JsText.DashOfWord | public/src/src/src/components/ResourcePlanner.jsx:130 | text without whitespace is left unchanged |
| JsText.DashOfRun | public/src/src/src/components/ResourcePlanner.jsx:130 | a run of whitespace on its own becomes a single '-' |
| JsText.LeadingWhitespaceAppend | public/src/src/src/components/ResourcePlanner.jsx:130 | appending text changes the leading whitespace run only when the first part is all whitespace and the second starts with more |
| JsText.DashSplit | public/src/src/src/components/ResourcePlanner.jsx:130 | replacing piece by piece, split anywhere but inside a whitespace run, gives the whole replacement; with `DashOfRun` and `DashOfWord` this fixes the result: words kept in order, each run between them one '-' |
| JsText.DigitChar | public/src/src/src/components/ResourcePlanner.jsx:137 | each digit below ten renders as the matching decimal character |
| JsText.NatToDecimal | public/src/src/src/components/ResourcePlanner.jsx:237 | the rendering of a natural number is a non-empty string of decimal digits, with no leading zero except for 0 itself |
| JsText.DecimalRoundTrip | public/src/src/src/components/ResourcePlanner.jsx:237 | reading back the decimal rendering of any natural number gives that number |
| JsText.NatToDecimalInjective | public/src/src/src/components/ResourcePlanner.jsx:137 | distinct numbers render differently |
| JsText.IntToDecimal | public/src/src/src/components/ResourcePlanner.jsx:351 | `toString()` of an integer is non-empty and starts with '-' exactly when the integer is negative |
| JsText.ParseInteger | public/src/src/src/components/ResourcePlanner.jsx:351 | the inverse reading: a negative result comes only from text that starts with '-' |
| JsText.IntegerRoundTrip | public/src/src/src/components/ResourcePlanner.jsx:351 | reading back `n.toString()` gives `n` for every integer `n` |
| JsNumber.ToInt32 | public/src/src/src/components/ResourcePlanner.jsx:185 | `a & a`: the result lies in the signed 32-bit range and is congruent to the input modulo 2^32 |
| JsNumber.ToInt32Congruent | public/src/src/src/components/ResourcePlanner.jsx:184-185 | inputs congruent modulo 2^32 wrap to the same value |
| JsNumber.ToInt32OfInt32 | public/src/src/src/components/ResourcePlanner.jsx:185 | a value already in 32-bit range is left unchanged |
| JsNumber.Abs | public/src/src/src/components/ResourcePlanner.jsx:187 | `Math.abs` is non-negative and equals `x` or `-x` |
| JsNumber.Round | public/src/src/src/components/ResourcePlanner.jsx:160 | `Math.round(x)` is the integer `r` with `r - 1/2 <= x < r + 1/2` |
| JsNumber.Min | public/src/src/src/components/ResourcePlanner.jsx:152 | `Math.min` is at most both arguments and equals one of them |
| JsNumber.Max | public/src/src/src/components/ResourcePlanner.jsx:532 | `Math.max` is at least both arguments and equals one of them |
| JsNumber.FloorDiv | public/src/src/src/components/ResourcePlanner.jsx:216 | `Math.floor(a / b)` for `b > 0` is the `q` with `q*b <= a < (q+1)*b` |
| JsNumber.CeilDiv | public/src/src/src/components/ResourcePlanner.jsx:207 | `Math.ceil(a / b)` for `b > 0` is the `q` with `(q-1)*b < a <= q*b` |
| JsArray.Filter | public/src/src/src/components/ResourcePlanner.jsx:292 | `filter` keeps exactly the elements that pass, is never longer than its input, and returns the input unchanged when every element passes |
| JsArray.FilterCount | public/src/src/src/components/ResourcePlanner.jsx:292 | every element that passes is kept as often as it occurs in the input, and no other element is kept |
| JsArray.FilterIsSubsequence | public/src/src/src/components/ResourcePlanner.jsx:301 | `filter` keeps the original order |
| JsArray.FilterKeepsNoDuplicates | public/src/src/src/components/ResourcePlanner.jsx:301 | `filter` of a list without repeats has no repeats |
| JsArray.FindIndex | public/src/src/src/components/ResourcePlanner.jsx:120 | `find`: the index of the first element that passes, or None when there is none |
| JsArray.IndexOf | public/src/src/src/components/ResourcePlanner.jsx:290 | the first position of an element that occurs in the list |
| JsArray.Distinct | public/src/src/src/components/ResourcePlanner.jsx:290 | `[...new Set(xs)]` has the same elements as `xs` and no repeats |
| JsArray.DistinctInFirstOccurrenceOrder | public/src/src/src/components/ResourcePlanner.jsx:290 | the deduplicated list orders its elements by their first occurrence in the input |
| Palette.HashStep | public/src/src/src/components/ResourcePlanner.jsx:184-185 | one step of the hash stays a signed 32-bit integer |
| Palette.JsHashStepIsHashStep | public/src/src/src/components/ResourcePlanner.jsx:184-185 | from a 32-bit accumulator, `((a << 5) - a) + c` followed by `a & a` equals `ToInt32(31*a + c)` |
| Palette.Hash | public/src/src/src/components/ResourcePlanner.jsx:183-186 | the hash of any string is a signed 32-bit integer |
| Palette.HashIsWrappedPolynomial | public/src/src/src/components/ResourcePlanner.jsx:183-186 | the hash is the base-31 polynomial of the character codes, wrapped once to 32 bits at the end |
| Palette.PaletteIndex | public/src/src/src/components/ResourcePlanner.jsx:187 | `Math.abs(hash) % n` is a valid index into a palette of `n` entries, the hash of -2^31 included |
| Palette.ColorKey | public/src/src/src/components/ResourcePlanner.jsx:141 | `project.id \|\| index`: the id when present, else the decimal text of the index |
| Palette.ProjectColor | public/src/src/src/components/ResourcePlanner.jsx:177-188 | the colour is always one of the twelve palette classes |
| Palette.FullName | public/src/src/src/components/ResourcePlanner.jsx:250 | the trimmed "first last" name: empty exactly when both parts are blank; the trimmed other part when one part is blank; otherwise `firstName` without its leading whitespace, a space, and `lastName` without its trailing whitespace |
| Palette.AvatarFor | public/src/src/src/components/ResourcePlanner.jsx:248-259 | an empty name gives 👤; any other name gives the avatar at its hash index |
| Palette.AvatarDependsOnlyOnName | public/src/src/src/components/ResourcePlanner.jsx:250-256 | two users whose derived names agree get the same avatar |
| Palette.NamedUserHasPersonalAvatar | public/src/src/src/components/ResourcePlanner.jsx:249-256 | a user with any non-blank name part gets one of the eight avatars, never 👤 |
| Transform.MainTimetable | public/src/src/src/components/ResourcePlanner.jsx:122 | `find(tt => tt.isMain) \|\| [0]`: when some timetable is main, the result is main and sits at a position with no main timetable before it; otherwise it is the first timetable |
| Transform.WeeklyCapacity | public/src/src/src/components/ResourcePlanner.jsx:117-127 | 40 when the user has no office id, and 40 when no listed office with that id has timetables |
| Transform.CapacityFromOffice | public/src/src/src/components/ResourcePlanner.jsx:119-125 | the first office with the user's id decides: with timetables, its main (or first) timetable's hours times five, or 40 if those hours are falsy |
| Transform.CapacityOfEightHourDays | public/src/src/src/components/ResourcePlanner.jsx:122-124 | worked case: a main timetable of 8 hours, listed second, gives 40 hours |
| Transform.TotalHours | public/src/src/src/components/ResourcePlanner.jsx:132 | `plannedHours \|\| availableHours \|\| 0` |
| Transform.DurationWeeks | public/src/src/src/components/ResourcePlanner.jsx:203-210 | with both dates, the ceiling of their distance in weeks; otherwise 12 |
| Transform.TargetWeeklyHours | public/src/src/src/components/ResourcePlanner.jsx:134 | with a positive duration, target times weeks is the total; otherwise 0 |
| Transform.TargetHoursPerWeek | public/src/src/src/components/ResourcePlanner.jsx:152 | at most 60% of capacity and at most the uncapped target, and equal to one of the two |
| Transform.ProjectStatus | public/src/src/src/components/ResourcePlanner.jsx:190-195 | a draft is always planned |
| Transform.StatusCases | public/src/src/src/components/ResourcePlanner.jsx:190-195 | completed iff not a draft and the end date is before now; planned iff a draft, or not ended and starting after now; in progress in every other case |
| Transform.IsLongTerm | public/src/src/src/components/ResourcePlanner.jsx:197-201 | long term iff the total exceeds 200 hours or the duration exceeds 12 weeks |
| Transform.UndatedLongTerm | public/src/src/src/components/ResourcePlanner.jsx:197-210 | a project missing a date is long term iff its total exceeds 200 hours |
| Transform.StartWeek | public/src/src/src/components/ResourcePlanner.jsx:212-220 | the floor of (start − now) in weeks, or −4 without a start date |
| Transform.EndWeek | public/src/src/src/components/ResourcePlanner.jsx:222-230 | the floor of (end − now) in weeks, or 20 without an end date |
| Transform.MonthsFor | public/src/src/src/components/ResourcePlanner.jsx:234 | `Math.ceil(weeks / 4.33)` as the least `m` with `weeks <= 4.33*m` |
| Transform.DurationText | public/src/src/src/components/ResourcePlanner.jsx:232-242 | the label is "TBD" exactly when the duration is at most one week |
| Transform.DurationTextCases | public/src/src/src/components/ResourcePlanner.jsx:232-242 | 5 or more weeks read "<m> months" with m ≥ 2; 2 to 4 weeks read "<w> weeks"; 1 week or less reads "TBD" |
| Transform.TenWeeksLabel | public/src/src/src/components/ResourcePlanner.jsx:234-237 | worked case: 10 weeks read "3 months" |
| Transform.FirstActivityName | public/src/src/src/components/ResourcePlanner.jsx:139 | the first activity's name, or "General Work" when there is no activity or its name is empty; never empty |
| Transform.FirstTaskName | public/src/src/src/components/ResourcePlanner.jsx:140 | the first task of the first activity by name, else the project code, else "Project Tasks"; never empty |
| Transform.FirstActivityHours | public/src/src/src/components/ResourcePlanner.jsx:144 | the first activity's available hours when truthy, otherwise the project total |
| Transform.MonthlyHours | public/src/src/src/components/ResourcePlanner.jsx:155 | exactly 12 entries, each the given target |
| Transform.ProjectSlug | public/src/src/src/components/ResourcePlanner.jsx:130 | a named project's slug has no whitespace and is no longer than the name; an unnamed one is "project-<id>" |
| Transform.BuildTask | public/src/src/src/components/ResourcePlanner.jsx:129-157 | the task's target is min(total/weeks, 60% of capacity), with `monthlyHours` 12 copies of it; the colour is the palette colour of `project.id \|\| index`; activity, task and activity hours are the first-activity fallbacks; hours, status, week offsets, long-term flag and label are as the helpers define them; the id is user id, project id and index joined by '-', the project name falls back to "Unnamed Project", `projectId` is the project's slug, velocity is 0 and the pattern is the fixed work pattern |
| Transform.TenWeekProject | public/src/src/src/components/ResourcePlanner.jsx:132-152 | worked case: 120 hours over 10 weeks at capacity 40 give 12 hours a week, not long term |
| Transform.BuildTasks | public/src/src/src/components/ResourcePlanner.jsx:129 | one task per associated project, the i-th built from the i-th project with index i |
| Transform.SumTargets | public/src/src/src/components/ResourcePlanner.jsx:159 | `reduce` of the targets from 0; no contract of its own, its partner is `SumTargetsBound` |
| Transform.TaskIdsDiffer | public/src/src/src/components/ResourcePlanner.jsx:137 | two tasks for the same user from projects with the same id but at different positions get different ids |
| Transform.SumTargetsBound | public/src/src/src/components/ResourcePlanner.jsx:159 | when every target is at most 60% of capacity, the sum is at most that share times the number of tasks |
| Transform.RoundToTenth | public/src/src/src/components/ResourcePlanner.jsx:168 | `Math.round(x*10)/10` is a whole number of tenths within a twentieth of `x` (halves rounded up) |
| Transform.UtilizationOf | public/src/src/src/components/ResourcePlanner.jsx:160 | with a non-zero capacity, a percentage within one half of 100·sum/capacity; with capacity 0, not a finite number |
| Transform.DisplayName | public/src/src/src/components/ResourcePlanner.jsx:164 | the trimmed full name, or "Unknown User" when that is empty |
| Transform.TransformUser | public/src/src/src/components/ResourcePlanner.jsx:116-174 | the member's id, name, capacity, tasks, scheduled hours, utilization, avatar and department follow the rules above, the role falls back to "Team Member" and the office to "Remote", and every task target is at most 60% of capacity |
| Transform.NoProjectsNoLoad | public/src/src/src/components/ResourcePlanner.jsx:159-168 | a user without projects has 0 scheduled hours and, with a non-zero capacity, 0% utilization |
| Transform.ZeroRoundsToZero | public/src/src/src/components/ResourcePlanner.jsx:160-168 | zero hours round to 0 and give 0% utilization |
| Transform.UtilizationWithinShare | public/src/src/src/components/ResourcePlanner.jsx:152-160 | with a positive capacity, `n` capped tasks give a finite utilization of at most 60·n percent |
| Transform.UtilizationUsesUnroundedSum | public/src/src/src/components/ResourcePlanner.jsx:159-168 | the utilization comes from the unrounded sum: a 0.04-hour target on a 1-hour capacity shows 0 scheduled hours but 4% |
| Pipeline.DepartmentNames | public/src/src/src/components/ResourcePlanner.jsx:291 | `users.map(user => user.department)` |
| Pipeline.DepartmentList | public/src/src/src/components/ResourcePlanner.jsx:290-296 | the department list is never empty and has no repeats |
| Pipeline.DepartmentFallback | public/src/src/src/components/ResourcePlanner.jsx:294-296 | when every department is blank, the list is exactly ["General"] |
| Pipeline.DepartmentsAreTheUsers | public/src/src/src/components/ResourcePlanner.jsx:290-292 | otherwise the list holds exactly the non-blank departments that some user has |
| Pipeline.HasDepartment | public/src/src/src/components/ResourcePlanner.jsx:292 | `dept && dept.trim() !== ''`; its partner `HasDepartmentIffNonBlank` states when it holds |
| Pipeline.HasDepartmentIffNonBlank | public/src/src/src/components/ResourcePlanner.jsx:292 | `dept && dept.trim() !== ''` holds exactly for non-blank text |
| Pipeline.FilterKeepsFirstOccurrenceOrder | public/src/src/src/components/ResourcePlanner.jsx:291-292 | filtering does not change which of two kept elements occurs first |
| Pipeline.DepartmentsInFirstOccurrenceOrder | public/src/src/src/components/ResourcePlanner.jsx:290-292 | departments are listed in the order of their first occurrence among the users |
| Pipeline.IsAssociated | public/src/src/src/components/ResourcePlanner.jsx:302-312 | the user is a project member or a task participant; `UserProjects` keeps exactly the projects it holds for |
| Pipeline.UserProjects | public/src/src/src/components/ResourcePlanner.jsx:300-313 | a project is kept iff the user is one of its members or a participant of a task of one of its activities, as often as it occurs |
| Pipeline.UserProjectsInOrder | public/src/src/src/components/ResourcePlanner.jsx:301 | a user's projects keep the order of the project list |
| Pipeline.UserProjectsNoDuplicates | public/src/src/src/components/ResourcePlanner.jsx:301 | a project list without repeats gives each user each project at most once |
| Pipeline.TransformTeam | public/src/src/src/components/ResourcePlanner.jsx:300-316 | one member per user, in order, each transformed with that user's projects |
| Pipeline.IsValidMember | public/src/src/src/components/ResourcePlanner.jsx:318-320 | the valid-member filter; its partner `ValidMemberIffNamed` states which users pass it |
| Pipeline.ValidMemberIffNamed | public/src/src/src/components/ResourcePlanner.jsx:318-320 | a transformed user passes the valid-member filter iff their trimmed full name is neither empty nor "Unknown User" |
| Pipeline.BuildTeam | public/src/src/src/components/ResourcePlanner.jsx:318-320 | the team is no larger than the user list and every member passes the valid-member test |
| Pipeline.TeamIsNamedUsers | public/src/src/src/components/ResourcePlanner.jsx:300-320 | every member comes from a user with a usable name, and every such user gives a member |
| Pipeline.LoadPipeline | public/src/src/src/components/ResourcePlanner.jsx:290-324 | one load yields the department list and the valid team defined above |
| ApiClient.LookupField | public/src/src/src/components/ResourcePlanner.jsx:78 | the value found is the last field with the key; None when no field has it |
| ApiClient.Message | public/src/src/src/components/ResourcePlanner.jsx:47-69 | the text of each thrown error; `HttpErrorMessageRoundTrip` and `HttpErrorMessageInjective` state that the generic one keeps its status and text |
| ApiClient.DigitRun | public/src/src/src/components/ResourcePlanner.jsx:69 | the length of the leading run of digits |
| ApiClient.HttpErrorMessageRoundTrip | public/src/src/src/components/ResourcePlanner.jsx:69 | the status and status text can be read back from "API Error: <status> <text>" |
| ApiClient.HttpErrorMessageInjective | public/src/src/src/components/ResourcePlanner.jsx:69 | two generic errors share a message only if their status and text agree |
| ApiClient.FetchWithAuth | public/src/src/src/components/ResourcePlanner.jsx:45-73 | succeeds, with the body, iff there is a token and the status is 2xx; without a token it fails with the no-token error |
| ApiClient.StatusMapping | public/src/src/src/components/ResourcePlanner.jsx:59-70 | with a token and a non-2xx status: 401, 403 and 404 each have their own error, iff; every other status is a generic error carrying its code and text |
| ApiClient.Unwrap | public/src/src/src/components/ResourcePlanner.jsx:78 | `data.result \|\| data`: a null body fails, as reading `.result` of null throws; with a truthy `result` field the result is that field, and otherwise it is the body |
| ApiClient.UnwrapEnvelope | public/src/src/src/components/ResourcePlanner.jsx:78 | `{result: x}` opens to `x` when `x` is truthy and stays whole otherwise |
| ApiClient.UnwrapBareList | public/src/src/src/components/ResourcePlanner.jsx:78 | a bare JSON list passes through unchanged |
| ApiClient.FetchQuery | public/src/src/src/components/ResourcePlanner.jsx:75-113 | a request failure is passed on unchanged and a response is unwrapped; so a query succeeds only with a token, a 2xx status and a non-null body, and a list body is returned as it is |
| ApiClient.CurrentUserOrNull | public/src/src/src/components/ResourcePlanner.jsx:280 | `fetchMyUser().catch(() => null)`: a failure becomes null, a success its value |
| ApiClient.Importance | public/src/src/src/components/ResourcePlanner.jsx:352 | `priority \|\| 2`: a non-zero priority is kept, and a missing or zero one becomes 2 |
| ApiClient.CreateTaskBody | public/src/src/src/components/ResourcePlanner.jsx:347-358 | the POST body; its partner `CreateTaskBodyRoundTrip` reads every field back |
| ApiClient.CreateTaskBodyRoundTrip | public/src/src/src/components/ResourcePlanner.jsx:347-358 | the body, read back field by field, gives the name, the project id, the estimate (sent as text), the importance, and a single owner participant with the estimate at 100% |
| ApiClient.CreateTaskBodyExample | public/src/src/src/components/ResourcePlanner.jsx:351-352 | worked case: 20 hours go out as the string "20", and no priority as importance 2 |
| Dashboard.SelectScreen | public/src/src/src/components/ResourcePlanner.jsx:389-479 | the render's early returns; its partner `ScreenCases` states when each screen shows |
| Dashboard.ScreenCases | public/src/src/src/components/ResourcePlanner.jsx:389-479 | the token form iff it was asked for or there is neither a token nor a load; the spinner iff loading and not asked; the error panel iff neither and an error is set; the board otherwise |
| Dashboard.UtilizationTone | public/src/src/src/components/ResourcePlanner.jsx:534-539 | `getUtilizationColor`; its partner `UtilizationBands` states the bands |
| Dashboard.UtilizationBands | public/src/src/src/components/ResourcePlanner.jsx:534-539 | red iff over 100%, orange iff over 85% up to 100%, green iff 60% to 85%, blue iff under 60% |
| Dashboard.UtilizationToneMonotone | public/src/src/src/components/ResourcePlanner.jsx:534-539 | more load never gives a lower band |
| Dashboard.IdleMemberIsBlue | public/src/src/src/components/ResourcePlanner.jsx:159-160 | a member without projects and with a non-zero capacity shows the under-loaded colour |
| Dashboard.StatusName | public/src/src/src/components/ResourcePlanner.jsx:191-194 | the status strings 'planned', 'in-progress' and 'completed'; its partner `StatusNameDistinct` states they differ |
| Dashboard.StatusNameDistinct | public/src/src/src/components/ResourcePlanner.jsx:191-194 | each status has its own text, and none is "over-budget" |
| Dashboard.TaskStatusTone | public/src/src/src/components/ResourcePlanner.jsx:522-530 | `getTaskStatusColor`; its partners `DerivedStatusTones` and `UnknownStatusIsGray` state its cases |
| Dashboard.DerivedStatusTones | public/src/src/src/components/ResourcePlanner.jsx:522-530 | the three statuses a task can have never show the over-budget colour, and each shows a colour of its own |
| Dashboard.UnknownStatusIsGray | public/src/src/src/components/ResourcePlanner.jsx:528-529 | any other status text falls back to gray |
| Dashboard.RemainingHours | public/src/src/src/components/ResourcePlanner.jsx:532 | never negative, at least estimate minus actual, and equal to one of the two |
| Dashboard.NothingRemainsIffSpent | public/src/src/src/components/ResourcePlanner.jsx:532 | zero hours remain iff the actual hours reach the estimate |
| Dashboard.DepartmentFilter | public/src/src/src/components/ResourcePlanner.jsx:513-515 | "all" shows the whole team; any other selection shows exactly the members of that department |
| Dashboard.DepartmentFilterInOrder | public/src/src/src/components/ResourcePlanner.jsx:513-515 | the shown members keep the team's order |
| Dashboard.GeneralFallbackShowsNobody | public/src/src/src/components/ResourcePlanner.jsx:166 | when no user has a department, only "General" is offered, and choosing it shows nobody, since members then carry "Unknown" or a blank department |
| Dashboard.MemberOrigin | public/src/src/src/components/ResourcePlanner.jsx:166 | every member's department is its user's, or "Unknown" when that is empty |
| Dashboard.TrimmedToken | public/src/src/src/components/ResourcePlanner.jsx:379-380 | a blank entry is rejected; any other becomes its slice between the leading and trailing whitespace, everything cut off being whitespace and the result having none at either end |
| Dashboard.Planner.FilteredTeamMembers | public/src/src/src/components/ResourcePlanner.jsx:513-515 | in a valid state every member on the board has a usable name |
| Dashboard.Planner.constructor | public/src/src/src/components/ResourcePlanner.jsx:5-31 | the first state: the stored token or "", loading, no error, nothing fetched, all departments, the current week |
| Dashboard.Planner.CheckToken | public/src/src/src/components/ResourcePlanner.jsx:36-42 | without a token, loading stops, a token error is set and the token form shows; with one, nothing changes |
| Dashboard.Planner.LoadWorkdeckData | public/src/src/src/components/ResourcePlanner.jsx:262-334 | without a token, it asks for one; on success the departments, the valid team, the projects and the sync time are replaced, the error is cleared and loading ends; a failure before `setDepartments` changes only the error message, one after it has also replaced the departments; loading ends; the invariant is kept |
| Dashboard.Planner.Show | public/src/src/src/components/ResourcePlanner.jsx:298-327 | the success path stores the shaped lists, the projects and the sync time, and ends loading |
| Dashboard.Planner.SubmitToken | public/src/src/src/components/ResourcePlanner.jsx:379-386 | a non-blank entry is stored trimmed and becomes the token, closing the form and clearing the error; a blank entry changes nothing |
| Dashboard.Planner.RequestTokenUpdate | public/src/src/src/components/ResourcePlanner.jsx:497 | "Update Token" brings up the token form, whatever else the state holds |
| Dashboard.Planner.SelectDepartment | public/src/src/src/components/ResourcePlanner.jsx:690 | the selection changes, and the shown members become that department's filter of the team |
| Dashboard.Planner.GoToPreviousWeek | public/src/src/src/components/ResourcePlanner.jsx:518 | the week offset goes down by one |
| Dashboard.Planner.GoToNextWeek | public/src/src/src/components/ResourcePlanner.jsx:519 | the week offset goes up by one |
| Dashboard.Planner.GoToToday | public/src/src/src/components/ResourcePlanner.jsx:520 | the week offset returns to 0 |
| Dashboard.RejectedTokenRecovery | public/src/src/src/components/ResourcePlanner.jsx:389-497 | after a 401 the error panel shows, "Update Token" brings up the form, and submitting a new token closes it |
| Dashboard.WeekNavigationRoundTrip | public/src/src/src/components/ResourcePlanner.jsx:518-519 | a week back and a week forward return to the same offset |

## Left out

- The `fetch` call, the request headers and `response.json()` (lines 50-57, 72) are network I/O. A response is modelled as its status, its status text and its parsed body.
- Decoding the JSON lists into users, projects and offices is not modelled. When the user list is not an array, `users.map` throws at line 291 before anything is stored. When the project or office list cannot be read, the throw comes at lines 300-316, after `setDepartments` at line 298. `LoadWorkdeckData` takes which of the two happened, with its message, as given.
- `localStorage` reads and writes (lines 30, 381) are browser persistence. The stored token is a constructor parameter, and `SubmitToken` returns the value it would store.
- `Promise.all` (lines 276-281) settles asynchronously: whichever required request rejects first decides the message. Which one that is depends on timing, so the model takes the outcome as given. Overlapping loads racing each other are not modelled either.
- The React effects that run the handlers (lines 36-42, 336-340) are left to the caller, who invokes `CheckToken` and `LoadWorkdeckData` as the effects would. React's batching of state updates is not modelled.
- The current user fetched at lines 276-281 is used only in a log line, so it does not reach the state.
- All JSX, the modals, and the CSS class strings are rendering and are not modelled. The two colour selectors map each band to a `Tone`, and each tone stands for one fixed class string per selector: the two selectors use different shades for red, blue and green (lines 524-526 and 535-538).
- The task assignment modal, `submitTaskAssignment`, `handleTaskClick` and `handleAssignTask` only move data into the request body or into display state. The request body itself is modelled by `CreateTaskBody`.
- `createWorkdeckTask` (lines 343-367) is not modelled as a state change: its POST is network I/O, and after it line 362 runs `loadWorkdeckData()` again, which is `LoadWorkdeckData` once more.
- `console.log` and `console.error` calls, the no-op `updateTaskHours` (lines 370-376), and `alert` are not modelled.
- `getDateRangeLabel` (lines 569-601) is display text computed from the clock, and is not modelled.
- Numbers are mathematical reals and integers, not IEEE doubles. This loses `parseFloat` of malformed text (NaN), rounding in `/`, `* 0.6` and `4.33`, negative zero, and number-to-text in exponent form.
- Dates are integer milliseconds. Invalid dates are not modelled.
- Palette.Hash: it hashes Dafny characters, i.e. code points. `split('')` and `charCodeAt` work on UTF-16 code units, so the two agree only on names made of Basic Multilingual Plane characters.
- JsText.ToLowerAscii: it lowercases only A–Z. JavaScript's `toLowerCase` also lowercases letters outside ASCII.
- A missing id renders as "undefined" when placed bare in a template string: `project.id` in the fallback slug `project-${project.id}` at line 130 (so a project with neither name nor id gets "project-undefined", where `Transform.ProjectSlug` gives "project-"), and `user.id` and `project.id` in the task id at line 137 (where `Transform.BuildTask` puts ""). A numeric id would go through `toString()`. The model treats ids as strings that are "" when missing.
- ApiClient.Message: the TypeError thrown when `data.result` is read on a `null` body (lines 78, 88, 98, 108) has engine-dependent text. `NullPayloadMessage` uses V8's wording. Firefox says "data is null" and Safari says "null is not an object (evaluating 'data.result')".
- Transform.ProjectSlug: its contract does not state the full slug text. It states the properties above; the exact text is the lowercase-and-dash function in `JsText`.

