# Norfolk Cleaners: scheduling, access control and user queries in Dafny

This project models the logic core of the Norfolk Cleaners web application, a
job-scheduling back office for a cleaning company:

- **Day view layout** (`day_view.dfy`, `day_view_layout.dfy`): the vertical
  calendar of one day, 07:00 to 19:00 at 80 px per hour. `layoutJobs` lays out
  overlapping jobs in three steps:
  - it sorts the jobs by start, longer jobs first on ties;
  - it sweeps them into clusters with a running `clusterEnd`;
  - inside each cluster it assigns columns first-fit, and every card of a
    cluster carries the cluster's column count.

  The layout is a method with loop invariants. It is proved against functions
  that describe the sort, the sweep and the first-fit placement.
- **Dispatch board** (`dispatch_board.dfy`): one row per staff member, with
  time running left to right in 24 half-hour slots of 80 px. The model covers:
  - the slot labels, the clamped time-to-pixel map and the minimum block width;
  - what a block shows at a given width;
  - the now-line window and the initial and stepped scrolling;
  - the grouping of jobs by staff member.
- **Shared schedule records** (`schedule.dfy`): the job and staff records, the
  local minute of the day, the "HH:MM" labels and how they parse back, and the
  split of a job title into title and customer at the first en dash.
- **Roles** (`roles.dfy`): the nine user roles, the 25 permission flags of each
  role, tiers and labels, and the lookups `hasPermission`,
  `rolesWithPermission`, `isOwnerTier`, `isStaffTier` and `isContractorTier`.
- **Route guard** (`middleware.dfy`): the decision the middleware makes for a
  request. It redirects to the login page, redirects to the dashboard or lets
  the request through. The model also covers the matcher patterns the guard is
  registered for.
- **Session cookies** (`session_cookie.dfy`): the `Set-Cookie` values that start
  and end a session.
- **User queries** (`users.dfy`): the SQL text and parameter arrays that the
  users data layer hands to the database. Each query is a sequence of literal
  pieces and `$n` placeholders. The property throughout is alignment: the
  placeholders of a query are exactly `$1 … $k` for its `k` parameters.
  The layer's promise of parameterised queries is proved as independence:
  the SQL text depends only on which options or fields are given, never on
  their values (`ListSqlIgnoresValues`, `WriteSqlIgnoresValues`).
  `listUsers`, `createUser` and `updateUser` are methods with loops, proved
  against functions of their inputs.
- **JavaScript built-ins** (`text.dfy`, `options.dfy`): `String(n)`,
  `padStart(2, "0")`, `join`, one-character `split` and `trim`, with the
  semantics the application relies on.

Times are epoch milliseconds for sorting and clustering. Drawing uses the
minute of the local day. Pixels and percentages are `real`, which is exact.

Where the design description and the code disagree, the model follows the code:

- Jobs whose end is not after their start are not rejected. They are laid out
  like any other job and get the minimum card height or block width.
- The dispatch board does not cluster or split overlapping jobs in a row. Each
  block sits at the offset of its own start (`RowBlocksIgnoreOverlap`).
- The day view clusters all jobs of the day together, whatever their staff
  member.
- The first cluster's `clusterEnd` starts at 0, as in the code. This matters
  only for instants before 1970, and `StartReach` records it.

## Model

| member | source | states |
|---|---|---|
| DayView.GridHeightIs960 | src/components/schedule/CalendarDayView.tsx:24-27 | the window covers 12 hours and the grid is 960 px high |
| DayView.TimeToY | src/components/schedule/CalendarDayView.tsx:40-43 | the offset lies in [0, 960]; it is 0 at or before 07:00 and 960 at or after 19:00; in between each minute is 4/3 px |
| DayView.TimeToYMonotone | src/components/schedule/CalendarDayView.tsx:40-43 | a later time of day is never drawn higher up |
| DayView.ClampToWindow | src/components/schedule/CalendarDayView.tsx:42 | the clamped time lies in the window and equals the input when the input does |
| DayView.TimeToYClamped | src/components/schedule/CalendarDayView.tsx:40-43 | clamping a time into the window first does not change its offset |
| DayView.JobHeight | src/components/schedule/CalendarDayView.tsx:46-48 | a card is at least 24 px high; it is exactly the offset difference when that is at least 24; it never exceeds the grid |
| DayView.FullWindowJob | src/components/schedule/CalendarDayView.tsx:40-48 | a job from 07:00 to 19:00 starts at the top and spans the whole grid |
| DayView.NowIndicatorVisible | src/components/schedule/CalendarDayView.tsx:140-142 | the now indicator shows exactly when the minute of the day is in [420, 1140] |
| DayView.HourLabels | src/components/schedule/CalendarDayView.tsx:253-259 | 13 gutter labels, the k-th the hour 7+k written as "HH:00", from "07:00" to "19:00"; each parses back as hour 7+k |
| DayView.HourLabelReadsBack | src/components/schedule/CalendarDayView.tsx:256 | a zero-padded whole-hour label parses back as that hour |
| DayView.FirstAndLastHourLabels | src/components/schedule/CalendarDayView.tsx:253-259 | the first and last gutter labels are "07:00" and "19:00" |
| DayView.CardGeometry | src/components/schedule/CalendarDayView.tsx:178-189 | `totalColumns` cards fill 100 %; a card in column c < totalColumns ends at (c+1)·100/totalColumns ≤ 100 %; the left offset is 2 px for every column but the first, and the width gives up 4 px for the gap |
| DayView.CardsSideBySide | src/components/schedule/CalendarDayView.tsx:178-189 | a card in an earlier column ends before a card in a later column begins |
| DayView.CardDetails | src/components/schedule/CalendarDayView.tsx:207-218 | the customer shows exactly when it is non-empty and the card is taller than 60 px; location and staff show above 90 px |
| DayViewLayout.Insert | src/components/schedule/CalendarDayView.tsx:64-71 | inserting one job adds exactly that job |
| DayViewLayout.SortJobs | src/components/schedule/CalendarDayView.tsx:64-71 | the sorted copy is a permutation of the input |
| DayViewLayout.InsertSorted | src/components/schedule/CalendarDayView.tsx:64-71 | inserting into a sorted sequence keeps it sorted |
| DayViewLayout.SortJobsSorted | src/components/schedule/CalendarDayView.tsx:64-71 | the copy is in comparator order: start ascending, then longer first |
| DayViewLayout.InsertStable | src/components/schedule/CalendarDayView.tsx:64-71 | insertion places the new job after every job ranked equal to it |
| DayViewLayout.SortJobsStable | src/components/schedule/CalendarDayView.tsx:64-71 | equally ranked jobs keep their input order (the sort is stable) |
| DayViewLayout.InsertUniqueIds | src/components/schedule/CalendarDayView.tsx:64-71 | inserting a job with a fresh id keeps ids distinct |
| DayViewLayout.SortJobsUniqueIds | src/components/schedule/CalendarDayView.tsx:64-71 | sorting neither duplicates nor loses an id |
| DayViewLayout.Reach | src/components/schedule/CalendarDayView.tsx:84 | the running `clusterEnd` bounds every job end seen and never falls below its starting value |
| DayViewLayout.GroupClusters | src/components/schedule/CalendarDayView.tsx:73-91 | the clusters concatenate back to the sorted jobs; each cluster is non-empty and chained, every job after the first starting before the running end; each new cluster starts at or after the previous one's end; jobs of earlier clusters end before jobs of later ones start |
| DayViewLayout.JoinCluster | src/components/schedule/CalendarDayView.tsx:82-84 | a job that starts before `clusterEnd`, or that meets an empty cluster, keeps the sweep invariant when it joins |
| DayViewLayout.CloseCluster | src/components/schedule/CalendarDayView.tsx:85-91 | closing the open cluster keeps the clusters a chained, separated sweep of the jobs seen |
| DayViewLayout.OpenCluster | src/components/schedule/CalendarDayView.tsx:87-88 | the closing job opens a new cluster whose `clusterEnd` is its own end |
| DayViewLayout.FindFree | src/components/schedule/CalendarDayView.tsx:104 | `findIndex` gives the first column ended by the start, or -1 exactly when every column is still busy |
| DayViewLayout.ColumnFor | src/components/schedule/CalendarDayView.tsx:104-108 | a job goes into a free column with none free before it; a new column is appended only when every existing column ends after the job's start |
| DayViewLayout.Place | src/components/schedule/CalendarDayView.tsx:105-109 | the chosen column, appended when new, now ends at the job's end; every other column is unchanged |
| DayViewLayout.ColumnEnds | src/components/schedule/CalendarDayView.tsx:96-111 | a non-empty cluster uses at least one column and no more columns than jobs |
| DayViewLayout.Placements | src/components/schedule/CalendarDayView.tsx:100-111 | one column per job of the cluster |
| DayViewLayout.PlacementsInRange | src/components/schedule/CalendarDayView.tsx:104-109 | every job's column is one of the cluster's columns |
| DayViewLayout.EndsDominate | src/components/schedule/CalendarDayView.tsx:109 | a column's recorded end is at least the end of every job placed in it |
| DayViewLayout.FirstFitNoCollision | src/components/schedule/CalendarDayView.tsx:100-111 | two jobs of one cluster in the same column do not overlap: the earlier one ends by the time the later one starts |
| DayViewLayout.PlacementAt | src/components/schedule/CalendarDayView.tsx:100-110 | the l-th job's column is chosen against the column ends left by the jobs before it |
| DayViewLayout.FirstFitStep | src/components/schedule/CalendarDayView.tsx:100-110 | one more job updates the column ends by `Place` and appends its first-fit column |
| DayViewLayout.PlaceJob | src/components/schedule/CalendarDayView.tsx:103-109 | the loop body picks the first-fit column and leaves that column ending at the job's end |
| DayViewLayout.AssignmentMapCovers | src/components/schedule/CalendarDayView.tsx:110-121 | every job id is recorded in `assignments`, with an existing column |
| DayViewLayout.AssignmentMapUnique | src/components/schedule/CalendarDayView.tsx:110-121 | with distinct ids, each job's id maps to the column chosen for that job |
| DayViewLayout.AssignColumns | src/components/schedule/CalendarDayView.tsx:96-111 | `columns` and `assignments` after the loop; every recorded column lies below the column count |
| DayViewLayout.StampCluster | src/components/schedule/CalendarDayView.tsx:113-124 | one card per job of the cluster |
| DayViewLayout.Lookup | src/components/schedule/CalendarDayView.tsx:121 | the column recorded for the job id, or 0 when none is |
| DayViewLayout.Card | src/components/schedule/CalendarDayView.tsx:117-123 | a card carries its job, the given column and column count, and is placed by `timeToY` and `jobHeight` of the job's local times |
| DayViewLayout.Layout | src/components/schedule/CalendarDayView.tsx:96-125 | one card per job of the clusters |
| DayViewLayout.Stamp | src/components/schedule/CalendarDayView.tsx:114-124 | one card per job, whatever `assignments` records |
| DayViewLayout.StampCards | src/components/schedule/CalendarDayView.tsx:96-124 | assigning columns and stamping one cluster gives its cards |
| DayViewLayout.StampJobs | src/components/schedule/CalendarDayView.tsx:114-124 | the stamping loop gives one card per job in order, with the recorded column (0 when missing) and the shared count |
| DayViewLayout.LayoutJobs | src/components/schedule/CalendarDayView.tsx:60-128 | one card per input job, in sorted order (none for no jobs), each positioned by `timeToY` and `jobHeight`; every card has 0 ≤ column < totalColumns; overlapping cards carry the same column count; with distinct ids and start ≤ end, overlapping cards never share a column |
| DayViewLayout.LayoutOfSorted | src/components/schedule/CalendarDayView.tsx:94-127 | the cards of separated clusters of the sorted jobs have the properties `LayoutJobs` promises |
| DayViewLayout.ClusterOfSorted | src/components/schedule/CalendarDayView.tsx:73-91 | each cluster inherits distinct ids and start ≤ end from the jobs |
| DayViewLayout.StampFacts | src/components/schedule/CalendarDayView.tsx:113-123 | every card of a cluster carries its job, is positioned from it, and has the cluster's column count and a column below it; with distinct ids, the column is the first-fit one |
| DayViewLayout.LayoutShape | src/components/schedule/CalendarDayView.tsx:96-127 | the layout has one card per job of the flattened clusters, in the same order |
| DayViewLayout.CrossClusterOrder | src/components/schedule/CalendarDayView.tsx:73-124 | every card of an earlier cluster ends by the time any card of the last cluster starts |
| DayViewLayout.LayoutSharedTotals | src/components/schedule/CalendarDayView.tsx:113-123 | overlapping cards come from one cluster and so share `totalColumns` |
| DayViewLayout.SharedTotalsAppend | src/components/schedule/CalendarDayView.tsx:96-125 | shared column counts survive appending a later cluster's cards |
| DayViewLayout.StampNoCollision | src/components/schedule/CalendarDayView.tsx:96-123 | inside one cluster with distinct ids and start ≤ end, overlapping cards have different columns |
| DayViewLayout.LayoutNoCollision | src/components/schedule/CalendarDayView.tsx:96-125 | across all clusters, overlapping cards have different columns |
| DayViewLayout.NoCollisionAppend | src/components/schedule/CalendarDayView.tsx:96-125 | freedom from collisions survives appending a later cluster's cards |
| DispatchBoard.BoardDimensions | src/components/schedule/DispatchBoard.tsx:25-31 | there are 24 slots and the grid is 1920 px wide |
| DispatchBoard.SlotLabels | src/components/schedule/DispatchBoard.tsx:43-52 | 24 labels; the i-th is the zero-padded "HH:MM" of 07:00 + 30·i minutes and parses back as that time; they run from "07:00" to "18:30" |
| DispatchBoard.SlotLabelsRead | src/components/schedule/DispatchBoard.tsx:46-49 | every slot label is five characters long and parses back as its slot's start |
| DispatchBoard.SlotLabelsEnds | src/components/schedule/DispatchBoard.tsx:43-52 | the axis starts at "07:00" and ends at "18:30" |
| DispatchBoard.FirstAndLastSlotLabels | src/components/schedule/DispatchBoard.tsx:46-49 | the labels of minutes 420 and 1110 are "07:00" and "18:30" |
| DispatchBoard.HeaderText | src/components/schedule/DispatchBoard.tsx:290-295 | even slots print their label; odd slots print nothing |
| DispatchBoard.PrintedSlotsAreWholeHours | src/components/schedule/DispatchBoard.tsx:46-49 | a slot's label is printed exactly when the slot starts on a whole hour |
| DispatchBoard.TimeToPx | src/components/schedule/DispatchBoard.tsx:55-61 | the offset lies in [0, 1920]; it is 0 at or before 07:00 and 1920 at or after 19:00; in between each minute is 8/3 px |
| DispatchBoard.TimeToPxMonotone | src/components/schedule/DispatchBoard.tsx:55-61 | a later time is never drawn further left |
| DispatchBoard.SlotStartsOnGrid | src/components/schedule/DispatchBoard.tsx:55-61 | the start of slot i is at i·80 px, on the grid lines |
| DispatchBoard.NowLineVisible | src/components/schedule/DispatchBoard.tsx:73-75 | the now line shows exactly when the minute of the day is in [420, 1140] |
| DispatchBoard.InitialScroll | src/components/schedule/DispatchBoard.tsx:178-184 | the scroll is max(0, timeToPx(now) − 200): never negative, never past 1720 px, and 0 until 08:15 |
| DispatchBoard.ScrollStep | src/components/schedule/DispatchBoard.tsx:187-192 | a step is 320 px, to the left exactly for the left button |
| DispatchBoard.ScrollStepsCancel | src/components/schedule/DispatchBoard.tsx:187-192 | a step right undoes a step left, and inside the working day one step scrolls the grid by exactly the width of two hours |
| DispatchBoard.BlockGeometry | src/components/schedule/DispatchBoard.tsx:96-99 | a block starts at `timeToPx(start)`, is at least 24 px wide, reaches `timeToPx(end)`, and is exactly that long when the job is 24 px or longer |
| DispatchBoard.RowBlocks | src/components/schedule/DispatchBoard.tsx:325-327 | one block per job of the row |
| DispatchBoard.RowBlocksIgnoreOverlap | src/components/schedule/DispatchBoard.tsx:96-99 | a block depends on its own job only: jobs with equal times get the same block, drawn at their start, with no column split |
| DispatchBoard.Slice | src/components/schedule/DispatchBoard.tsx:120 | `slice(0, n)` is the prefix of length min(n, length) |
| DispatchBoard.BlockContent | src/components/schedule/DispatchBoard.tsx:102-141 | the title is cut to 12 characters up to 120 px; the customer shows when non-empty above 140 px; time and the first address part show above 180 px |
| DispatchBoard.WideBlockShowsAll | src/components/schedule/DispatchBoard.tsx:120-141 | a block wider than 180 px shows the whole title, the details and any customer |
| DispatchBoard.JobsOf | src/components/schedule/DispatchBoard.tsx:170-173 | a row holds exactly the input jobs with that staff id |
| DispatchBoard.JobsOfAppend | src/components/schedule/DispatchBoard.tsx:170-173 | the grouping distributes over concatenation, so each row keeps the input order |
| DispatchBoard.StaffIds | src/components/schedule/DispatchBoard.tsx:169 | the staff ids, one per member, in order |
| DispatchBoard.JobsByStaff | src/components/schedule/DispatchBoard.tsx:167-175 | the map's keys are the staff ids; each maps to its jobs in input order, possibly none; jobs of unknown staff are dropped and every other job is in its member's row |
| DispatchBoard.MemberJobs | src/components/schedule/DispatchBoard.tsx:256 | a missing row reads as empty |
| DispatchBoard.JobCountLabel | src/components/schedule/DispatchBoard.tsx:271 | the caption is the count and " job", plural exactly when the count is not 1 |
| Schedule.MinuteOfDay | src/components/schedule/DispatchBoard.tsx:56 | the local minute of the day lies in [0, 1440) and agrees modulo a day with the instant's minute plus the offset |
| Schedule.PaddedTwoDigits | src/components/schedule/DispatchBoard.tsx:49 | a number below 100, zero-padded, has two digits and reads back as itself |
| Schedule.ClockLabelRoundTrip | src/components/schedule/DispatchBoard.tsx:46-49 | the "HH:MM" label of a time before 100:00 has five characters and parses back as that time |
| Schedule.PaddedFields | src/components/schedule/DispatchBoard.tsx:49 | two padded fields joined by ':' read back as hours and minutes |
| Schedule.ParseClockOf | src/components/schedule/DispatchBoard.tsx:49 | two two-digit fields around ':' parse as hours·60 + minutes |
| Schedule.SplitTitle | src/components/schedule/DispatchBoard.tsx:102-107 | without an en dash the title is unchanged and the customer empty; with one, both parts are trimmed and dash-free |
| Schedule.SplitTitleOf | src/components/schedule/CalendarDayView.tsx:170-175 | for a title "p – c…" with dash-free p and c, the parts are p and c, trimmed |
| Schedule.FirstTwoPieces | src/components/schedule/DispatchBoard.tsx:103-106 | the first two pieces of the split are the text before the first dash and the text up to the second |
| Schedule.FirstPiece | src/components/schedule/DispatchBoard.tsx:103 | the first piece is the text before the first separator |
| Schedule.LocationHead | src/components/schedule/DispatchBoard.tsx:141 | `location.split(",")[0]` is a comma-free prefix of the address that ends at its first comma or at its end |
| Roles.ParseRole | src/lib/roles.ts:12-24 | an enum value names a role only if that role is stored as it |
| Roles.RoleKey | src/lib/roles.ts:12-22 | every stored enum value is a non-empty word of lower-case letters and `_` |
| Roles.KeyRoundTrip | src/lib/roles.ts:12-24 | every role reads back from its stored value |
| Roles.Definition | src/lib/roles.ts:113-405 | every entry of `ROLE_DEFINITIONS` is keyed by its own role |
| Roles.PermissionsOf | src/lib/roles.ts:113-405 | every role may see its own jobs, and only the owner may manage the subscription |
| Roles.LabelOf | src/lib/roles.ts:113-405 | every label is non-empty and capitalised |
| Roles.TierOf | src/lib/roles.ts:113-405 | finance alone is in the management tier |
| Roles.RoleIndex | src/lib/roles.ts:12-22 | every role has a position in `USER_ROLES` |
| Roles.AllRolesListed | src/lib/roles.ts:12-22 | `USER_ROLES` lists all nine roles, each once |
| Roles.HasPermission | src/lib/roles.ts:410-412 | a role has a permission exactly when the flag in its definition is set |
| Roles.FilterRoles | src/lib/roles.ts:416 | the filter keeps exactly the roles holding the permission, in the input order |
| Roles.RolesWithPermission | src/lib/roles.ts:415-417 | exactly the roles holding the permission, each once, in `USER_ROLES` order |
| Roles.RoleLabels | src/lib/roles.ts:420-422 | every role has a label, the one in its definition |
| Roles.LabelsDistinct | src/lib/roles.ts:420-422 | no two roles share a label |
| Roles.IsOwnerTier | src/lib/roles.ts:425-427 | the owner tier is exactly the owner and the business owner |
| Roles.IsStaffTier | src/lib/roles.ts:430-432 | the staff tier is exactly standard staff and its three variants |
| Roles.IsContractorTier | src/lib/roles.ts:435-437 | the contractor tier is exactly the contractor and the strict contractor |
| Roles.TiersExclusive | src/lib/roles.ts:425-437 | at most one tier predicate holds for a role, and finance satisfies none |
| Roles.OwnerHoldsEverything | src/lib/roles.ts:85-125 | the owner holds every permission |
| Roles.BusinessOwnerAllButSubscription | src/lib/roles.ts:127-139 | a business owner holds every permission except managing the subscription |
| Roles.SoleHolder | src/lib/roles.ts:415-417 | a permission held by one role is listed as that role alone |
| Roles.OnlyOwnerManagesSubscription | src/lib/roles.ts:415-417 | `rolesWithPermission("manageSubscription")` is `["owner"]` |
| Roles.SubscriptionHolder | src/lib/roles.ts:113-405 | a role may manage the subscription exactly when it is the owner |
| Roles.StaffNoMaterialVariant | src/lib/roles.ts:183-254 | staff without material differs from staff only in creating items, which staff has and it lacks |
| Roles.StaffNoAttachmentsVariant | src/lib/roles.ts:256-326 | staff without pricing and attachments differs from staff without pricing only in viewing attachments |
| Roles.EveryRoleViewsOwnJobs | src/lib/roles.ts:113-405 | every role sees its own jobs |
| Roles.AllJobsExceptContractors | src/lib/roles.ts:113-405 | a role lacks the view of all jobs exactly when it is in the contractor tier |
| Roles.StrictContractorWithinContractor | src/lib/roles.ts:331-404 | a strict contractor holds nothing a contractor does not |
| Roles.StaffAdministrationIsOwnerTier | src/lib/roles.ts:113-405 | managing staff and deleting jobs belong to the owner tier exactly |
| Roles.SettingsAreOwnerTier | src/lib/roles.ts:113-405 | viewing and managing settings and viewing reporting belong to the owner tier exactly |
| Roles.FinanceDescription | src/lib/roles.ts:144-181 | finance sees all jobs, quotes, invoices, clients and profitability, but not settings or reporting, and creates neither jobs nor invoices |
| Roles.StaffDescription | src/lib/roles.ts:183-218 | staff sees all jobs, clients and sale pricing, creates quotes, invoices and items, and sees neither profitability, reporting nor settings |
| Roles.StaffNoPricingDescription | src/lib/roles.ts:256-290 | staff without pricing sees all jobs but no quotes, invoices, sale pricing or financial PDFs |
| Roles.ContractorDescription | src/lib/roles.ts:331-367 | contractors quote and invoice and see their own clients, but create no jobs and see neither all jobs, all clients nor the staff list |
| Roles.StrictContractorDescription | src/lib/roles.ts:369-404 | strict contractors see their own jobs only, and neither quote, invoice, see sale pricing, create or apply items, nor see the staff list |
| Middleware.SomeAtOrBelow | src/middleware.ts:26-28 | the `some` test holds exactly when some listed path equals the pathname or is followed in it by "/" |
| Middleware.IsProtected | src/middleware.ts:26-28 | a path is protected exactly when it is one of the protected paths or lies below one; the login page never is |
| Middleware.IsAuthRoute | src/middleware.ts:37 | exactly "/" and "/forgot-password" are auth routes |
| Middleware.IsAuthenticated | src/middleware.ts:20-23 | a missing or empty token is never a session; any other token is one exactly when it verifies |
| Middleware.Decide | src/middleware.ts:18-44 | redirect to login exactly for a protected path without a session, carrying the pathname; redirect to the dashboard exactly for an auth route with a session; otherwise pass |
| Middleware.ProtectedAndAuthDisjoint | src/middleware.ts:13-37 | no path is both protected and an auth route, so at most one redirect applies |
| Middleware.ProtectedExamples | src/middleware.ts:26-28 | "/dashboard", "/jobs/42" and "/schedule/day/3" are protected; "/dashboardx", "/" and "/job" are not |
| Middleware.AuthRoutesAreExact | src/middleware.ts:37 | only "/" and "/forgot-password" themselves are auth routes, not paths below them |
| Middleware.MissingTokenRedirects | src/middleware.ts:20-34 | a protected path without a cookie redirects to login with the pathname |
| Middleware.SignedInReachesProtected | src/middleware.ts:26-43 | a signed-in user always reaches a protected path |
| Middleware.PublicPagesPass | src/middleware.ts:26-43 | paths that are neither protected nor auth routes always pass |
| Middleware.WildcardPattern | src/middleware.ts:50-54 | a `/:path*` pattern matches its base path and everything below it |
| Middleware.ExactPatterns | src/middleware.ts:48-49 | the first two patterns match exactly the two auth routes |
| Middleware.WildcardPatterns | src/middleware.ts:46-56 | the other five patterns are the protected paths with the wildcard suffix |
| Middleware.MatcherCoversGuard | src/middleware.ts:46-56 | the guard runs exactly on the paths it can redirect: protected paths and auth routes |
| SessionCookie.LifetimeIsOneDay | src/lib/jwt.ts:20 | the token lives 86400 s, 24 hours, and renders as "86400" |
| SessionCookie.Attributes | src/lib/jwt.ts:60-69 | four attributes, plus "Secure" last when asked for |
| SessionCookie.CookieParts | src/lib/jwt.ts:58-64 | the name=value pair comes first, then the attributes |
| SessionCookie.SpacedAttributes | src/lib/jwt.ts:71 | after joining with "; ", each attribute reads back with a leading space |
| SessionCookie.SecureAttribute | src/lib/jwt.ts:66-69 | " Secure" is among the attributes exactly when asked for |
| SessionCookie.BuildSessionCookie | src/lib/jwt.ts:57-72 | split at ';', the cookie is "nc_session=" + token, then Path=/, Max-Age=86400, HttpOnly, SameSite=Lax and, in production, Secure |
| SessionCookie.CookieSplit | src/lib/jwt.ts:71 | a cookie joined from ';'-free parts splits back into the pair and the attributes |
| SessionCookie.SecureOnlyInProduction | src/lib/jwt.ts:66-69 | the session cookie carries "Secure" exactly in production |
| SessionCookie.BuildLogoutCookie | src/lib/jwt.ts:75-77 | an empty value, Max-Age=0, the same Path, HttpOnly and SameSite, and never Secure |
| Text.DigitChar | src/components/schedule/DispatchBoard.tsx:49 | the digit character of a number below ten |
| Text.Decimal | src/components/schedule/DispatchBoard.tsx:49 | `String(n)` is a non-empty string of digits, with a leading zero only for 0, and one digit exactly below 10 |
| Text.DecimalRoundTrip | src/components/schedule/DispatchBoard.tsx:49 | the digits of `String(n)` read back as n |
| Text.DecimalOfTwoDigits | src/components/schedule/DispatchBoard.tsx:49 | numbers below 100 render in at most two digits |
| Text.PadStart2 | src/components/schedule/DispatchBoard.tsx:49 | `padStart(2, "0")` keeps the string as a suffix and fills up to two characters with zeros |
| Text.LeadingZero | src/components/schedule/DispatchBoard.tsx:49 | a leading zero does not change the value of a digit string |
| Text.IndexOf | src/components/schedule/DispatchBoard.tsx:102-107 | the first occurrence of a character |
| Text.Split | src/components/schedule/DispatchBoard.tsx:102-107 | `split` gives separator-free pieces: at least two when the separator occurs, the string itself when it does not |
| Text.JoinSplit | src/components/schedule/DispatchBoard.tsx:102-107 | joining the pieces of a split gives back the string |
| Text.SplitJoin | src/lib/jwt.ts:71 | splitting the join of separator-free pieces gives back the pieces |
| Text.Spaced | src/lib/jwt.ts:71 | every piece gains a leading space |
| Text.JoinSpaced | src/lib/jwt.ts:71 | joining with "; " is joining with ";" pieces with a leading space after the first |
| Text.TrimStart | src/components/schedule/DispatchBoard.tsx:103 | the longest suffix not starting with white space; only white space is dropped |
| Text.TrimEnd | src/components/schedule/DispatchBoard.tsx:103 | the longest prefix not ending with white space; only white space is dropped |
| Text.Trim | src/components/schedule/DispatchBoard.tsx:103-106 | `trim()` leaves no white space at either end and keeps only characters of the input |
| Text.TrimSpec | src/components/schedule/DispatchBoard.tsx:103-106 | the trimmed text is a substring with only white space cut before and after it |
| Text.TrimBounds | src/components/schedule/DispatchBoard.tsx:103-106 | the indices of the kept part, with only white space outside them |
| Text.TrimOfTrimmed | src/components/schedule/DispatchBoard.tsx:103-106 | trimming is idempotent on text with no white space at its ends |
| UserQueries.OmitPassword | src/lib/users.ts:21-25 | the row loses `password_hash` and keeps every other column with its value |
| UserQueries.OmitPasswordIdempotent | src/lib/users.ts:21-25 | stripping twice is stripping once, and a row without a hash is unchanged |
| UserQueries.FirstWithoutPassword | src/lib/users.ts:29-42 | the first row without its hash, or none exactly when there is no row |
| UserQueries.FirstRow | src/lib/users.ts:36 | the first row with its hash, for the login check, or none exactly when there is no row |
| UserQueries.JoinUses | src/lib/users.ts:81 | a placeholder occurs in a join exactly when it occurs in a part |
| UserQueries.JoinNumbered | src/lib/users.ts:81 | joining numbered parts uses $1 … $k, one per part |
| UserQueries.GetUserById | src/lib/users.ts:29-32 | one placeholder, bound to the id |
| UserQueries.GetUserByEmail | src/lib/users.ts:34-37 | one placeholder, bound to the email |
| UserQueries.GetUserByEmployeeCode | src/lib/users.ts:39-42 | one placeholder, bound to the employee code |
| UserQueries.CleanerRolesAreFieldTiers | src/lib/users.ts:104-113 | the roles `getAvailableCleaners` lists are exactly the staff-tier and contractor-tier roles |
| UserQueries.ComponentShape | src/lib/users.ts:61-79 | each test adds one filter, of its own kind, exactly when its option is truthy |
| UserQueries.FiltersPresent | src/lib/users.ts:61-79 | a filter of each kind is applied exactly when its option is supplied; search needs non-empty text and skills a non-empty list |
| UserQueries.RankedAppend | src/lib/users.ts:61-79 | ordered runs of filters, the later of later kinds, stay ordered together |
| UserQueries.FiltersOrdered | src/lib/users.ts:61-79 | the filters come in the order role, status, search, skills, at most one of each |
| UserQueries.Condition | src/lib/users.ts:61-79 | a condition uses its own placeholder and no other, and all its other text is fixed SQL, never the filter value |
| UserQueries.FilterParam | src/lib/users.ts:61-79 | each filter binds its value as it is: the role's stored key, which reads back as the role, the status key, the search text between two `%`, the skills list |
| UserQueries.ConditionByRank | src/lib/users.ts:61-79 | a condition's text depends only on the kind of filter, not on its value |
| UserQueries.ConditionPlaceholderCount | src/lib/users.ts:69-74 | the search condition uses its placeholder three times; every other condition uses it once |
| UserQueries.Conditions | src/lib/users.ts:61-79 | one condition per filter, the i-th using $(i+1) |
| UserQueries.FilterParams | src/lib/users.ts:61-79 | one parameter per filter |
| UserQueries.Where | src/lib/users.ts:81 | no text exactly when there are no conditions; otherwise it uses exactly the conditions' placeholders |
| UserQueries.JoinNumberedIfNumbered | src/lib/users.ts:81 | joined numbered conditions use $1 … $k |
| UserQueries.FilterClauses | src/lib/users.ts:57-79 | the loop's conditions and parameters are those of the applied filters, and the next index is one past them |
| UserQueries.ListUsersQueries | src/lib/users.ts:81-96 | the count query binds the filter values; the page query adds limit (default 50) and offset (default 0) at the next two placeholders; both are aligned |
| UserQueries.CountQuery | src/lib/users.ts:84-87 | the count query binds exactly the filter values, reads the whole table without conditions, and is aligned when the conditions are numbered |
| UserQueries.PageQuery | src/lib/users.ts:91-96 | the page query binds the filter values, then the limit and the offset, and is aligned when the conditions are numbered |
| UserQueries.ListSqlIgnoresValues | src/lib/users.ts:1-5 | the SQL text of both `listUsers` queries depends only on which options are supplied, never on their values |
| UserQueries.SameRanks | src/lib/users.ts:61-79 | options with the same truthy tests apply filters of the same kinds in the same order |
| UserQueries.SameConditions | src/lib/users.ts:61-79 | filters of the same kinds in the same order give the same conditions |
| UserQueries.QueryTextIgnoresParams | src/lib/users.ts:81-96 | the text of both queries depends only on the conditions and the number of parameters |
| UserQueries.TracksStep | src/lib/users.ts:61-79 | each applied filter extends conditions, parameters and index in step |
| UserQueries.TracksSpec | src/lib/users.ts:57-79 | lists built in step are the functions of the filters |
| UserQueries.NoFiltersNoWhere | src/lib/users.ts:81 | without filters there is no WHERE clause and no filter parameter |
| UserQueries.ArrayColumnsAreNotJson | src/lib/users.ts:130-139 | the array columns are never cast to JSON |
| UserQueries.Defined | src/lib/users.ts:125-126 | the fields kept are exactly the entries whose value is not undefined |
| UserQueries.ColumnPlaceholder | src/lib/users.ts:130-144 | a column's placeholder uses $n and no other |
| UserQueries.ColumnParam | src/lib/users.ts:130-145 | the bound value is the field's value, stringified exactly for the five JSON columns |
| UserQueries.Columns | src/lib/users.ts:127 | one column name per defined field, in order |
| UserQueries.ColumnPlaceholders | src/lib/users.ts:130-144 | one placeholder per defined field, the i-th using $(i+1) |
| UserQueries.ColumnParams | src/lib/users.ts:130-145 | one value per defined field, in order, stringified exactly for the JSON columns |
| UserQueries.CreateUserQuery | src/lib/users.ts:118-154 | the INSERT has one column, placeholder and value per defined field, with JSON casts for the JSON columns, and is aligned |
| UserQueries.DefinedStep | src/lib/users.ts:125-126 | one more entry adds a field exactly when its value is defined |
| UserQueries.InsertStep | src/lib/users.ts:127-145 | each defined field extends the three lists and the index in step |
| UserQueries.InsertSpec | src/lib/users.ts:125-146 | lists built in step are the functions of the defined fields |
| UserQueries.InsertSql | src/lib/users.ts:148-152 | numbered placeholders make the INSERT use exactly $1 … $k |
| UserQueries.SetClause | src/lib/users.ts:171-182 | a SET clause uses $n and no other |
| UserQueries.SetClauses | src/lib/users.ts:168-184 | one SET clause per defined field, the i-th using $(i+1) |
| UserQueries.UpdateClauses | src/lib/users.ts:164-184 | the loop's clauses and values are those of the defined fields, and the next index is one past them |
| UserQueries.UpdateUserQuery | src/lib/users.ts:160-195 | with no defined field the user is read by id; otherwise one SET per field, the values in order and the id last at $(n+1); aligned either way |
| UserQueries.UpdateStep | src/lib/users.ts:171-183 | each defined field extends clauses, values and index in step |
| UserQueries.UpdateSpec | src/lib/users.ts:168-184 | lists built in step are the functions of the defined fields |
| UserQueries.UpdateSql | src/lib/users.ts:189-193 | the id is bound at $(n+1), and numbered SET clauses make the UPDATE use exactly $1 … $(n+1) |
| UserQueries.DeactivateFields | src/lib/users.ts:202-207 | deactivation sets `status` and then `end_date`, binding "terminated" and the date |
| UserQueries.DeactivateUserQuery | src/lib/users.ts:202-207 | deactivation is the UPDATE setting `status` at $1 and `end_date` at $2, binding "terminated", the date and then the id at $3 |
| UserQueries.DeleteUserQuery | src/lib/users.ts:210-213 | one placeholder, bound to the id |
| UserQueries.WriteSqlIgnoresValues | src/lib/users.ts:1-5 | the INSERT and UPDATE text depends only on which fields are defined, never on their values |
| UserQueries.DefinedColumns | src/lib/users.ts:125-127 | field lists with the same keys, defined in the same places, define the same columns in the same order |
| UserQueries.UpdateUserLocationQuery | src/lib/users.ts:217-230 | latitude, longitude and id at $1, $2 and $3 |

## Left out

- Date parsing, time zones and clocks: instants are integers. The local minute of the day uses a fixed UTC offset given as a parameter, so daylight-saving changes are not modelled. "Now" is a parameter. An unparseable date, whose `getTime()` is NaN, is not modelled.
- Schedule.MinuteOfDay: takes the offset as a fixed number of minutes rather than the zone rules `getHours()` applies.
- `formatTime`, the `toLocaleDateString` heading and the block tooltip are locale formatting and are not modelled.
- React rendering is not modelled: hooks, `useMemo`, the `setInterval` refresh of the now line, DOM scrolling and smooth behaviour, status colours, row stripes and the grid-line `indexOf`. Only the formulas these use are modelled.
- DayViewLayout.LayoutJobs: the no-collision guarantee is proved only when job ids are distinct and no job ends before it starts. With duplicate ids, the `assignments` map keeps the last column written for an id, as modelled, and the code gives no guarantee.
- Column minimality is not proved: that a cluster's column count equals the largest number of its jobs overlapping at one instant.
- `Array.prototype.sort` is modelled by a stable insertion sort with the same comparator. The engine's algorithm is not modelled, only the stable order the language requires.
- DispatchBoard.Slice: takes characters, where JavaScript's `slice` counts UTF-16 code units. The two agree except for characters outside the Basic Multilingual Plane.
- Text.Trim: white space is the ECMAScript set of white-space and line-terminator code points, taken one `char` at a time.
- SessionCookie.BuildSessionCookie: the split-back property is stated for tokens without ';'. Tokens signed by the application are base64url text and never contain one.
- `signToken` and `verifyToken` are cryptography in a foreign library. The guard takes verification as a function parameter `verified`.
- The login redirect is modelled as the pathname it carries. Building the URL and encoding the query string are not modelled.
- `NODE_ENV` is a parameter of `BuildSessionCookie`.
- Roles.HasPermission: every role has a definition, so the `?? false` fallback of `hasPermission` can never apply and is not modelled.
- The 25 boolean flags of a role are modelled as the set of flags that are true.
- The free-text descriptions of the roles are not modelled as text. What each description claims about the flags is proved by `OwnerHoldsEverything`, `BusinessOwnerAllButSubscription`, `FinanceDescription`, `StaffDescription`, `StaffNoMaterialVariant`, `StaffNoPricingDescription`, `StaffNoAttachmentsVariant`, `ContractorDescription` and `StrictContractorDescription`. Claims that no flag stands for are not modelled: seeing schedules or job history, and one owner per account.
- Database execution is not modelled. `query()` receives a `Query` value, and the rows it would answer with are inputs (`FirstRow`, `FirstWithoutPassword`).
- The `total` of `listUsers` (`parseInt` of the count) is not modelled. The `rows.map(omitPassword)` of `listUsers` and `getAvailableCleaners` is not modelled either; each row goes through `OmitPassword`.
- `getAvailableCleaners` is modelled by its role list only. Its SQL text binds no parameter.
- `createUser` reads `rows[0]` without checking it. A failed insert that returns no row throws in the code, and that failure is not modelled.
- `deleteUser` is modelled by its query. Its boolean result is "the DELETE returned a row".
- `JSON.stringify` is kept symbolic: a parameter is either bound as it is (`Raw`) or as the JSON text of its value (`Json`).
- `Object.entries` order is the order of the input entries, a sequence of fields with `None` for `undefined`.
- `deactivateUser` takes today's ISO date as the parameter `today`, instead of reading the clock.
