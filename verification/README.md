# Booking approval model for book-xe-admin

A Dafny model of the rule-bearing core of `book-xe-admin`. This is the admin and staff web client of a company vehicle-booking system.

## What is modelled

A booking request passes through a staged approval chain:

- It is created in `pending_viet`.
- The Vietnamese manager moves it to `pending_korea`.
- The Korean manager moves it to `pending_admin`.
- The admin moves it to `approved`.
- Any of the three may set it to `rejected`.

Next to the chain lives an older single-step flow. On the all-bookings page an admin decides a booking in the legacy `pending` status directly.

Around this workflow sit the list rules of the screens:

- the approvers' queues and the booking history;
- the booking form's validation, vehicle options and initial row;
- the notification list (addressing, live inserts, read flags);
- the alert centre;
- the overview counters and approval rate;
- the vehicle and user searches;
- the weekly schedule grid;
- the sidebar navigation.

Each source file is one module. Three helper modules support them:

| module | source | content |
|---|---|---|
| `Types` | `types/index.ts` | The records and enumerations. Every enumeration the database stores as text has a parser and a round-trip lemma. |
| `Store` | — | The one write the approval screens issue, `update(patch).eq("id", id)`, as a pure function over a sequence of rows. A column whose new value is `undefined` is not written. |
| `Approval` | `ApprovalList.tsx` | The approve and reject patches per approver role. |
| `Dashboard` | `DashboardPage.tsx` | The role-to-status gate, `canApprove`, the initial tab and the history query. |
| `BookingForm` | `BookingForm.tsx` | The schema, the vehicle options and resolution, the inserted row and the two notices. |
| `AllBookings` | `AllBookingsPage.tsx` | The legacy decision, the local list update and the counters. |
| `Notifications` | `notification-context.tsx` | Relevance, fetch, insert, unread count, the read actions and the stored row. |
| `Alerts` | `AlertsPage.tsx` | Maintenance, stuck-booking and system alerts; the severity counts and filter. |
| `Overview` | `OverviewPage.tsx` | Scope, the ten counters, the five most recent bookings, the approval rate. |
| `Vehicles` | `VehicleManagementPage.tsx` | The search and status filter, and the vehicle form's initial values and saved row. |
| `Schedule` | `SchedulePage.tsx` | The hour grid, event placement, per-day selection, the weekly total and colours. |
| `Layout` | `MainLayout.tsx` | The role filter over the navigation, the active entry and the role text. |
| `Users` | `UserManagementPage.tsx` | The profile search, the role badge and the role change. |
| `Workflow` | — | Properties that span several screens. |
| `Seqs`, `Text` | — | `filter`, `find`, `slice`, sorting, `startsWith`, `includes` and single-character `replace`, with their facts. |

### Inputs the model takes as parameters

- **Time.** Timestamps are integers (milliseconds). The current time, `differenceInDays` of a parsed date, `getHours`/`getMinutes`, and the calendar day of a travel time are parameters.
- **Lower-casing.** `toLowerCase` is a function parameter `lower`.
- **Persistence.** The database is a sequence of rows. A query is a filter and a sort over it. Whether a write succeeded is a boolean input.
- **The user.** The signed-in user is an `Option<User>` whose role may be missing.

### Where the code departs from the system's specification

The model follows the code throughout:

- **No status re-check.** The approval list never reads a row's current status. An approval or rejection writes the same patch whatever stage the row is at (`Approval.ApproveIgnoresStatus`). A stale screen can therefore approve a rejected booking (`Approval.StaleApprovalRevivesRejected`). A Korean manager can also act on a row still waiting for the Vietnamese stage (`Approval.KoreaApprovalSkipsVietStage`).
- **No error results.** There is no optimistic-concurrency guard and no authorization, conflict or invalid-transition error. The only failure is a failed write, which leaves everything as it was.
- **No notifications on decisions.** Approvals and rejections send none. Only a new booking sends two.
- **Two initial statuses.**
  - The booking form writes `pending_viet` with the Vietnamese flag `pending`. It does not write the Korean and admin flags; the model takes them as null.
  - The all-bookings page acts only on the legacy `pending` status, which is in no approver's queue (`Workflow.LegacyPendingLivesOutsideTheStages`).
- **Legacy approval skips the stage flags.** It writes no stage flags, so a booking can become `approved` without any stage having approved it (`AllBookings.LegacyApprovalBypassesStages`).

## Model

| member | source | states |
|---|---|---|
| Types.ParseRole | book-xe-admin/src/types/index.ts:1 | A text parses to a role exactly when it is one of the four role names, and then to the role with that name. |
| Types.RoleRoundTrip | book-xe-admin/src/types/index.ts:1 | Every role's stored name parses back to that role. |
| Types.RolesAreExactlyFour | book-xe-admin/src/types/index.ts:1 | There are exactly four roles, every role is listed, and their names are pairwise distinct. |
| Types.ParseStatus | book-xe-admin/src/types/index.ts:16-24 | A text parses to a booking status exactly when it is one of the eight status names. |
| Types.StatusRoundTrip | book-xe-admin/src/types/index.ts:16-24 | Every status's stored name parses back to that status. |
| Types.StatusesAreExactlyEight | book-xe-admin/src/types/index.ts:16-24 | There are exactly eight statuses, legacy `pending` included, with pairwise distinct names. |
| Types.TerminalStatusesAreFour | book-xe-admin/src/types/index.ts:21-24 | Exactly four statuses are terminal: approved, rejected, completed, cancelled. |
| Types.ParseFlag | book-xe-admin/src/types/index.ts:45-47 | A stage flag, when present, is one of `pending`/`approved`/`rejected`; any other text is not a flag. |
| Types.FlagRoundTrip | book-xe-admin/src/types/index.ts:45-47 | Every stage flag's text parses back to that flag. |
| Types.ParseVehicleStatus | book-xe-admin/src/types/index.ts:62 | A text parses to a vehicle status exactly when it is one of the four names. |
| Types.VehicleStatusRoundTrip | book-xe-admin/src/types/index.ts:62 | Every vehicle status's name parses back to it. |
| Types.VehicleStatusesAreExactlyFour | book-xe-admin/src/types/index.ts:62 | There are exactly four vehicle statuses and all are listed. |
| Store.Apply | book-xe-admin/src/pages/dashboard/ApprovalList.tsx:60-63 | For each of the eight patchable columns (status, the three stage flags, the two approver ids, `approved_by`, `approved_at`), a written column takes the new value and an unwritten one keeps the old. Every column outside the patch is unchanged. |
| Store.ApplyEmpty | book-xe-admin/src/pages/dashboard/ApprovalList.tsx:34 | An update that names no column leaves the row as it was. |
| Store.ApplyIdempotent | book-xe-admin/src/pages/dashboard/ApprovalList.tsx:60-63 | Writing the same update twice gives the same row as writing it once. |
| Store.UpdateWhereId | book-xe-admin/src/pages/dashboard/ApprovalList.tsx:60-63 | An update keyed by id patches every row with that id, leaves every other row as it was, and adds or removes no row. |
| Store.UpdateKeepsIds | book-xe-admin/src/pages/dashboard/ApprovalList.tsx:60-63 | An update keyed by id never changes any row's id. |
| Approval.Approve | book-xe-admin/src/pages/dashboard/ApprovalList.tsx:37-56 | Per role, the approved row differs from the original only in that role's status, flag and actor columns. Managers write no `approved_by`/`approved_at`; an absent actor leaves the actor column as it was. |
| Approval.Reject | book-xe-admin/src/pages/dashboard/ApprovalList.tsx:83-98 | A rejection sets `rejected`, the actor and the time, and only the acting role's flag; the other two flags and all other columns are unchanged. |
| Approval.HandleApprove | book-xe-admin/src/pages/dashboard/ApprovalList.tsx:25-73 | A dismissed or failed approval leaves the table unchanged. A committed one replaces exactly the rows with the booking's id by their approval, whatever their status. |
| Approval.HandleReject | book-xe-admin/src/pages/dashboard/ApprovalList.tsx:75-110 | The same as `HandleApprove`, for the rejection. |
| Approval.ApproveIgnoresStatus | book-xe-admin/src/pages/dashboard/ApprovalList.tsx:36-56 | The approved row does not depend on the status the row had before. |
| Approval.RejectIgnoresStatus | book-xe-admin/src/pages/dashboard/ApprovalList.tsx:83-100 | The rejected row does not depend on the status the row had before. |
| Approval.StagedChainApproves | book-xe-admin/src/pages/dashboard/ApprovalList.tsx:37-56 | Viet, then korea, then admin approval of a `pending_viet` row ends `approved`, with all three flags approved and every actor recorded. |
| Approval.StaleApprovalRevivesRejected | book-xe-admin/src/pages/dashboard/ApprovalList.tsx:49-63 | A committed admin approval of a rejected row makes it `approved`. |
| Approval.KoreaApprovalSkipsVietStage | book-xe-admin/src/pages/dashboard/ApprovalList.tsx:43-48 | A korea approval of a `pending_viet` row moves it to `pending_admin` with its viet flag still `pending`. |
| Dashboard.GatingStatus | book-xe-admin/src/pages/dashboard/DashboardPage.tsx:64-75 | Exactly the three approver roles get a queue status, and it is one of the three staged statuses; staff and a missing role get none. |
| Dashboard.GatingIsInjective | book-xe-admin/src/pages/dashboard/DashboardPage.tsx:64-69 | Two roles with the same queue status are the same role. |
| Dashboard.ApprovalAdvancesGate | book-xe-admin/src/pages/dashboard/DashboardPage.tsx:64-69 | An approval moves a row out of the approver's own queue. A manager's approval moves it into the next role's queue; the admin's into no queue. |
| Dashboard.PendingApprovals | book-xe-admin/src/pages/dashboard/DashboardPage.tsx:56-85 | The queue holds exactly the rows at the role's gating status, oldest first, each as often as the table holds it; it is empty for staff or no role. |
| Dashboard.CanApprove | book-xe-admin/src/pages/dashboard/DashboardPage.tsx:87-89 | Approval is offered iff the role is one of the three approver roles; a missing role counts as staff. |
| Dashboard.CanApproveIffQueue | book-xe-admin/src/pages/dashboard/DashboardPage.tsx:64-89 | The approvals tab is offered exactly to the roles that have a queue. |
| Dashboard.LegacyPendingInNoQueue | book-xe-admin/src/pages/dashboard/DashboardPage.tsx:64-74 | No role's queue ever contains a `pending` row. |
| Dashboard.InitialTab | book-xe-admin/src/pages/dashboard/DashboardPage.tsx:12-25 | A user who can approve starts on the approvals tab; everybody else stays on `create`. |
| Dashboard.MyHistory | book-xe-admin/src/pages/dashboard/DashboardPage.tsx:37-54 | The history holds exactly the rows the user created, newest first, each as often as the table holds it. |
| BookingForm.SchemaCoversFields | book-xe-admin/src/pages/dashboard/BookingForm.tsx:14-23 | The schema names every one of the eight form fields. |
| BookingForm.ValidationErrors | book-xe-admin/src/pages/dashboard/BookingForm.tsx:14-23 | A field is reported iff its value is empty; there is no error iff all eight fields are filled. |
| BookingForm.LiveVehicles | book-xe-admin/src/pages/dashboard/BookingForm.tsx:84-87 | The loaded vehicles are exactly the non-retired ones, in order. |
| BookingForm.VehicleOptionList | book-xe-admin/src/pages/dashboard/BookingForm.tsx:93-96 | One option per vehicle, valued by that vehicle's id, in order. |
| BookingForm.VehicleOptions | book-xe-admin/src/pages/dashboard/BookingForm.tsx:75-101 | With live vehicles: one option per vehicle (value = id) followed by a single "Khác". Without any: the six static defaults. |
| BookingForm.SelectedVehicle | book-xe-admin/src/pages/dashboard/BookingForm.tsx:133 | The chosen vehicle is the first loaded vehicle with the chosen id; none is chosen only when no loaded vehicle has that id. |
| BookingForm.DriverInfo | book-xe-admin/src/pages/dashboard/BookingForm.tsx:138-141 | "" without a vehicle or a driver name; the name alone without a phone; otherwise "name (phone)". |
| BookingForm.NewBooking | book-xe-admin/src/pages/dashboard/BookingForm.tsx:132-157 | The new row is `pending_viet` with the viet flag pending and no other flag or actor, created by the user. The cargo, department, destination, requester and reason are as typed, and `driver_info` is the chosen vehicle's driver text. A matched vehicle gives its name and id; otherwise "Khác", no id and no driver. |
| BookingForm.SubmitNotices | book-xe-admin/src/pages/dashboard/BookingForm.tsx:169-182 | A submit sends exactly two notices: `success` to the requester's id, and `info` to the `manager_viet` role. |
| BookingForm.Submit | book-xe-admin/src/pages/dashboard/BookingForm.tsx:126-196 | Invalid iff some field is empty, reporting exactly the empty fields; nothing without a user. Submitted iff valid, signed in, the time parses and the insert succeeds. Then the inserted row is the form's new booking (`pending_viet`) and the two notices are exactly the requester's and the viet managers'. |
| AllBookings.FetchAll | book-xe-admin/src/pages/admin/AllBookingsPage.tsx:35-66 | The list holds exactly the rows passing the status and vehicle-type filters, newest first, each as often as the table holds it. |
| AllBookings.FetchAllUnfiltered | book-xe-admin/src/pages/admin/AllBookingsPage.tsx:50-55 | With both filters at "all", every row is listed exactly once. |
| AllBookings.DecisionStatus | book-xe-admin/src/pages/admin/AllBookingsPage.tsx:74-77 | Accept leads to `approved` and decline to `rejected`, both terminal. |
| AllBookings.Decide | book-xe-admin/src/pages/admin/AllBookingsPage.tsx:82-89 | A decision changes only the status, `approved_by` and `approved_at`; the stage flags and every other column are kept. |
| AllBookings.HandleAction | book-xe-admin/src/pages/admin/AllBookingsPage.tsx:74-112 | With no user or a failed write, nothing changes. Otherwise the table rows and list entries with that id are decided, and all others stay as they were. |
| AllBookings.DecidedRowLosesActions | book-xe-admin/src/pages/admin/AllBookingsPage.tsx:311 | A decided row no longer offers the approve and reject buttons. |
| AllBookings.LegacyApprovalBypassesStages | book-xe-admin/src/pages/admin/AllBookingsPage.tsx:82-89 | A `pending` row with no admin flag becomes `approved` and still has no admin flag. |
| AllBookings.CountStatus | book-xe-admin/src/pages/admin/AllBookingsPage.tsx:149 | A counter never exceeds the list, and it is zero iff no listed row has its status. |
| AllBookings.CountStatusCounts | book-xe-admin/src/pages/admin/AllBookingsPage.tsx:149 | A counter equals the number of listed rows with its status, counted position by position. |
| AllBookings.CountStatusStep | book-xe-admin/src/pages/admin/AllBookingsPage.tsx:149-162 | One more row in the list raises the counter of its own status by one and no other counter. |
| AllBookings.CountersWithinTotal | book-xe-admin/src/pages/admin/AllBookingsPage.tsx:149-175 | The pending and approved counters together never exceed the total. |
| AllBookings.StagedRowsUncounted | book-xe-admin/src/pages/admin/AllBookingsPage.tsx:149-162 | A list of staged rows shows zero pending and zero approved. |
| AllBookings.AcceptMovesCounters | book-xe-admin/src/pages/admin/AllBookingsPage.tsx:94-105 | Accepting the one pending row with a given id lowers the pending counter by one and raises the approved counter by one. |
| Notifications.FetchFilterIsRelevance | book-xe-admin/src/app/notification-context.tsx:47-51 | The fetch query selects a notification iff the live handler would accept it: addressed to the user, or to the user's role when there is one. |
| Notifications.Fetch | book-xe-admin/src/app/notification-context.tsx:41-51 | At most 50 relevant rows, newest first. When fewer than 50 are returned, every relevant row is among them. |
| Notifications.FetchKeepsNewest | book-xe-admin/src/app/notification-context.tsx:44-45 | A relevant notification left out of the fetch means 50 were kept, each at least as new as the one left out. |
| Notifications.OnInsert | book-xe-admin/src/app/notification-context.tsx:97-115 | A relevant insert is put in front of the list; any other leaves the list unchanged. |
| Notifications.UnreadCountCounts | book-xe-admin/src/app/notification-context.tsx:136 | The badge counts the unread entries position by position, and never exceeds the list length. |
| Notifications.OnInsertUnread | book-xe-admin/src/app/notification-context.tsx:101-115 | A relevant insert raises the unread count by one exactly when it arrives unread. |
| Notifications.MarkAsRead | book-xe-admin/src/app/notification-context.tsx:158-160 | The notifications with that id become read, and every other entry and the length are unchanged. |
| Notifications.MarkAsReadLowersCount | book-xe-admin/src/app/notification-context.tsx:160 | Marking one notification read never raises the unread count. |
| Notifications.Ids | book-xe-admin/src/app/notification-context.tsx:174 | The ids sent to the store are the list's ids, position by position. |
| Notifications.ReadAll | book-xe-admin/src/app/notification-context.tsx:170 | Every entry becomes read with nothing else changed. |
| Notifications.MarkAllAsRead | book-xe-admin/src/app/notification-context.tsx:169-182 | Every entry becomes read. The list's ids are sent to the store, and no update is issued exactly when the list is empty. |
| Notifications.MarkAllClearsCount | book-xe-admin/src/app/notification-context.tsx:170 | After marking all as read the unread count is 0. |
| Notifications.Stored | book-xe-admin/src/app/notification-context.tsx:138-150 | A stored notification is unread, of type `info` unless another is given, addressed and worded as requested. |
| Alerts.MaintenanceAlertFor | book-xe-admin/src/pages/admin/AlertsPage.tsx:82-108 | No date: no alert. Overdue: one `high` alert. Due within 7 days (inclusive): one `medium` alert. Later: none. |
| Alerts.MaintenanceAlerts | book-xe-admin/src/pages/admin/AlertsPage.tsx:82-109 | One maintenance alert per vehicle due within a week, in vehicle order: the i-th alert is the one that vehicle's date gives. None of them is `low`. |
| Alerts.HighAlertsAreOverdue | book-xe-admin/src/pages/admin/AlertsPage.tsx:89-97 | The high maintenance alerts are exactly as many as the overdue vehicles. |
| Alerts.StuckBookings | book-xe-admin/src/pages/admin/AlertsPage.tsx:111-119 | The stuck bookings are exactly the `pending` rows created more than two days before now, in order. |
| Alerts.BookingAlerts | book-xe-admin/src/pages/admin/AlertsPage.tsx:121-130 | One `low` booking alert per stuck booking, in the same order and with its id. |
| Alerts.FetchAlerts | book-xe-admin/src/pages/admin/AlertsPage.tsx:74-143 | The alert count is due vehicles plus stuck bookings plus one. The single system alert is last, so the list is never empty, and no earlier alert is a system alert. |
| Alerts.FetchAlertsLayout | book-xe-admin/src/pages/admin/AlertsPage.tsx:79-131 | The fetched list is the maintenance alerts, then exactly the booking alerts of the stuck bookings in order, then the system alert. |
| Alerts.CountAlerts | book-xe-admin/src/pages/admin/AlertsPage.tsx:154-159 | `all` equals `high + medium + low`, each counting the alerts of its severity. |
| Alerts.HighCountOfFetched | book-xe-admin/src/pages/admin/AlertsPage.tsx:154-156 | The high counter on the page equals the number of overdue vehicles. |
| Alerts.LowCountOfFetched | book-xe-admin/src/pages/admin/AlertsPage.tsx:121-143 | The low counter equals the number of stuck bookings plus one. |
| Alerts.FilterAlerts | book-xe-admin/src/pages/admin/AlertsPage.tsx:151-152 | "all" shows every alert; a severity shows exactly the alerts of that severity, in order. |
| Alerts.TabMatchesCounter | book-xe-admin/src/pages/admin/AlertsPage.tsx:151-159 | Each severity tab lists as many alerts as its counter shows. |
| Overview.Scope | book-xe-admin/src/pages/dashboard/OverviewPage.tsx:55-60 | Staff see exactly the bookings they created; everyone else sees all, in order. |
| Overview.ComputeStats | book-xe-admin/src/pages/dashboard/OverviewPage.tsx:73-109 | Each counter counts its own rows: waiting, approved and rejected bookings; available, in-use and maintenance vehicles; bookings created since midnight and in the last seven days. Hence pending + approved + rejected ≤ total bookings, available + in use + maintenance ≤ total vehicles, and today ≤ this week ≤ total. |
| Overview.PendingCounterCountsWaiting | book-xe-admin/src/pages/dashboard/OverviewPage.tsx:84-91 | A booking raises the pending counter by one exactly when its status is one of the four waiting statuses. |
| Overview.Recent | book-xe-admin/src/pages/dashboard/OverviewPage.tsx:111-117 | At most five bookings, newest first, drawn from the input without duplicates. |
| Overview.RecentAreNewest | book-xe-admin/src/pages/dashboard/OverviewPage.tsx:111-117 | No booking left out of the five is newer than the last one shown. |
| Overview.LaterInSortIsOlder | book-xe-admin/src/pages/dashboard/OverviewPage.tsx:112-116 | In the newest-first order, every booking after position n is no newer than the one just before n. |
| Overview.ApprovalRate | book-xe-admin/src/pages/dashboard/OverviewPage.tsx:343-347 | 0 with no bookings; otherwise the nearest integer to 100·approved/total, halves rounding up. |
| Overview.RateIsPercentage | book-xe-admin/src/pages/dashboard/OverviewPage.tsx:343-347 | With no more approvals than bookings, the rate lies in [0, 100]. |
| Overview.ShownRateIsPercentage | book-xe-admin/src/pages/dashboard/OverviewPage.tsx:343-347 | The rate the page shows always lies in [0, 100]. |
| Vehicles.TwoPassIsOnePass | book-xe-admin/src/pages/admin/VehicleManagementPage.tsx:65-82 | The search pass then the status pass keep exactly what one combined test keeps. |
| Vehicles.FilterVehicles | book-xe-admin/src/pages/admin/VehicleManagementPage.tsx:65-82 | An order-preserving subsequence holding exactly the vehicles that match the lower-cased term (in plate, name or type, when a term is given) and the status filter. |
| Vehicles.UnfilteredIsIdentity | book-xe-admin/src/pages/admin/VehicleManagementPage.tsx:65-82 | With no search and status "all" the list is shown unchanged. |
| Vehicles.FilterVehiclesIdempotent | book-xe-admin/src/pages/admin/VehicleManagementPage.tsx:65-82 | Filtering the result again with the same criteria changes nothing. |
| Vehicles.OrEmpty | book-xe-admin/src/pages/admin/VehicleManagementPage.tsx:371-384 | An optional field is shown as its value when non-empty, and as "" otherwise. |
| Vehicles.DatePart | book-xe-admin/src/pages/admin/VehicleManagementPage.tsx:378-383 | The date shown is the part of the stored text before its first `T`, or the whole text when there is none. |
| Vehicles.InitialForm | book-xe-admin/src/pages/admin/VehicleManagementPage.tsx:370-385 | A new vehicle starts with empty fields and `available`; an edited one starts with its own plate, name, type and status. The optional texts start as their value, or "" when absent, and each date as its date part, or "" when absent. |
| Vehicles.NormalizeDate | book-xe-admin/src/pages/admin/VehicleManagementPage.tsx:395-396 | An empty date field is saved as null, and a non-empty one as typed. |
| Vehicles.Saved | book-xe-admin/src/pages/admin/VehicleManagementPage.tsx:393-398 | The saved row has null exactly for the empty date fields and the typed text for every other field. It keeps the given id and creation time and has the new update time. |
| Vehicles.UneditedDatesRoundTrip | book-xe-admin/src/pages/admin/VehicleManagementPage.tsx:378-398 | Saving an unedited form keeps a plain stored date and stores null for an absent or empty one. |
| Schedule.Range | book-xe-admin/src/pages/admin/SchedulePage.tsx:73-76 | `Array.from` with `start + i` yields the n consecutive integers from start. |
| Schedule.HoursAreTheGrid | book-xe-admin/src/pages/admin/SchedulePage.tsx:71-76 | `HOURS` has 17 entries and holds exactly the hours 6 to 22. |
| Schedule.EventStyleAt | book-xe-admin/src/pages/admin/SchedulePage.tsx:121-129 | No placement iff the hour is before 6 or after 22. Otherwise top·60 = ((hour−6)·60 + minute)·64 and the height is 128. |
| Schedule.PlacedEventStartsInGrid | book-xe-admin/src/pages/admin/SchedulePage.tsx:125-126 | A placed event's top lies within the grid's height. |
| Schedule.PlacementIsMonotone | book-xe-admin/src/pages/admin/SchedulePage.tsx:126 | A later time of day is placed strictly lower. |
| Schedule.LateEventsOverflowGrid | book-xe-admin/src/pages/admin/SchedulePage.tsx:125-127 | Every placed event starting after 21:00, up to 22:59, runs past the bottom of the grid. |
| Schedule.Scheduled | book-xe-admin/src/pages/admin/SchedulePage.tsx:99-109 | Exactly the approved and completed rows are scheduled, earliest trip first, each as often as the table holds it. |
| Schedule.BookingsForDate | book-xe-admin/src/pages/admin/SchedulePage.tsx:131-132 | A day column holds exactly the bookings travelling that day, in order. |
| Schedule.SumOverRangeCounts | book-xe-admin/src/pages/admin/SchedulePage.tsx:134-137 | Summing the per-day counts over consecutive days counts each booking in the span once. |
| Schedule.WeekTotalCountsWeek | book-xe-admin/src/pages/admin/SchedulePage.tsx:79-80 | The weekly total counts the bookings whose day falls in the seven days, and never exceeds the list. |
| Schedule.DayEvents | book-xe-admin/src/pages/admin/SchedulePage.tsx:264-268 | The i-th booking of a day is placed iff its hour is in 6..22, with colour i mod 5. |
| Schedule.EventsFrom | book-xe-admin/src/pages/admin/SchedulePage.tsx:264-268 | Counting from a given position, each placed event keeps its booking and gets colour (position mod 5). |
| Schedule.ColoursCycle | book-xe-admin/src/pages/admin/SchedulePage.tsx:267-268 | Colours index the five-entry palette, and five consecutive events of a day get distinct colours. |
| Layout.VisibleNav | book-xe-admin/src/components/layout/MainLayout.tsx:70-73 | The sidebar shows exactly the entries listing the role (a missing role counts as staff), in declared order. |
| Layout.AdminSeesAll | book-xe-admin/src/components/layout/MainLayout.tsx:29-48 | The admin sees all three entries. |
| Layout.OthersSeeDashboardOnly | book-xe-admin/src/components/layout/MainLayout.tsx:29-48 | Every other role, and a user without a role, sees the dashboard entry alone. |
| Layout.ActiveItem | book-xe-admin/src/components/layout/MainLayout.tsx:50-52 | The active entry is the first entry whose path starts the current path; none iff no path does. |
| Layout.ActiveItemMayBeHidden | book-xe-admin/src/components/layout/MainLayout.tsx:50-73 | On `/admin/users` the active entry is the users entry, which a staff user's sidebar does not show. |
| Layout.RoleDisplay | book-xe-admin/src/components/layout/MainLayout.tsx:116 | There is a role text iff there is a role, and it is as long as the role's name. |
| Layout.PlainRoleDisplay | book-xe-admin/src/components/layout/MainLayout.tsx:116 | The role text of `admin` and `staff` is the stored name. |
| Layout.VietManagerDisplay | book-xe-admin/src/components/layout/MainLayout.tsx:116 | The role text of `manager_viet` is "manager viet" (the page capitalises it only through CSS). |
| Layout.KoreaManagerDisplay | book-xe-admin/src/components/layout/MainLayout.tsx:116 | The role text of `manager_korea` is "manager korea". |
| Text.ReplaceFirst | book-xe-admin/src/components/layout/MainLayout.tsx:116 | `replace` with a string pattern changes only the first occurrence. The length is kept, and a text without the character is unchanged. |
| Users.FilteredUsers | book-xe-admin/src/pages/admin/UserManagementPage.tsx:71-75 | A profile is kept iff its lower-cased e-mail or full name contains the lower-cased term; an absent field never matches. Order is kept. |
| Users.EmptySearchHidesNamelessProfiles | book-xe-admin/src/pages/admin/UserManagementPage.tsx:71-75 | With an empty term, a profile is listed iff it has an e-mail or a full name. |
| Users.RoleBadge | book-xe-admin/src/pages/admin/UserManagementPage.tsx:162 | The badge reads "Admin" iff the role is admin, and "Nhân viên" for every other role. |
| Users.ChangeRole | book-xe-admin/src/pages/admin/UserManagementPage.tsx:59-62 | Only the profiles with the id get the new role; the length and every other profile are unchanged. |
| Users.HandleRoleChange | book-xe-admin/src/pages/admin/UserManagementPage.tsx:46-69 | A failed write leaves the list as it was; a successful one applies the change. |
| Users.ChangeRoleSettles | book-xe-admin/src/pages/admin/UserManagementPage.tsx:60-62 | A changed profile shows the new role's badge, and repeating the change changes nothing. |
| Users.PageNeverAssignsManagers | book-xe-admin/src/pages/admin/UserManagementPage.tsx:46-49 | No profile is ever made a manager through this page. |
| Workflow.NewBookingEntersVietQueue | book-xe-admin/src/pages/dashboard/BookingForm.tsx:155-156 | A newly submitted booking is in the viet manager's queue and in neither other approver's. |
| Workflow.VietApprovalHandsOver | book-xe-admin/src/pages/dashboard/ApprovalList.tsx:37-42 | After a committed viet approval, no row with the booking's id is in the viet queue, and each such row is in the korea queue. |
| Workflow.RejectedAtKoreaStage | book-xe-admin/src/pages/dashboard/ApprovalList.tsx:83-98 | Viet approves, then korea rejects: the row is `rejected` with the viet flag approved, the korea flag rejected and no admin flag. It is in no queue, yet a late admin approval still makes it `approved`. |
| Workflow.SubmitNoticesReach | book-xe-admin/src/pages/dashboard/BookingForm.tsx:169-182 | The stored notices reach the requester and every viet manager; a korea manager who is not the requester sees neither. |
| Workflow.LegacyPendingLivesOutsideTheStages | book-xe-admin/src/pages/admin/AllBookingsPage.tsx:311 | A `pending` row is in no queue and offers the legacy buttons. Once older than two days it raises a stuck-booking alert. |
| Workflow.StagedRowsNeverLookStuck | book-xe-admin/src/pages/admin/AlertsPage.tsx:112-119 | A staged row never offers the legacy buttons and never raises a stuck-booking alert. |
| Workflow.EmptyDateRaisesNoAlert | book-xe-admin/src/pages/admin/VehicleManagementPage.tsx:393-396 | A vehicle saved with an empty next-maintenance field raises no maintenance alert. |

## Left out

- BookingForm.NewBooking: the columns the insert leaves out (the Korean and admin flags, the approver ids, `approved_by`, `approved_at`, `updated_at`) are taken as null. Column defaults of the bookings table are not part of this model.
- Supabase I/O is left out: queries, inserts, realtime channels, the `UPDATE` re-fetch and Firebase messaging. Tables are sequences and a write's success is an input; loading flags, toasts and `alert`/`confirm` dialogs are reduced to the outcome they select.
- Authentication and session handling are left out (the auth context, login, register and router). The user is an input; a missing role is handled where the screens handle it.
- The auto-cancel hook is left out. Its expiry rule runs in a database procedure that is not part of this model, and the hook itself is only a timer.
- Date parsing, time zones and `date-fns` are left out: `differenceInDays`, `startOfWeek`, `isSameDay`, `getHours`, `getMinutes`. They enter as integers or function parameters, and an unparseable travel time is an absent timestamp.
- Overview.WeekAgo: models `setDate(getDate() - 7)` as exactly seven 24-hour days, which differs across a daylight-saving change.
- Overview.ApprovalRate: computed on exact rationals, so it does not model a floating-point quotient that lands just below or above an exact half.
- Schedule.EventStyleAt: the top offset is an exact quantity (top·60 = minutes·64), whereas the page multiplies by the double `64 / 60`; rounding of that double is not modelled.
- Layout: the CSS `capitalize` applied to the role text is rendering, not modelled.
- Unicode case folding is not modelled; the lower-casing function is a parameter of the searches.
- The texts of alerts are partly left out: messages, dates and the `Math.abs` day count shown. The title and id are modelled.
- The joined `creator_email` and joined vehicle columns of the all-bookings and schedule queries are left out; they are display only.
- Dashboard.PendingApprovals: rows with equal creation times may come back in any order from the database; the model fixes one.
- Schedule: the auto-scroll to the current hour and the current-time line are left out (display only).
- The vehicle page's delete action and its admin-only buttons are left out, since they are a plain delete and rendering.
- The fuel, maintenance, reports and master-data pages are left out, along with the presentational components, the status badge and the notification list labels. They hold no workflow rules.
