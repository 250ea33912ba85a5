# Outreach tracker: notification and schedule bookkeeping

This project models the core of a company-outreach tracker in Dafny. The tracker keeps companies and
the communications logged with them. It also keeps each company's scheduled next contact ("next
communication") and the communication methods an admin maintains. It warns about companies whose next
contact is overdue or due today.

The model covers these parts:

- **Domain** (`domain.dfy`): companies, logged communications, schedules and methods. It also holds
  order-preserving filtering (`Seqs`).
- **Notifications** (`notifications.dfy`): the notification deriver and the badge count.
  - A company's effective date is the active schedule's date if it has one.
  - Otherwise it is the company's own `nextCommunication`.
  - A date before today is overdue, and a date equal to today is due today.
- **Panels** (`panels.dfy`): the "last five" panel of recent communications, newest first.
- **ClientStore** (`store.dfy`): the client-side application store. It is a class holding these fields:
  - the companies;
  - the methods;
  - the panels, index-aligned with the companies;
  - the active schedules keyed by company;
  - the notification lists.

  Its operations take the outcome of the server call they make as a parameter.
- **Backend** (`backend.dfy`): the REST handlers over an in-memory document store. It has one map per
  collection and a counter that hands out fresh ids. Each handler returns its status (200, 201, 400 or 404).
- **Calendar** (`calendar.dfy`): the calendar's event builder, its colour rule, drag-to-reschedule and the
  reschedule modal.
- **Card** (`card.dfy`): the company card's highlight and its schedule section.
- **Dashboard** (`dashboard.dfy`): company selection, highlight muting, and the two dashboard forms.
- **BreadCrumbs** (`breadcrumbs.dfy`): the breadcrumb trail built from the path.
- **Access** (`access.dfy`): the route guards, and login and logout.
- **Header** (`header.dfy`): the header's title, active-button style, admin-area test and badge.
- **ManageCompanies** and **ManageMethods** (`admin.dfy`): the two admin forms.

Dates are day ordinals (`int`). Day strings of the form `YYYY-MM-DD` compare in the same order. Today
is always a parameter. Ids are natural numbers. A missing string is `""`, and a missing date or id is
`None`.

## Model

| member | source | states |
|---|---|---|
| Domain.FindIndex | frontend/src/context/AppContext.jsx:222 | the index found holds the first company with the id, and None means no company has it |
| Seqs.Filter | frontend/src/context/AppContext.jsx:151 | the kept elements are exactly those satisfying the test, and nothing is dropped exactly when all satisfy it |
| Seqs.FilterNoDuplicates | frontend/src/components/DashBoard.jsx:50-56 | filtering a list without duplicates yields a list without duplicates |
| Notifications.ComputeNotifications | frontend/src/context/AppContext.jsx:70-105 | the loop yields, in company order, exactly the overdue companies and exactly the companies due today |
| Notifications.SelectMembership | frontend/src/context/AppContext.jsx:76-99 | a company is in a list exactly when it is one of the companies and its notice matches the list |
| Notifications.SelectConcat | frontend/src/context/AppContext.jsx:76-99 | both lists keep the order of the companies |
| Notifications.NotificationsPartition | frontend/src/context/AppContext.jsx:76-99 | overdue and due today are disjoint, and no company is listed more often than it occurs |
| Notifications.NotificationCountIsDueCount | frontend/src/context/AppContext.jsx:351-353 | the badge count equals the number of companies whose effective date is today or earlier |
| Notifications.EffectiveDateRule | frontend/src/context/AppContext.jsx:78-98 | with an active schedule only its date decides; without one `nextCommunication` decides; with neither the company is in no list |
| Notifications.FallbackIgnoredWhileScheduled | frontend/src/context/AppContext.jsx:78-98 | while a company has an active schedule, changing its `nextCommunication` changes no list |
| Panels.Recents | frontend/src/context/AppContext.jsx:39-46 | each populated communication becomes one panel entry with its id, date, type and notes |
| Panels.Insert | frontend/src/context/AppContext.jsx:47-50 | inserting into a newest-first list keeps it newest first and adds exactly that entry |
| Panels.SortDesc | frontend/src/context/AppContext.jsx:47-50 | the sort is newest first and a permutation of its input |
| Panels.TopFiveSpec | frontend/src/context/AppContext.jsx:47-51 | the panel holds min(5, n) of the entries, newest first, and no entry left out is newer than one shown |
| Panels.LastFiveSpec | frontend/src/context/AppContext.jsx:39-52 | a company's panel has at most five entries, newest first, each from its log |
| ClientStore.WithDefaultNext | frontend/src/context/AppContext.jsx:109-131 | a missing next-communication date becomes today + 14, a supplied one is kept, and nothing else changes |
| ClientStore.PanelsOf | frontend/src/context/AppContext.jsx:39-52 | one panel per company, index-aligned, each its last five |
| ClientStore.IndexByCompanyKeepsLast | frontend/src/context/AppContext.jsx:56-59 | the schedule map has a key for exactly the scheduled companies, each filed under its own company, and the last schedule for a company wins |
| ClientStore.DropAligned | frontend/src/context/AppContext.jsx:148-155 | removing a company with its panel keeps the two lists the same length |
| ClientStore.DropAlignedKeepsPairs | frontend/src/context/AppContext.jsx:148-155 | the kept companies are those with another id, and each keeps its own panel, in order |
| ClientStore.DeleteCompanyAsWrittenMisaligns | frontend/src/context/AppContext.jsx:148-155 | as written, deleting the first company hands its panel to the next company's card |
| ClientStore.AddCompanyAsWrittenLeavesCardWithoutPanel | frontend/src/context/AppContext.jsx:109-122 | as written, after an add the refetched list is longer than the list of panels |
| ClientStore.Store.constructor | frontend/src/context/AppContext.jsx:7-18 | the store starts empty and valid |
| ClientStore.Store.LoadInitialData | frontend/src/context/AppContext.jsx:25-67 | on success it stores the companies and methods, derives every panel and indexes the schedules by company; on failure nothing changes |
| ClientStore.Store.RecomputeNotifications | frontend/src/context/AppContext.jsx:70-105 | afterwards the lists are those of the current companies and schedules |
| ClientStore.Store.GetNotificationCount | frontend/src/context/AppContext.jsx:351-353 | on fresh lists the count is the number of companies due today or earlier |
| ClientStore.Store.AddCompany | frontend/src/context/AppContext.jsx:109-122 | sends the company with its default date and takes the refetched list, with one panel per company |
| ClientStore.Store.UpdateCompany | frontend/src/context/AppContext.jsx:125-145 | sends the company with its default date and replaces it in place; the ids and their order are kept |
| ClientStore.Store.DeleteCompany | frontend/src/context/AppContext.jsx:148-155 | removes exactly the companies with the id, each with its own panel |
| ClientStore.Store.ScheduleNextCommunication | frontend/src/context/AppContext.jsx:161-197 | takes the update path when the company has a schedule and the create path otherwise; files the result under the company; every other key is unchanged |
| ClientStore.Store.CancelNextCommunication | frontend/src/context/AppContext.jsx:303-316 | without a schedule nothing is sent and nothing changes; otherwise exactly that company's key is removed |
| ClientStore.Store.LogCommunication | frontend/src/context/AppContext.jsx:200-237 | replaces the company by the server's copy and prepends the entry to its panel, cut to five |
| ClientStore.Store.UpdateLastFiveCommunicationDate | frontend/src/context/AppContext.jsx:284-300 | merges the entry into the company's panel newest first, keeping five; other panels are unchanged |
| ClientStore.Store.RemoveCommunication | frontend/src/context/AppContext.jsx:317-348 | drops only the entries with that id, only from the matching company's log and panel; the schedules are unchanged |
| ClientStore.Store.AddMethod | frontend/src/context/AppContext.jsx:240-254 | on success the methods are the refetched list |
| ClientStore.Store.UpdateMethod | frontend/src/context/AppContext.jsx:257-271 | on success the method with that id is replaced in place |
| ClientStore.Store.DeleteMethod | frontend/src/context/AppContext.jsx:274-283 | on success exactly the methods with that id are removed |
| ClientStore.WithoutCommSpec | frontend/src/context/AppContext.jsx:322-334 | removing a communication changes only the log, and drops exactly the entries with that id |
| ClientStore.ReplaceKeepsIds | frontend/src/context/AppContext.jsx:137-141 | replacing a company by a copy with the same id keeps every id in place |
| Backend.PopulateKeepsResolved | backend/index.js:163-170 | population keeps exactly the references that still resolve, in order, each communication carrying its stored company, type, date and notes |
| Backend.PopulatePresent | backend/index.js:163-170 | populating only the references that resolve shows the same log as populating them all |
| Backend.ResentLogDropsDangling | backend/index.js:211-223 | an edit that sends back the populated log replaces the stored references by those that still resolve, and the populated log is unchanged |
| Backend.PopulateAfterDelete | backend/index.js:268-276 | after a communication is deleted, its dangling reference shows in no populated company |
| Backend.InsertBySequence | backend/index.js:74-81 | inserting keeps the methods ordered by sequence, and the result is the input plus exactly that entry, as a multiset |
| Backend.Server.constructor | backend/index.js:15-61 | every collection starts empty |
| Backend.Server.CreateCompany | backend/index.js:200-208 | without a name or location: 400 and nothing stored; otherwise 201 and one new company under a fresh id |
| Backend.Server.GetCompany | backend/index.js:189-197 | 404 for an unknown id, otherwise the company with its log populated |
| Backend.Server.ListCompanies | backend/index.js:163-170 | every stored company exactly once, with its log populated |
| Backend.Server.UpdateCompany | backend/index.js:211-223 | 400 when a required field is set empty, then 404 for an unknown id; otherwise only the fields sent change, the log references included when the body carries them |
| Backend.Server.DeleteCompany | backend/index.js:226-234 | 404 for an unknown id; otherwise exactly that company goes and nothing else changes |
| Backend.Server.LogCommunication | backend/index.js:237-265 | unknown company: 404 and nothing stored; missing type or date: 400; otherwise one new id is appended to the log and `nextCommunication` is overwritten by the value sent, or cleared |
| Backend.Server.GetCommunication | backend/index.js:147-157 | 404 for an unknown id, otherwise the stored communication |
| Backend.Server.DeleteCommunication | backend/index.js:268-276 | 404 for an unknown id; otherwise the communication goes and the companies are untouched |
| Backend.Server.CreateSchedule | backend/index.js:278-286 | without company, type or date: 400; otherwise a new schedule that is not completed unless sent so, even for a company that already has one |
| Backend.Server.UpdateSchedule | backend/index.js:303-321 | 404 for an unknown id; otherwise only type and date are replaced and the schedule becomes active again |
| Backend.Server.CancelSchedule | backend/index.js:324-334 | 404 for an unknown id; otherwise exactly that schedule is removed |
| Backend.Server.ListActiveSchedules | backend/index.js:338-345 | exactly the schedules that are not completed |
| Backend.Server.ListSchedulesOf | backend/index.js:291-301 | exactly the company's schedules that are not completed |
| Backend.Server.ListMethods | backend/index.js:74-81 | every method exactly once, ordered by sequence |
| Backend.Server.CreateMethod | backend/index.js:84-92 | without a name or a sequence: 400; otherwise 201 and one new method, not mandatory unless sent so |
| Backend.Server.UpdateMethod | backend/index.js:95-107 | 400 when the name is set empty, then 404 for an unknown id; otherwise only the fields sent change |
| Backend.Server.DeleteMethod | backend/index.js:110-118 | 404 for an unknown id; otherwise exactly that method is removed |
| Calendar.HandleEventClick | frontend/src/components/CalendarView.jsx:25-34 | only an upcoming event opens the modal, prefilled with its method and day |
| Calendar.HandleRescheduleSubmit | frontend/src/components/CalendarView.jsx:36-45 | schedules the selected company with the form's method and day, then closes the modal |
| Calendar.PastEventsFollowLog | frontend/src/components/CalendarView.jsx:48-56 | past events follow the log's order and fields |
| Calendar.CompanyEventsShape | frontend/src/components/CalendarView.jsx:47-69 | per company: the log's events first, then at most one upcoming event with the schedule's type and date |
| Calendar.EventCount | frontend/src/components/CalendarView.jsx:47-69 | the number of events is the number of logged communications plus the number of scheduled companies |
| Calendar.CompanyEventsIncluded | frontend/src/components/CalendarView.jsx:47-69 | every company's events are in the calendar |
| Calendar.UpcomingEventsAreSchedules | frontend/src/components/CalendarView.jsx:58-68 | every upcoming event is a company's active schedule |
| Calendar.UpcomingColorIsNotice | frontend/src/components/CalendarView.jsx:81-96 | an upcoming event is red, yellow or blue exactly when its company is overdue, due today or neither |
| Calendar.MovedEventLands | frontend/src/components/CalendarView.jsx:70-79 | dragging an upcoming event to a day and filing the result puts its company's event on that day with the same method |
| Card.ScheduleSectionOf | frontend/src/components/CompanyCard.jsx:147-177 | "Not Scheduled" exactly without a schedule; Cancel and "Update" exactly with one; "Schedule" otherwise |
| Card.HighlightPriority | frontend/src/components/CompanyCard.jsx:21-25 | a muted card is plain; otherwise overdue wins over due today |
| Card.ListedIffNotice | frontend/src/components/CompanyCard.jsx:18-19 | with distinct ids, the membership test by id agrees with the company's own notice |
| Card.CardReflectsNotice | frontend/src/components/CompanyCard.jsx:18-25 | on fresh lists a card is red exactly when overdue and not muted, yellow exactly when due today and not muted |
| Dashboard.ToggleHighlight | frontend/src/components/DashBoard.jsx:42-47 | flips only that company's flag |
| Dashboard.ToggleHighlightTwice | frontend/src/components/DashBoard.jsx:42-47 | toggling twice restores every company's highlight |
| Dashboard.ToggleSelectionSpec | frontend/src/components/DashBoard.jsx:50-56 | the id's membership flips, every other id's is kept, and no duplicate appears |
| Dashboard.ToggleSelectionTwice | frontend/src/components/DashBoard.jsx:50-56 | toggling twice gives back the same set of ids, and the same list when the id was absent |
| Dashboard.DashboardView.constructor | frontend/src/components/DashBoard.jsx:23-38 | nothing selected or muted, modals closed, forms blank |
| Dashboard.DashboardView.ToggleHighlightOf | frontend/src/components/DashBoard.jsx:42-47 | the highlight flags become the toggled ones |
| Dashboard.DashboardView.ToggleCompanySelection | frontend/src/components/DashBoard.jsx:50-56 | the selection becomes the toggled one |
| Dashboard.DashboardView.OpenNextContact | frontend/src/components/DashBoard.jsx:188-191 | remembers the company and opens the next-contact modal |
| Dashboard.DashboardView.SubmitCommunication | frontend/src/components/DashBoard.jsx:59-96 | a future date, then a missing type or date, is refused with nothing logged; otherwise one log call per selected company, in order, each muted, then the selection and form are cleared |
| Dashboard.DashboardView.SubmitNextContact | frontend/src/components/DashBoard.jsx:99-128 | a missing type or date schedules nothing; otherwise one call with the form's values, then the form is reset |
| BreadCrumbs.Split | frontend/src/components/BreadCrumbs.jsx:5 | splitting yields at least one piece and no piece contains a slash |
| BreadCrumbs.Segments | frontend/src/components/BreadCrumbs.jsx:5 | the segments are non-empty and slash-free |
| BreadCrumbs.Label | frontend/src/components/BreadCrumbs.jsx:33 | every '-' becomes a space and every other character is kept |
| BreadCrumbs.JoinSplit | frontend/src/components/BreadCrumbs.jsx:5 | joining the pieces gives back the path |
| BreadCrumbs.SplitJoin | frontend/src/components/BreadCrumbs.jsx:11 | splitting joined slash-free parts gives back the parts |
| BreadCrumbs.RootHasNoCrumbs | frontend/src/components/BreadCrumbs.jsx:5 | "/" yields no crumbs |
| BreadCrumbs.CrumbsShape | frontend/src/components/BreadCrumbs.jsx:10-40 | only the last crumb is plain text, a separator precedes all but the first, and each is labelled by its segment |
| BreadCrumbs.RoutesExtend | frontend/src/components/BreadCrumbs.jsx:11 | each route is the previous route, a slash and the segment, so each route is a prefix of the next |
| BreadCrumbs.RouteLeadsToPrefix | frontend/src/components/BreadCrumbs.jsx:11 | following crumb i leads to a path whose segments are the first i+1 segments |
| Access.GuardsAdmitOneRole | frontend/src/components/ProtectedRoute.jsx:4-15 | each guard renders exactly its own role, no role passes both, and the empty role goes to /login |
| Access.AuthenticateExact | frontend/src/components/Login.jsx:11-25 | only the two exact username and password pairs log in |
| Access.Session.constructor | frontend/src/context/AppContext.jsx:20 | the role starts as the stored one, or empty |
| Access.Session.Login | frontend/src/components/Login.jsx:16-32 | the admin pair gives role admin, stored, at /admin; the user pair gives role user, stored, at /; anything else sets the error and keeps the role |
| Access.Session.Logout | frontend/src/components/NotificationsHeader.jsx:12-16 | clears the role and its stored copy and goes to /login, where both guards redirect |
| Header.TitleRule | frontend/src/components/NotificationsHeader.jsx:18-35 | every unknown path gets the default title, and the known paths other than "/" get distinct titles |
| Header.ActiveClassRule | frontend/src/components/NotificationsHeader.jsx:37-41 | the active style is given exactly when the path is the button's |
| Header.AdminAreaExtends | frontend/src/components/NotificationsHeader.jsx:10 | any path that continues an admin path is in the admin area too |
| Header.AdminPathPrefix | frontend/src/components/NotificationsHeader.jsx:10 | a path is in the admin area exactly when it starts with "/admin" |
| Header.AdminPaths | frontend/src/components/NotificationsHeader.jsx:10 | among the known pages, exactly the three admin pages are in the admin area |
| Header.BadgeShowsWhenDue | frontend/src/components/NotificationsHeader.jsx:175 | on fresh lists the badge shows exactly when some company is overdue or due today |
| ManageCompanies.CompanyAdmin.constructor | frontend/src/components/admin/ManageCompanies.jsx:7-19 | a blank hidden form, not editing, without error |
| ManageCompanies.CompanyAdmin.ResetForm | frontend/src/components/admin/ManageCompanies.jsx:60-73 | a blank form, not editing, hidden |
| ManageCompanies.CompanyAdmin.HandleEdit | frontend/src/components/admin/ManageCompanies.jsx:47-51 | loads the whole company, its next-communication date and populated log included, and shows the form in edit mode |
| ManageCompanies.CompanyAdmin.HandleSubmit | frontend/src/components/admin/ManageCompanies.jsx:26-45 | without a name or location only the error is set; otherwise the error clears, update is called with the whole form when editing (the loaded date and log included) and add otherwise, and the form resets |
| ManageMethods.BlankForm | frontend/src/components/admin/ManageCommunicationMethods.jsx:8-13 | a blank form, not mandatory, numbered one after the current methods |
| ManageMethods.MethodAdmin.constructor | frontend/src/components/admin/ManageCommunicationMethods.jsx:8-15 | a blank add form and no edit form |
| ManageMethods.MethodAdmin.HandleAddMethod | frontend/src/components/admin/ManageCommunicationMethods.jsx:17-22 | adds only when name and description are both filled in, then blanks the form |
| ManageMethods.MethodAdmin.StartEdit | frontend/src/components/admin/ManageCommunicationMethods.jsx:139 | the edit form shows the method |
| ManageMethods.MethodAdmin.SubmitEdit | frontend/src/components/admin/ManageCommunicationMethods.jsx:102-105 | calls update with the edited method and leaves edit mode |
| ManageMethods.MethodAdmin.CancelEdit | frontend/src/components/admin/ManageCommunicationMethods.jsx:84 | leaves edit mode without saving |

## Left out

- Network transport, the database connection, the server start-up and the error (500) paths. Client calls are modelled by their outcome: a failed call changes nothing, as the `catch` branches do.
- Malformed ids (a cast error rather than 404) are not modelled: ids are always well-formed naturals.
- The wall clock and time zones. Today is a parameter and dates are day ordinals, so the UTC truncation of `toISOString` is not modelled.
- Overlapping requests. State updaters that read a possibly stale `companies` are modelled as if each call completes before the next starts.
- The order in which the database returns documents. `Backend.Server.ListCompanies` promises every company once, in an unspecified order.
- The user-dashboard endpoint (backend/index.js:173-186) is not part of this model.
- The admin pages' delete buttons are not modelled; the store's own delete operations are. The company delete button asks `window.confirm` first, and the method delete button calls the delete directly.
- Render-only components, the routing table, local storage as a browser API, alerts and the calendar widget's formatting are not modelled. The stored role is a field of `Access.Session`, and alerts are returned as an `Outcome`.
- Panels.SortDesc: the source's sort is stable, but the model does not state the order it gives to entries with the same date. Which of two same-day entries makes the five shown is therefore not promised.
- Dashboard.ToggleSelectionTwice: toggling a selected id twice gives back the same set, not the same list. The id comes back at the end.
- ClientStore.Store.LogCommunication: the panel gets the new entry in front and is not re-sorted. A back-dated log therefore leaves the panel out of date order.
- ClientStore.Store.RemoveCommunication: requires the company to be in the list. Without it the source reads the panel at index -1 and throws.
- ClientStore.Store.ScheduleNextCommunication: requires the schedule the server returns to belong to the company that was scheduled.
- Calendar.HandleRescheduleSubmit: requires an event to be selected. The form is only reachable after a click on an upcoming event.
- ManageMethods.MethodAdmin.SubmitEdit: requires the edit form to be shown, since its button exists only then.
- Calendar.HandleEventClick: the reschedule form keeps a date, so a form whose date field was cleared is not modelled.
- Dashboard.DashboardView.SubmitCommunication: the log calls carry no next-communication date, so each log made from the dashboard clears the company's `nextCommunication` on the server (`Backend.Server.LogCommunication`). This is modelled as the code does it.

## Findings

| source | as written | input that shows it | evidently intended | confidence | as-written member | corrected member |
|---|---|---|---|---|---|---|
| frontend/src/context/AppContext.jsx:148-155 | deleteCompany filters the companies but leaves the panels as they were | delete the first of two companies: the remaining company's card (index 0) shows the deleted company's panel | remove the deleted company's panel with it, so that panels stay index-aligned | not executed | ClientStore.DeleteCompanyAsWrittenMisaligns | ClientStore.Store.DeleteCompany |
| frontend/src/context/AppContext.jsx:109-122 | addCompany replaces the companies by the refetched list but adds no panel | add a company to a list of n: there are n+1 cards and n panels, so the last card reads an undefined panel | give the refetched list one panel per company | not executed | ClientStore.AddCompanyAsWrittenLeavesCardWithoutPanel | ClientStore.Store.AddCompany |
