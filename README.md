# Helpdesk, ITAM and subscriptions: the client-side rules, verified

This project models the business rules that the helpdesk / IT asset
management / SaaS-subscriptions web client computes on its own side of the
hosted backend, and proves properties of them in Dafny:

- **Helpdesk tickets page.** The client-side ticket filter is the conjunction of status, priority, category, assignee (with the distinguished `unassigned`), case-insensitive search and an inclusive date range. The page state holds the criteria and the selected ids, with toggle and select-all.
- **Subscriptions.** The day countdown is a ceiling division of a millisecond difference by 86 400 000. On top of it:
  - the renewal windows: past due, 1–7 days, 1–30 days;
  - the dashboard's burn rate, annual cost, per-type cost and counts;
  - the upcoming-renewals list, sorted soonest first;
  - the tools, licenses and payments tables' status badges, countdown badges and expiry warnings;
  - the payments total.
- **ITAM.** Every query is scoped by the organisation when there is one, else by the profile's tenant, defaulting to tenant 1. The assets query and the active-assignments query are built step by step. The "return asset" mutation stamps one row and invalidates three cached queries.
- **Problem edit dialog.** It covers the initial form, the update record (empty optional text becomes null), and the submit handler with its success and error bookkeeping.

Modules:

- `Common` holds Option/Result and JavaScript truthiness.
- `Text`, `Seqs` and `Sorting` hold the string and array operations the screens use.
- `Renewal` and `Badges` are shared by the subscription screens.
- `Store`, `Tenancy` and `QueryCache` cover the backend table and query abstraction, scope resolution, and react-query invalidation with toasts.
- One module per screen.

Some things are modelled as inputs or simplified:

- Currency conversion is the parameter `Converter`, about which nothing is assumed. Money is `real`.
- Timestamps are integer milliseconds.
- The backend store is an in-memory sequence of rows. `Store.Select` states what a built query returns.
- Results of backend calls are method parameters: the signed-in user, the organisation and profile lookups, and a store error's message.

## Model

| member | source | states |
|---|---|---|
| Text.Lower | src/pages/helpdesk/tickets/index.tsx:47-48 | lower-casing keeps the length and maps every character on its own |
| Text.IncludesIffOccurs | src/pages/helpdesk/tickets/index.tsx:48 | `includes` holds exactly when the term occurs at some position of the text |
| Text.NatToString | src/components/Subscriptions/ToolsList.tsx:169 | a count renders as a non-empty string of decimal digits with no leading zero (it starts with "0" only for 0, which renders as "0"); with the round trip this fixes the text |
| Text.NatToStringRoundTrip | src/components/Subscriptions/ToolsList.tsx:169 | reading the rendered digits back gives the count |
| Text.IntToStringInjective | src/pages/helpdesk/tickets/index.tsx:43 | distinct category ids have distinct `toString()` forms |
| Text.SignShowsInFirstChar | src/pages/helpdesk/tickets/index.tsx:43 | the decimal form starts with '-' exactly for negative ids |
| Text.DaysLeftIsNotExpired | src/components/Subscriptions/ToolsList.tsx:169 | a "<n>d left" text never reads "Expired" |
| Sorting.SortBy | src/components/Subscriptions/SubscriptionsDashboard.tsx:53 | sorting by a numeric key yields a non-decreasing order and a permutation of the input |
| Renewal.DaysBetween | src/components/Subscriptions/ToolsList.tsx:85 | the countdown is the ceiling: (days-1)·86400000 < date-now ≤ days·86400000 |
| Renewal.DaysUntil | src/components/Subscriptions/ToolsList.tsx:83-87 | null exactly when there is no date, otherwise the ceiling countdown |
| Renewal.DaysPositiveIff | src/components/Subscriptions/ToolsList.tsx:169 | the countdown is positive exactly while the date is later than now |
| Renewal.DaysAtMostIff | src/components/Subscriptions/LicensesList.tsx:184 | countdown ≤ limit exactly when the date is at most limit days after now |
| Renewal.WithinIff | src/components/Subscriptions/SubscriptionsDashboard.tsx:43 | 0 < days ≤ limit exactly when now < date ≤ now + limit days |
| Renewal.DaysNonIncreasing | src/components/Subscriptions/ToolsList.tsx:85 | for a fixed date the countdown never increases as now advances |
| Renewal.DaysNotStrictlyDecreasing | src/components/Subscriptions/ToolsList.tsx:85 | one millisecond later the countdown can be unchanged |
| ToolsList.StatusBadge | src/components/Subscriptions/ToolsList.tsx:74-82 | active/trial/expired/cancelled map to default/secondary/destructive/outline, each variant exactly for its status; anything else is default; the text is the status |
| ToolsList.DaysUntilRenewal | src/components/Subscriptions/ToolsList.tsx:83-87 | null iff no renewal date; else the ceiling countdown, positive iff the date is ahead |
| ToolsList.ExpiringSoonIff | src/components/Subscriptions/ToolsList.tsx:154 | expiring soon iff there is a date with now < date ≤ now + 7 days |
| ToolsList.RenewalBadge | src/components/Subscriptions/ToolsList.tsx:166-170 | badge only with a date; destructive iff expiring soon, else secondary; "Expired" iff the date is not ahead, else "<days>d left" |
| LicensesList.DisplayStatus | src/components/Subscriptions/LicensesList.tsx:183 | a non-empty status shows as itself, and a missing or empty status shows as "available" |
| LicensesList.StatusBadge | src/components/Subscriptions/LicensesList.tsx:84-92 | available/assigned/expired/revoked map to secondary/default/destructive/outline, each exactly for its status; unknown is default; no status gives a secondary "available" badge |
| LicensesList.DaysUntilExpiry | src/components/Subscriptions/LicensesList.tsx:94-98 | null iff no expiry date, else the ceiling countdown |
| LicensesList.ExpiryWarning | src/components/Subscriptions/LicensesList.tsx:184-186 | shown iff there is a date at most 30 days ahead (past dates included); "Expired" iff the date is not ahead, else "<days>d left" |
| PaymentsList.Currency | src/components/Subscriptions/PaymentsList.tsx:92 | a missing or empty currency is taken as INR |
| PaymentsList.AmountInBase | src/components/Subscriptions/PaymentsList.tsx:181 | a row's amount is converted from its currency, or from INR when it has none |
| PaymentsList.TotalInBase | src/components/Subscriptions/PaymentsList.tsx:91-94 | no payments, or an empty list, total 0 |
| PaymentsList.TotalAdditive | src/components/Subscriptions/PaymentsList.tsx:91-94 | the total of two lists together is the sum of their totals |
| PaymentsList.TotalAppend | src/components/Subscriptions/PaymentsList.tsx:91-94 | one more row adds exactly its converted amount; a row without currency adds its amount converted as INR |
| PaymentsList.MissingCurrencyShowsNote | src/components/Subscriptions/PaymentsList.tsx:189 | a row without a currency is converted as INR yet still shows the original-amount note |
| PaymentsList.IntendedNoteIffConverted | src/components/Subscriptions/PaymentsList.tsx:189 | the corrected note shows exactly for rows really in another currency, and only where the written rule shows it |
| PaymentsList.DisplayStatus | src/components/Subscriptions/PaymentsList.tsx:208 | a non-empty status shows as itself, and a missing or empty status shows as "pending" |
| PaymentsList.StatusBadge | src/components/Subscriptions/PaymentsList.tsx:80-88 | paid/pending/failed/refunded map to default/secondary/destructive/outline, each exactly for its status; unknown is default; no status gives a secondary "pending" badge |
| SubscriptionsDashboard.LicenseCount | src/components/Subscriptions/SubscriptionsDashboard.tsx:33 | a missing or zero seat count is billed as 1, any other count as itself; never 0 |
| SubscriptionsDashboard.ActiveTools | src/components/Subscriptions/SubscriptionsDashboard.tsx:55 | the tools with status "active", in their order (counted with multiplicity by ActiveToolsCounts) |
| SubscriptionsDashboard.ActiveToolsCounts | src/components/Subscriptions/SubscriptionsDashboard.tsx:55 | every copy of an active tool is kept and no other tool appears, so the displayed count is the number of active rows |
| SubscriptionsDashboard.BurnRateAdditive | src/components/Subscriptions/SubscriptionsDashboard.tsx:30-36 | the burn rate of two lists together is the sum of their burn rates |
| SubscriptionsDashboard.InactiveToolCostsNothing | src/components/Subscriptions/SubscriptionsDashboard.tsx:30-36 | a tool that is not active changes nothing wherever it is inserted |
| SubscriptionsDashboard.ActiveToolAddsItsCost | src/components/Subscriptions/SubscriptionsDashboard.tsx:30-36 | an active tool adds convert(cost × seats, currency); without a seat count it adds convert(cost, currency) |
| SubscriptionsDashboard.BurnRateExample | src/components/Subscriptions/SubscriptionsDashboard.tsx:30-36 | an active USD tool with 2 seats at 10 and a trial tool give convert(20, "USD") |
| SubscriptionsDashboard.TypeToolCount | src/components/Subscriptions/SubscriptionsDashboard.tsx:209 | a cost row's tool count is the number of active tools of that type, so never more than the active tools |
| SubscriptionsDashboard.TypeCountsAddUp | src/components/Subscriptions/SubscriptionsDashboard.tsx:197-209 | when every active tool has one of the four types, the four tool counts add up to the number of active tools |
| SubscriptionsDashboard.TypeCostsAddUp | src/components/Subscriptions/SubscriptionsDashboard.tsx:197-200 | when every active tool has one of the four types, the four type costs add up to the burn rate |
| SubscriptionsDashboard.AnnualCostByType | src/components/Subscriptions/SubscriptionsDashboard.tsx:62 | the annual cost is 12 times the sum of the four type costs |
| SubscriptionsDashboard.CountsWithinTools | src/components/Subscriptions/SubscriptionsDashboard.tsx:55-69 | active and trial counts together never exceed the tools, and equal them when every tool is one or the other |
| SubscriptionsDashboard.UpcomingTools | src/components/Subscriptions/SubscriptionsDashboard.tsx:39-44 | the tools passing the upcoming test (active, dated, 1..30 days), in their original order |
| SubscriptionsDashboard.UpcomingToolsCounts | src/components/Subscriptions/SubscriptionsDashboard.tsx:39-44 | every copy of a qualifying tool is kept and no other tool appears |
| SubscriptionsDashboard.UpcomingRenewals | src/components/Subscriptions/SubscriptionsDashboard.tsx:39-53 | one entry per upcoming tool, sorted ascending by days, a permutation of the mapped upcoming tools |
| SubscriptionsDashboard.UpcomingRenewalsExact | src/components/Subscriptions/SubscriptionsDashboard.tsx:39-52 | an entry is listed iff it is the entry of an active tool renewing within 1..30 days |
| SubscriptionsDashboard.UpcomingRenewalsWindow | src/components/Subscriptions/SubscriptionsDashboard.tsx:39-53 | every listed entry shows 1..30 days and a date in (now, now + 30 days] |
| SubscriptionsDashboard.ExpiringSoon | src/components/Subscriptions/SubscriptionsDashboard.tsx:56-60 | the active dated tools renewing within 1..7 days, in their original order |
| SubscriptionsDashboard.ExpiringSoonCounts | src/components/Subscriptions/SubscriptionsDashboard.tsx:56-60 | every copy of a tool expiring soon is kept and no other tool appears, so the displayed count is the number of such rows |
| SubscriptionsDashboard.ExpiringSoonWithinUpcoming | src/components/Subscriptions/SubscriptionsDashboard.tsx:56-60 | the expiring-soon list is the upcoming tools cut down to 7 days, in order, so never longer than the upcoming list |
| SubscriptionsDashboard.TwoClockReadsListZeroDays | src/components/Subscriptions/SubscriptionsDashboard.tsx:42-50 | with the filter and the map reading the clock 1 ms apart, a tool is listed with 0 days |
| Store.Select | src/components/ITAM/AssetsList.tsx:48-60 | a query returns the rows passing all its predicates, each as often as in the table (a permutation of the filtered rows), ordered by its column |
| Store.SatisfiesSnoc | src/components/ITAM/AssetsList.tsx:56-58 | adding `.eq` keeps exactly the rows that also pass it |
| Tenancy.TenantId | src/components/ITAM/AssetsList.tsx:45 | the profile's tenant when truthy, else 1; never 0 |
| Tenancy.ResolveScope | src/components/ITAM/AssetsList.tsx:45-54 | organisation scope iff an organisation id is present; otherwise the tenant scope with a non-zero tenant |
| Tenancy.ScopedAddsOnePredicate | src/components/ITAM/AssetsList.tsx:50-54 | scoping adds exactly one scope predicate, on organisation_id or tenant_id as the scope says |
| Tenancy.ScopedKeeps | src/components/ITAM/AssetAssignmentsList.tsx:52-56 | a scoped query keeps exactly the rows of the scope |
| QueryCache.QueryClient.Invalidate | src/components/ITAM/AssetAssignmentsList.tsx:75-77 | the key is recorded and every query under it is stale; stale queries stay stale |
| AssetsList.BuildQuery | src/components/ITAM/AssetsList.tsx:30-58 | "Not authenticated" iff there is no user; else the assets query for the resolved scope and status |
| AssetsList.AssetsQueryShape | src/components/ITAM/AssetsList.tsx:45-58 | newest first, exactly one scope predicate (organisation, else tenant), a status predicate iff a status is given |
| AssetsList.AssetsQueryKeeps | src/components/ITAM/AssetsList.tsx:48-58 | an asset passes iff it is in scope and has the given status, if any |
| AssetsList.ListedAssets | src/components/ITAM/AssetsList.tsx:48-62 | the list is a permutation of the scoped assets with the status (each row as often as in the table), created_at non-increasing |
| AssetAssignmentsList.BuildQuery | src/components/ITAM/AssetAssignmentsList.tsx:24-56 | "Not authenticated" iff there is no user; else the assignments query for the resolved scope |
| AssetAssignmentsList.AssignmentsQueryShape | src/components/ITAM/AssetAssignmentsList.tsx:39-56 | assigned_at descending, a returned_at null test, exactly one scope predicate as for assets |
| AssetAssignmentsList.AssignmentsQueryKeeps | src/components/ITAM/AssetAssignmentsList.tsx:49-56 | an assignment passes iff it is in scope and not returned |
| AssetAssignmentsList.ActiveAssignments | src/components/ITAM/AssetAssignmentsList.tsx:42-60 | a permutation of the unreturned assignments of the scope (each row as often as in the table), most recently assigned first |
| AssetAssignmentsList.StampReturned | src/components/ITAM/AssetAssignmentsList.tsx:66-69 | rows with the id get returned_at = now and nothing else changes; other rows are untouched |
| AssetAssignmentsList.ReturnLeavesActiveList | src/components/ITAM/AssetAssignmentsList.tsx:66-69 | after the return the active list has the old list's rows except those of that id |
| AssetAssignmentsList.ReturnLeavesActiveCounts | src/components/ITAM/AssetAssignmentsList.tsx:66-69 | counted with multiplicity: no row of that id stays active, and every other active row is kept as often as before |
| AssetAssignmentsList.AssignmentsTable.ReturnAsset | src/components/ITAM/AssetAssignmentsList.tsx:64-81 | success: row stamped, exactly asset-assignments / itam-stats / assets invalidated, success toast; error: table and cache unchanged, error toast with the message |
| EditProblemDialog.Field | src/components/helpdesk/EditProblemDialog.tsx:23-28 | `problem?.field \|\| fallback`: the field when present and non-empty, else the fallback |
| EditProblemDialog.InitialForm | src/components/helpdesk/EditProblemDialog.tsx:22-29 | the problem's fields with "" / "medium" / "open" defaults; all defaults without a problem |
| EditProblemDialog.UpdatePayload | src/components/helpdesk/EditProblemDialog.tsx:38-46 | title, description, priority, status copied; empty root cause / workaround become null, others kept; updated_at is now |
| EditProblemDialog.ApplyUpdate | src/components/helpdesk/EditProblemDialog.tsx:36-47 | only rows with the problem's id change, taking every payload field (title, description, priority, status, root cause, workaround, updated_at) and keeping id and number |
| EditProblemDialog.UneditedSubmitNormalises | src/components/helpdesk/EditProblemDialog.tsx:22-46 | an unedited submit writes absent text back as "" (title, description) or null (root cause, workaround) and defaults priority and status |
| EditProblemDialog.UneditedSubmitIdempotent | src/components/helpdesk/EditProblemDialog.tsx:22-46 | a second unedited submit rewrites the same row except its update time |
| EditProblemDialog.ProblemDialog.constructor | src/components/helpdesk/EditProblemDialog.tsx:21-29 | the dialog opens with the initial form and not busy |
| EditProblemDialog.ProblemDialog.HandleSubmit | src/components/helpdesk/EditProblemDialog.tsx:31-67 | busy then not busy; success updates the row, invalidates helpdesk-problems, closes, success toast; store error or no problem: nothing changes but the error toast |
| Tickets.FilterTickets | src/pages/helpdesk/tickets/index.tsx:40-54 | an order-preserving subsequence holding the matching tickets; nothing before the tickets load |
| Tickets.FilterTicketsCounts | src/pages/helpdesk/tickets/index.tsx:40-54 | every copy of a matching ticket is kept and no other ticket appears |
| Tickets.MatchesIffAll | src/pages/helpdesk/tickets/index.tsx:40-54 | the early returns equal the conjunction of the six criteria |
| Tickets.NoCriteriaKeepsAll | src/pages/helpdesk/tickets/index.tsx:40-54 | with every criterion absent, null or "", the list is all tickets |
| Tickets.StatusCriterion | src/pages/helpdesk/tickets/index.tsx:41 | a status criterion keeps exactly the tickets of that status |
| Tickets.PriorityCriterion | src/pages/helpdesk/tickets/index.tsx:42 | a priority criterion keeps exactly the tickets of that priority |
| Tickets.CategoryCriterion | src/pages/helpdesk/tickets/index.tsx:43 | a category id's text keeps exactly the tickets of that category |
| Tickets.UnassignedCriterion | src/pages/helpdesk/tickets/index.tsx:44 | "unassigned" keeps exactly the tickets without an assignee |
| Tickets.AssigneeCriterion | src/pages/helpdesk/tickets/index.tsx:45 | any other assignee keeps exactly that user's tickets |
| Tickets.SearchCriterion | src/pages/helpdesk/tickets/index.tsx:46-50 | search keeps a ticket iff the lower-cased term occurs in its lower-cased title, description or number; an absent field never matches |
| Tickets.FieldIncludesIff | src/pages/helpdesk/tickets/index.tsx:48 | a field matches iff present and the term occurs in its lower-cased text |
| Tickets.DateRangeCriterion | src/pages/helpdesk/tickets/index.tsx:51-52 | the range is inclusive: only tickets created strictly outside it are dropped |
| Tickets.SearchIgnoresCase | src/pages/helpdesk/tickets/index.tsx:46-50 | "LOGIN" finds a ticket titled "Login fails" |
| Tickets.MergeMatches | src/pages/helpdesk/tickets/index.tsx:40-54 | two sets of distinct criteria together match iff both match |
| Tickets.FiltersCommute | src/pages/helpdesk/tickets/index.tsx:40-54 | filtering by any two criteria sets one after the other gives the same list in either order |
| Tickets.FilterTwice | src/pages/helpdesk/tickets/index.tsx:40-54 | filtering by one criteria set then another that sets different criteria equals filtering once by both |
| Tickets.Toggled | src/pages/helpdesk/tickets/index.tsx:72 | toggling flips the id's membership and leaves every other id as it was |
| Tickets.ToggleKeepsNoDuplicates | src/pages/helpdesk/tickets/index.tsx:72 | toggling keeps the selection free of duplicates |
| Tickets.ToggleTwice | src/pages/helpdesk/tickets/index.tsx:72 | toggling twice restores membership, and the exact selection when the id was not selected |
| Tickets.TicketsPage.SelectTicket | src/pages/helpdesk/tickets/index.tsx:71-73 | the selection becomes its toggle; filters and tickets unchanged |
| Tickets.TicketsPage.SelectAll | src/pages/helpdesk/tickets/index.tsx:74-76 | checked: exactly the listed tickets' ids, in order; unchecked: empty |
| Tickets.TicketsPage.ClearSelection | src/pages/helpdesk/tickets/index.tsx:165 | the selection becomes empty |
| Tickets.TicketsPage.SetSearch | src/pages/helpdesk/tickets/index.tsx:107 | only the search criterion changes, to the typed text |
| Tickets.TicketsPage.SetStatus | src/pages/helpdesk/tickets/index.tsx:115 | "all" clears the status criterion, any other value sets it |
| Tickets.TicketsPage.SetPriority | src/pages/helpdesk/tickets/index.tsx:132 | "all" clears the priority criterion, any other value sets it |
| Tickets.AllStatusClearsCriterion | src/pages/helpdesk/tickets/index.tsx:115 | with the status cleared a ticket is judged by the other criteria alone |

## Left out

- Backend calls are not modelled as calls: sign-in, the user, organisation and profile lookups, and the query and update requests. Their results are parameters. The server-side `.ilike` / `.or` searches of the tools, licenses and vendors screens are not part of this model, and neither are row-level security or joined columns (vendor names, asset and user names).
- `convertToINR` and `formatINR` are an arbitrary converter parameter. Their rate table and formatting are not part of this model.
- Floating point: `Number(cost)`, JavaScript division and sums use exact reals and integers, with no NaN, rounding or overflow.
- Date strings are taken as already-parsed millisecond timestamps. Invalid dates (NaN comparisons) and `format` are not modelled.
- Text.Lower maps only ASCII A–Z; full Unicode case mapping of `toLowerCase` is not modelled.
- Badges.VariantFor: the object lookup `variants[status]` is a map lookup. Inherited object keys such as "constructor" are not modelled.
- SubscriptionsDashboard.Tool: the currency is a plain string. A null currency handed to the converter is not modelled, and tools that have not loaded are treated as the empty list.
- The per-type cost rows hide themselves when their cost is 0 (`if (typeCost === 0) return null`). That is presentation and is not modelled.
- Store.Select orders non-numeric values (null, text) as 0. The backend's placement of nulls and its tie-breaking are not modelled. Ties keep the input order because the sort is stable.
- react-query refetching, caching and async timing are left out; only the invalidated keys are. The submit handler's busy flag is recorded as the sequence of values it was set to.
- EditProblemDialog.NoProblemMessage: the TypeError raised by `problem.id` on a null problem is given the browser's wording for null. Its exact text is engine-specific.
- SubscriptionsDashboard.UpcomingRenewals: the dashboard's clock is one reading `now`. The as-written list with two readings is `UpcomingRenewalsTwoClocks`; see Findings.
- Three facts about the code that a reader might expect otherwise:
  - `license_count || 1` keeps a negative count; only a missing or zero count becomes 1 (`LicenseCount`);
  - the countdown is non-increasing, not strictly decreasing (`DaysNonIncreasing`, `DaysNotStrictlyDecreasing`);
  - an empty assignee string also matches "unassigned", not only a null one (`UnassignedCriterion`).
- Presentation-only screens are not part of this model: marketing pages, navigation, routing, table colour maps, the SRM and problems pages, and the vendors list.

## Findings

| source | as written | input that shows it | evidently intended | confidence | as-written member | corrected member |
|---|---|---|---|---|---|---|
| src/components/Subscriptions/SubscriptionsDashboard.tsx:42-50 | the filter and the map each call `new Date()`, so the listed countdown is taken at a later instant than the one that passed the filter | an active tool renewing 1 ms after the filter's clock reading, with the map reading the clock 1 ms later: it is listed with 0 days left | one clock reading for the whole list, so every entry shows 1..30 days | medium, not executed | SubscriptionsDashboard.TwoClockReadsListZeroDays | SubscriptionsDashboard.UpcomingRenewalsWindow |
| src/components/Subscriptions/PaymentsList.tsx:189 | the "(amount currency)" note is shown whenever the raw currency is not exactly "INR" | a payment with no currency: it is converted as INR (line 181) but still shows the note, with an empty currency | show the note only for a payment really in another currency | medium, not executed | PaymentsList.MissingCurrencyShowsNote | PaymentsList.IntendedNoteIffConverted |
