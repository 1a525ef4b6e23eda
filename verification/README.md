# TKBM cooperative management: a Dafny model of the admin front end

This project models the logic of the TKBM cooperative management front end, a
React admin console for dock-worker cooperatives (TKBM), their PBMs (the
companies that request jobs), members, heavy equipment and invoices. It covers:

- the mock session built by `login`, and how each page reads the role from it;
- the list pages: Billing, Tenants, Jobs, Heavy Equipment, Members and PBMs.
  Each one filters by a case-insensitive search, categorical selectors, a
  period (1D/7D/30D/90D/1Y/ALL) and a region (eight provinces or ALL). Each
  also derives statistics cards from the filtered list. Billing sorts its
  list as well;
- the dashboard's activity feed filters (`filterDataByPeriod`,
  `filterDataByRegional`);
- the header: branding, the notification list, the unread badge, the two
  "mark as read" actions and `formatTimeAgo`;
- the sidebar's role menus;
- the IP whitelist and CORS origin editors of the system settings page.

Everything is pure. A record is an immutable datatype and a list is a `seq`.
A page's filtered list is a function of the records, the selected criteria,
the session and the current instant. `now`, in milliseconds since the epoch,
is a parameter in place of `new Date()`. A date string is a `DateText`:
blank, unparseable (JavaScript's Invalid Date, whose NaN fails every
comparison) or an instant. Every filtered list is proved to be an
order-preserving sub-list of its input. It holds exactly the records that
pass the page's predicate, each as often as it occurs in the input.

Module layout:

- `Wrappers`, `Text`, `Seqs`, `Sorting`: generic pieces. They cover options,
  ASCII case mapping, `includes`, decimal rendering, `filter`, sums and a
  stable insertion sort.
- `Criteria`: the period and region selectors shared by every page.
- `Model`: the entities of `src/types/index.ts`.
- `Auth`: `AuthContext.tsx`.
- One module per page or component: `Billing`, `Tenants`, `Jobs`,
  `HeavyEquipment`, `Members`, `Pbms`, `Dashboard`, `Header`, `Sidebar`,
  `Settings`.

The job search reads only the job type, the ship name and the PBM name;
`jobCode` is not searched (`Jobs.JobCodeNotSearched`).

## Model

| member | source | states |
|---|---|---|
| Model.Parse | src/pages/TenantManagement.tsx:51-53 | a date yields an instant exactly when it is parseable, and that instant is the one written; blank and garbled text both give Invalid Date |
| Text.Lower | src/pages/TenantManagement.tsx:74-77 | lower-casing keeps the length, maps each character on its own, and leaves no ASCII capital behind |
| Text.Upper | src/contexts/AuthContext.tsx:130 | upper-casing keeps the length, maps each character on its own, and leaves no ASCII small letter behind |
| Text.LowerOfUpper | src/contexts/AuthContext.tsx:130 | lower-casing the upper-cased account name gives the lower-cased account name, so the role a page reads after login is the account name in lower case |
| Text.LowerInjectiveOnUpperCase | src/contexts/AuthContext.tsx:130 | two upper-case aliases that lower-case alike are the same alias |
| Text.IncludesSpec | src/pages/TenantManagement.tsx:74-77 | the substring test succeeds exactly when the query occurs at some offset of the field |
| Text.CharQuery | src/pages/TenantManagement.tsx:74-77 | a one-character query matches a field exactly when the character occurs in it |
| Text.EmptyQueryHits | src/pages/TenantManagement.tsx:74-77 | the untrimmed empty query matches every record |
| Text.BlankQueryNeedsBlank | src/pages/TenantManagement.tsx:74-77 | a query of one space matches exactly the records with a space in some searched field, because the query is not trimmed |
| Text.MatchesIgnoresCase | src/pages/TenantManagement.tsx:74-77 | upper- or lower-casing either the query or the field never changes whether a field matches |
| Text.SearchIgnoresQueryCase | src/pages/TenantManagement.tsx:74-77 | every search box gives the same result for a query in any letter case |
| Text.ShowNat | src/components/Layout/Header.tsx:178 | a count renders as a non-empty string of digits with no leading zero |
| Text.ReadShowNat | src/components/Layout/Header.tsx:178 | the rendered digits read back as the count |
| Seqs.Filter | src/pages/TenantManagement.tsx:73-82 | `filter` keeps every element that passes, exactly as often as it occurs in the input, drops every element that fails, and keeps input order |
| Sorting.StableSort | src/pages/BillingManagement.tsx:290-303 | the sorted list is a permutation of its input |
| Sorting.SortSorted | src/pages/BillingManagement.tsx:290-303 | the sorted list is ordered by the comparator's key |
| Sorting.SortStable | src/pages/BillingManagement.tsx:290-303 | records with equal keys keep their input order, as `Array.prototype.sort` guarantees |
| Sorting.SortOfSorted | src/pages/BillingManagement.tsx:290-303 | sorting an already ordered list changes nothing |
| Sorting.SortIdempotent | src/pages/BillingManagement.tsx:290-303 | sorting twice is sorting once |
| Criteria.InPeriodMeansAge | src/pages/TenantManagement.tsx:37-54 | ALL keeps every item; otherwise an item is kept exactly when its date parses and is at most the period's number of days old; an unparseable date is never kept |
| Criteria.InPeriod | src/pages/TenantManagement.tsx:37-54 | under a bounded period an unparseable date is never kept, and a kept date is at most that many days old |
| Criteria.WiderPeriodKeeps | src/pages/TenantManagement.tsx:41-47 | an item inside a period is inside every wider period |
| Criteria.ProvinceNameInjective | src/pages/TenantManagement.tsx:56-71 | no two region codes map to the same province |
| Criteria.UnknownProvinceOnlyAll | src/pages/TenantManagement.tsx:56-71 | a province outside the table passes the region filter only under ALL |
| Criteria.RegionSelectsProvince | src/pages/TenantManagement.tsx:56-71 | a chosen region keeps exactly the items of its mapped province |
| Criteria.InRegion | src/pages/TenantManagement.tsx:56-71 | ALL admits every province, and a chosen region admits only one of the eight named provinces |
| Auth.Login | src/contexts/AuthContext.tsx:40-145 | login builds a single-role user: SUPERADMIN without a tenant; ADMIN attached to the Jakarta Utara cooperative; any other account gets its upper-cased name as alias, with a tenant only for `pbm` |
| Auth.Logout | src/contexts/AuthContext.tsx:147-150 | after logout there is no session |
| Auth.RoleAlias | src/pages/JobManagement.tsx:27 | the role is present exactly when there is a user with a role, and it is the first role's alias in lower case |
| Auth.IsSuperadmin | src/pages/JobManagement.tsx:27-28 | the pages treat a user as superadmin exactly when the first role's alias equals SUPERADMIN up to letter case |
| Auth.HeaderSuperadmin | src/components/Layout/Header.tsx:81 | the header's case-sensitive test is stricter: whoever passes it is superadmin for the pages too |
| Auth.LoginReadsAccountOnly | src/contexts/AuthContext.tsx:40-145 | the password and the device have no influence on the user built |
| Auth.LoginRole | src/contexts/AuthContext.tsx:49-136 | whatever the account, the role the pages see after login is the account name in lower case |
| Auth.LoginSuperadmin | src/contexts/AuthContext.tsx:49-136 | after login the pages treat the user as superadmin exactly when the account is "superadmin" up to case, and the header's case-sensitive test agrees for every account |
| Auth.HeaderIsCaseSensitive | src/components/Layout/Header.tsx:81 | a stored alias `SuperAdmin` is superadmin for the pages but not for the header |
| Billing.FilteredAndSorted | src/pages/BillingManagement.tsx:278-303 | the list is a rearrangement of the records that pass search, status, tenant, period and region, and holds no other record |
| Billing.SortOrder | src/pages/BillingManagement.tsx:290-303 | `oldest` orders by date ascending, `amount_high` and `amount_low` by amount, and `latest` and every other key by date descending |
| Billing.SortIsStable | src/pages/BillingManagement.tsx:290-303 | records with the same sort key appear in their input order |
| Billing.NeutralCriteriaKeepAll | src/pages/BillingManagement.tsx:278-289 | with an empty query and every selector at ALL, the list is a permutation of all records |
| Billing.SearchFieldsExactly | src/pages/BillingManagement.tsx:280-283 | the search matches on invoice number, PBM name, tenant name or job type, and on nothing else |
| Billing.WiderPeriodKeepsRecords | src/pages/BillingManagement.tsx:242-259 | widening the period never removes a record |
| Billing.RegionKeepsItsProvince | src/pages/BillingManagement.tsx:261-276 | under a chosen region every listed record belongs to a tenant of that province, whatever the viewer's role |
| Billing.StatisticsPartition | src/pages/BillingManagement.tsx:376-380 | the paid, overdue and pending amounts plus the DRAFT and CANCELLED amounts make up the total exactly |
| Billing.CardsBoundedByTotal | src/pages/BillingManagement.tsx:376-380 | with positive amounts the three money cards never exceed the total, and they reach it exactly when no DRAFT or CANCELLED record is listed |
| Billing.Statistics | src/pages/BillingManagement.tsx:376-380 | the count card is the number of listed invoices, and with non-negative amounts each money card lies between zero and the total |
| Billing.PaidPercent | src/pages/BillingManagement.tsx:806 | the paid share is 0 for a non-positive total and lies between 0 and 100 when the paid amount lies between 0 and the total |
| Tenants.FilteredTenants | src/pages/TenantManagement.tsx:73-82 | the list holds exactly the tenants that pass search, status, period and region, each as often as in the input, in input order |
| Tenants.SearchFieldsExactly | src/pages/TenantManagement.tsx:74-77 | the search matches on name, code, city or province, and on nothing else |
| Tenants.NeutralCriteriaKeepAll | src/pages/TenantManagement.tsx:73-82 | with an empty query and every selector at ALL, every tenant is listed in order |
| Tenants.WiderPeriodKeepsTenants | src/pages/TenantManagement.tsx:37-54 | widening the period only adds tenants and keeps the order of those already shown |
| Tenants.UnknownProvinceHidden | src/pages/TenantManagement.tsx:56-71 | a tenant whose province is not one of the eight is hidden under every chosen region |
| Tenants.ActiveCardMatchesActiveFilter | src/pages/TenantManagement.tsx:464 | the "active" card under status ALL equals the list size once the status filter is ACTIVE |
| Tenants.CardsBoundedByAllTenants | src/pages/TenantManagement.tsx:451-492 | with non-negative figures the member and equipment cards never exceed the totals over all tenants, and active ≤ listed ≤ all |
| Tenants.Statistics | src/pages/TenantManagement.tsx:451-492 | the total card is the number of listed tenants; the active card is at most that and is zero exactly when no listed tenant is ACTIVE; non-negative figures give non-negative sums |
| Jobs.FilteredJobs | src/pages/JobManagement.tsx:90-98 | the list holds exactly the jobs that pass search, status, period and (for a superadmin) region, each as often as in the input, in input order |
| Jobs.SearchFieldsExactly | src/pages/JobManagement.tsx:91-93 | the search matches on job type, ship name or PBM name, and on nothing else |
| Jobs.JobCodeNotSearched | src/pages/JobManagement.tsx:91-93 | changing a job's code or port never changes whether it is listed |
| Jobs.RegionIgnoredBelowSuperadmin | src/pages/JobManagement.tsx:96 | for a viewer who is not a superadmin, the region selector has no effect on the list |
| Jobs.SuperadminRegionKeepsProvince | src/pages/JobManagement.tsx:59-74 | for a superadmin with a chosen region, every listed job belongs to a tenant of that province |
| Jobs.WiderPeriodKeepsJobs | src/pages/JobManagement.tsx:40-57 | widening the period only adds jobs and keeps the order |
| Jobs.OfferedActions | src/pages/JobManagement.tsx:166-203 | View is always offered; Approve and Reject are offered exactly to a superadmin or admin on a PENDING job; Assign exactly to them on an APPROVED job |
| Jobs.ActionsAgreeAcrossLayouts | src/pages/JobManagement.tsx:266-299 | the grid, table and card layouts offer the same actions; Approve and Assign never appear together; other statuses offer only View |
| Jobs.LoginCapabilities | src/pages/JobManagement.tsx:111-112 | after login a user can manage jobs exactly when the account is superadmin or admin up to case, and create them exactly when it can manage or is pbm; no session can do neither |
| Jobs.CanManageJobs | src/pages/JobManagement.tsx:111 | no session can manage jobs, and neither can the pbm role |
| Jobs.CanCreateJobs | src/pages/JobManagement.tsx:112 | no session can create jobs, and every role that can manage jobs can create them |
| HeavyEquipment.FallbackIsNewYear2024 | src/pages/HeavyEquipment.tsx:140 | the fallback date is midnight UTC on 1 January 2024 |
| HeavyEquipment.PeriodDate | src/pages/HeavyEquipment.tsx:126-143 | a unit whose first image has a non-empty upload time is dated by it; a unit without images, or whose first image's time is blank, gets the fallback date; the date is invalid exactly when that upload time is garbled |
| HeavyEquipment.FilteredEquipment | src/pages/HeavyEquipment.tsx:162-173 | the list holds exactly the units that pass search, status, category, tenant scope, activity, period and (for a superadmin) region, each as often as in the input, in order |
| HeavyEquipment.SearchFieldsExactly | src/pages/HeavyEquipment.tsx:163-166 | the search matches on name, inventory number, brand or model, and on nothing else |
| HeavyEquipment.ViewerScope | src/pages/HeavyEquipment.tsx:169-172 | only active units are listed; below superadmin only units of the viewer's cooperative are listed, and none for a viewer without one |
| HeavyEquipment.RegionIgnoredBelowSuperadmin | src/pages/HeavyEquipment.tsx:145-160 | for a viewer who is not a superadmin, the region selector has no effect |
| HeavyEquipment.UndatedUnitsUseFallback | src/pages/HeavyEquipment.tsx:140 | a unit without a dated first image is in a period exactly when the fallback date is |
| HeavyEquipment.WiderPeriodKeepsUnits | src/pages/HeavyEquipment.tsx:126-143 | widening the period only adds units and keeps the order |
| HeavyEquipment.StatusCardsPartition | src/pages/HeavyEquipment.tsx:235-238 | the available, in-use and maintenance cards plus the out-of-service units make up the total, so the cards equal the total exactly when none is out of service |
| HeavyEquipment.Statistics | src/pages/HeavyEquipment.tsx:235-238 | the total card is the number of listed units, and each status card is zero exactly when no listed unit has that status |
| HeavyEquipment.OfferedActions | src/pages/HeavyEquipment.tsx:297-320 | details and edit are always offered; maintenance scheduling exactly for an AVAILABLE unit |
| HeavyEquipment.MaintenanceButtonsMatchAvailableCard | src/pages/HeavyEquipment.tsx:306 | the number of units offering maintenance scheduling equals the "available" card |
| Members.FilteredMembers | src/pages/Members.tsx:74-82 | the list holds exactly the active members that pass search, position, period and (for a superadmin) region, each as often as in the input, in order |
| Members.SearchFieldsExactly | src/pages/Members.tsx:75-77 | the search matches on full name, member number or email, and on nothing else |
| Members.InactiveNeverListed | src/pages/Members.tsx:81 | an inactive member is never listed, whatever the criteria |
| Members.RegionIgnoredBelowSuperadmin | src/pages/Members.tsx:57-72 | for a viewer who is not a superadmin, the region selector has no effect |
| Members.WiderPeriodKeepsMembers | src/pages/Members.tsx:38-55 | widening the period only adds members and keeps the order |
| Members.PositionCardsPartition | src/pages/Members.tsx:392-422 | team leaders plus workers equal the total card |
| Members.PositionFilterMatchesCard | src/pages/Members.tsx:408-422 | each position card under ALL equals the list size once the position filter selects that position |
| Members.Statistics | src/pages/Members.tsx:392-422 | the total card is the number of listed members, and each position card is zero exactly when no listed member holds that position |
| Pbms.FilteredPbms | src/pages/PBMManagement.tsx:178-190 | the list holds exactly the PBMs that pass search, activity, tenant, period and (for a superadmin) region, each as often as in the input, in order |
| Pbms.SearchFieldsExactly | src/pages/PBMManagement.tsx:179-182 | the search matches on name, email, PIC name or tenant name, and on nothing else |
| Pbms.ActivityFilterMeaning | src/pages/PBMManagement.tsx:183-185 | "active" lists only active PBMs, "inactive" only inactive ones, and a PBM listed under ALL is listed under "active" exactly when it is active |
| Pbms.RegionIgnoredBelowSuperadmin | src/pages/PBMManagement.tsx:161-176 | for a viewer who is not a superadmin, the region selector has no effect |
| Pbms.WiderPeriodKeepsPbms | src/pages/PBMManagement.tsx:142-159 | widening the period only adds PBMs and keeps the order |
| Pbms.StatisticsCards | src/pages/PBMManagement.tsx:212-215 | active plus inactive equals the total card; the jobs card counts every job whatever the criteria |
| Pbms.ActivityFilterMatchesCards | src/pages/PBMManagement.tsx:212-215 | the active and inactive cards under ALL equal the list sizes under the matching activity filter |
| Pbms.Statistics | src/pages/PBMManagement.tsx:212-215 | the total card is the number of listed PBMs, the jobs card the number of all jobs, and the active or inactive card is zero exactly when no listed PBM is active or inactive |
| Pbms.PbmJobs | src/pages/PBMManagement.tsx:218-220 | a PBM's jobs are exactly the jobs requested by it, each as often as in the job list, in order |
| Pbms.PbmJobsDisjoint | src/pages/PBMManagement.tsx:218-220 | two different PBMs share no job, and together hold at most all jobs |
| Pbms.SummaryBounded | src/pages/PBMManagement.tsx:822-843 | the completed and in-progress counts of a PBM never exceed its total together |
| Pbms.Summary | src/pages/PBMManagement.tsx:822-843 | the completed and in-progress counts are each at most the PBM's job count, which is at most all jobs and is zero exactly when no job names that PBM |
| Dashboard.FilterDataByPeriod | src/pages/Dashboard.tsx:66-85 | ALL returns the input itself; otherwise exactly the records inside the period, each as often as in the input, in order |
| Dashboard.FilterDataByRegional | src/pages/Dashboard.tsx:87-107 | ALL returns the input itself; otherwise exactly the records the regional test admits, each as often as in the input, in order |
| Dashboard.Activities | src/pages/Dashboard.tsx:113-116 | the feed keeps input order, holds only records inside the period, and for a superadmin only records the regional test admits |
| Dashboard.ActivitiesMeaning | src/pages/Dashboard.tsx:113-116 | the feed holds exactly the records in the period that, for a superadmin, also pass the region, each as often as in the input, in order |
| Dashboard.FiltersCommute | src/pages/Dashboard.tsx:113-116 | applying the period and region filters in either order gives the same feed |
| Dashboard.RegionalPrecedence | src/pages/Dashboard.tsx:101-106 | a record with a tenant is placed by the tenant's province alone; one with neither tenant nor province always passes |
| Dashboard.RegionIgnoredBelowSuperadmin | src/pages/Dashboard.tsx:405 | for a viewer who is not a superadmin, the region selector has no effect on the feed |
| Dashboard.WiderPeriodKeepsActivities | src/pages/Dashboard.tsx:66-85 | widening the period only adds records and keeps the order |
| Header.Brand | src/components/Layout/Header.tsx:150-155 | a case-sensitive SUPERADMIN sees the national brand; anyone else sees their cooperative's name, or "TKBM Cooperative" when it is missing or empty |
| Header.LoginBrand | src/components/Layout/Header.tsx:150-155 | after login, superadmin is branded nationally, admin and pbm with the Jakarta Utara cooperative, and every other account generically |
| Header.MarkAsRead | src/components/Layout/Header.tsx:84-92 | the notifications with that id become read, and nothing else changes |
| Header.UnreadCount | src/components/Layout/Header.tsx:82 | the unread count is at most the number of notifications, and zero exactly when every notification is read |
| Header.MarkAsReadCount | src/components/Layout/Header.tsx:82-92 | the unread count drops by exactly the number of unread notifications with that id |
| Header.MarkAsReadIdempotent | src/components/Layout/Header.tsx:84-92 | marking the same id twice is marking it once |
| Header.MarkAllAsRead | src/components/Layout/Header.tsx:94-98 | every notification becomes read, and nothing else changes |
| Header.MarkAllClears | src/components/Layout/Header.tsx:94-98 | after "mark all" nothing is unread, and marking one id beforehand makes no difference |
| Header.Badge | src/components/Layout/Header.tsx:176-180 | the badge is hidden exactly when nothing is unread, reads "9+" exactly beyond nine, and is one digit otherwise |
| Header.BadgeReadsBack | src/components/Layout/Header.tsx:176-180 | a one-digit badge reads back as the unread count |
| Header.AgeOf | src/components/Layout/Header.tsx:126-139 | the age falls in exactly one of under a minute, minutes, hours, days or NaN; each count is the whole number of units elapsed, within its bucket's range |
| Header.FormatTimeAgo | src/components/Layout/Header.tsx:126-139 | "Baru saja" is shown exactly for an age under a minute, including future instants; otherwise the text is the whole number of minutes, hours or days that `AgeOf` counts followed by "menit", "jam" or "hari yang lalu"; an unparseable timestamp shows "NaN hari yang lalu" |
| Sidebar.MenuItems | src/components/Layout/Sidebar.tsx:26-89 | the dashboard always comes first; the superadmin, admin, pbm, teamleader and worker menus have 9, 10, 4, 5 and 4 entries; any other role gets only the dashboard |
| Sidebar.SuperadminPathsDistinct | src/components/Layout/Sidebar.tsx:31-43 | no two superadmin entries lead to the same path |
| Sidebar.AdminPathsDistinct | src/components/Layout/Sidebar.tsx:45-58 | no two admin entries lead to the same path |
| Sidebar.StaffPathsDistinct | src/components/Layout/Sidebar.tsx:60-86 | no two pbm, teamleader or worker entries lead to the same path |
| Sidebar.MenuPathsDistinct | src/components/Layout/Sidebar.tsx:26-89 | no role's menu leads to the same path twice |
| Sidebar.MenuAccess | src/components/Layout/Sidebar.tsx:26-89 | tenant management and system settings are offered exactly to a superadmin, and jobs exactly to the five known roles |
| Sidebar.LoginMenu | src/components/Layout/Sidebar.tsx:24 | after login the menu is the one of the lower-cased account name, and it offers settings exactly to a superadmin |
| Settings.AddEntry | src/pages/SystemSettings.tsx:176-187 | an accepted entry is appended and nothing else changes; an empty or duplicate entry leaves the list unchanged; a duplicate-free list stays duplicate-free |
| Settings.RemoveEntry | src/pages/SystemSettings.tsx:189-197 | every copy of the entry is dropped, and every other entry keeps all its copies, in order |
| Settings.AddIpAddress | src/pages/SystemSettings.tsx:176-187 | the whitelist gets the typed address when accepted, and the input is cleared then; the rest of the configuration and the origin input are untouched |
| Settings.RemoveIpAddress | src/pages/SystemSettings.tsx:189-197 | only the whitelist changes, losing that address |
| Settings.AddOrigin | src/pages/SystemSettings.tsx:199-210 | the origin list gets the typed origin when accepted, and the input is cleared then; everything else is untouched |
| Settings.RemoveOrigin | src/pages/SystemSettings.tsx:212-220 | only the origin list changes, losing that origin |
| Settings.AddThenRemoveRestores | src/pages/SystemSettings.tsx:176-197 | removing an address that was just accepted restores the configuration |
| Settings.EditorsSettle | src/pages/SystemSettings.tsx:176-197 | removing twice is removing once, and pressing add a second time changes nothing |
| Settings.EditsKeepListsDuplicateFree | src/pages/SystemSettings.tsx:176-220 | whatever sequence of typing, adding and removing, neither list ever holds a duplicate |
| Settings.InitialListsDuplicateFree | src/pages/SystemSettings.tsx:85-136 | the starting configuration's lists hold no duplicates |

## Left out

- Rendering: JSX, icons, modals, and the card/grid/table markup beyond the buttons each layout offers.
- Number formatting: `toFixed`, `toLocaleString` and currency display. `Billing.PaidPercent` is a real-valued share and is not rounded to one decimal.
- The PBM active-percentage card (`src/pages/PBMManagement.tsx:660`): floating-point display only.
- Billing.FilteredAndSorted: an unparseable `updatedAt` sorts as the epoch. In the source the comparator then returns NaN, so the order it produces is engine-defined.
- Billing.SortOrder: the orders hold with unparseable dates read as the epoch, for the same reason.
- Billing.StatisticsPartition: amounts are whole rupiah modelled as `int`. The source holds them as JavaScript doubles; fractional amounts, or sums beyond 2^53 where double addition rounds, are not modelled. The same applies to `Billing.CardsBoundedByTotal` and `Billing.Statistics`.
- I/O and timing: the clock (`now` is a parameter), `localStorage`, `setTimeout`, the asynchronous login delay and network calls.
- The mock fixtures (dashboard statistics, extra equipment and PBMs, notifications) are inputs, not constants. The settings page's starting configuration is the one fixture kept.
- Case mapping covers ASCII only. JavaScript's full Unicode `toLowerCase`/`toUpperCase` is not modelled.
- Auth.Login: `tenantMap` is modelled as holding `pbm` only. The source's object lookup would also hit inherited keys such as `constructor`, giving a non-tenant value.
- JavaScript's `Date` range limit (±8.64e15 ms) is not modelled; every instant is an integer.
- Fields the core does not read are dropped from the entity datatypes.
- Unused login fields: the password and device are carried but never read.
- The header's "mark all" button and "n unread" line share the badge's `unreadCount > 0` condition, so they are covered by `Header.Badge`.
- `handleSave`, backup, restore and the remaining settings inputs are left out: they only set fields or show alerts.
- `NationalReports.tsx`, the login form and the router are not part of this model.
