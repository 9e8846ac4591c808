# Food-distribution dashboard: business rules in Dafny

This project models the business-rule core of a React dashboard. The dashboard
plans and records the daily distribution of food to mosques. The modelled parts
are these:

- **Access control.** The permission-to-route table, the route guard every
  dashboard page sits behind, and the authentication context. The context keeps
  the signed-in user and their permissions in browser storage across reloads.
- **Quantity rules.** The Day Requirements page scales a recipe's per-item
  quantities by a rounded-up multiplier. The day-requirement report groups
  those items by category and sorts them. The Food Allocation page carries the
  remaining available quantity from one allocation to the next.
- **Date ranges and duplicates.** Requirement, schedule and delivery forms
  expand date ranges, refuse what is already stored, and reset after saving.
- **Validators and row editors** of the item, material-receipt, user-rights,
  supplier, recipe and module-master forms.
- **Shared string helpers** (`src/lib/utils.ts`).

How the source takes each form:

- Pure code becomes datatypes, functions and lemmas.
- Each page or form whose state changes step by step becomes a `class`. Its
  fields are the component's state, and its methods are the handlers and
  effects, with `modifies` clauses.
- Four of the source's loops are Dafny loops with invariants: the `for` loops
  in Permissions.BuildAllowedRoutes and DayReqReport.GroupByCategory, and the
  nested `while` loops in DayRequirements.IssueRow/IssueRequests, which stop
  at the first failure.
- Four other loops are written as functions:
  - the duplicate search of the `for` loop at ScheduleFormFields.tsx:119-129
    is part of Schedule.PlanSchedule;
  - the `forEach` append at ScheduleFormFields.tsx:147 is the sequence
    extension in Schedule.AppendCreated;
  - the `forEach` that adds names at ItemFormFields.tsx:127 is a set union in
    ItemForm.ItemBatchForm.Saved;
  - the `forEach` over categories at generateDayReqPdf.ts:79 is the recursive
    DayReqReport.SectionsOf.

Conventions:

- Every REST answer, every clock reading and every `JSON.parse` / `JSON.stringify`
  is a parameter of the member that uses it.
- A request that throws is `None` or a `Threw` constructor.
- A calendar day is an `int` (days since 1970-01-01). `Calendar.IsoDate` renders a
  day as "yyyy-MM-dd".
- Quantities are `real`. JavaScript's `Number(s)` is `Option<real>`, where `None`
  stands for NaN, so the idioms `Number(x) || 0` and `Number(x) || 1` are
  `Quantities.OrZero` and `Quantities.OrOne`.
- `String(n)` of an integer is `Calendar.Padded(n, 0)`.

Modules:

| file | models |
|---|---|
| permissions.dfy | src/lib/permissions.ts |
| routeguard.dfy | src/components/ProtectedRoute.tsx |
| auth.dfy | src/contexts/AuthContext.tsx |
| quantities.dfy, dayrequirements.dfy | src/pages/DayRequirementsPage.tsx |
| dayreqreport.dfy | src/lib/generateDayReqPdf.ts |
| foodallocation.dfy | src/pages/FoodAllocationPage.tsx |
| requirements.dfy | src/components/forms/RequirementFormFields.tsx |
| schedule.dfy | src/components/forms/ScheduleFormFields.tsx |
| delivery.dfy | src/pages/DeliveryPage.tsx |
| itemform.dfy | src/components/forms/ItemFormFields.tsx |
| materialreceipt.dfy | src/pages/MaterialReceiptPage.tsx |
| userrights.dfy | src/pages/UserRightsPage.tsx |
| supplier.dfy | src/components/forms/SupplierFormFields.tsx |
| recipe.dfy | src/components/forms/RecipeFormFields.tsx |
| modulemaster.dfy | src/pages/ModuleMasterPage.tsx |
| textutils.dfy | src/lib/utils.ts |
| wrappers, text, seqs, sorting, numbers, calendar, responses | shared helpers: Option/Result; ASCII characters, `toLowerCase`, `trim`, `split`/`join`; filter, sum and cross product; string order and a stable sort; `Number`/`parseFloat`; days to dates; the `status`/`message` envelope of the REST answers |

## Model

| member | source | states |
|---|---|---|
| Permissions.BuildAllowedRoutes | src/lib/permissions.ts:54-67 | the loop over the permissions returns exactly the home route plus the route of every permission whose lower-cased "module:sub_module" key is in the table |
| Permissions.AllowedRoutes | src/lib/permissions.ts:54-67 | the home route plus the route of every permission whose key is in the table; its members are characterised by AllowedRoutesMembers |
| Permissions.AllowedRoutesMembers | src/lib/permissions.ts:54-67 | a route is allowed iff it is "/dashboard" or some permission's key maps to it |
| Permissions.RouteAllowedByPermissions | src/lib/permissions.ts:72-75 | isRouteAllowed over the built set holds iff the path is home or the route of some permission |
| Permissions.IsRouteAllowed | src/lib/permissions.ts:72-75 | the home route is always allowed, any other path only when it is in the set |
| Permissions.AllowedRoutesInTable | src/lib/permissions.ts:12-48 | nothing outside home and the table's routes is ever allowed |
| Permissions.NoPermissions | src/lib/permissions.ts:55 | with no permissions only the home route is allowed |
| Permissions.AllowedRoutesMonotone | src/lib/permissions.ts:57-64 | more permissions never remove a route |
| Permissions.AllowedRoutesOrderFree | src/lib/permissions.ts:57-64 | the order and repetition of permissions do not matter |
| Permissions.RouteIgnoresCase | src/lib/permissions.ts:58-60 | lower-casing module and sub-module ids does not change the route granted |
| Permissions.KeyOfLowerCase | src/lib/permissions.ts:58-60 | for ids without upper-case letters the key is "module:sub" exactly |
| Permissions.StandaloneModules | src/lib/permissions.ts:29-33 | packing, cooking and view_media grant their page with an empty sub-module id and with a sub-module id equal to the module's |
| Permissions.GrantedMembers | src/lib/permissions.ts:62-63 | the routes collected by the loop are exactly the values the lookup finds for some permission |
| RouteGuard.Guard | src/components/ProtectedRoute.tsx:9-30 | spinner while loading; redirect to /auth when signed out; otherwise the page renders iff the path is allowed, else redirect to /dashboard |
| RouteGuard.GuardByPermissions | src/components/ProtectedRoute.tsx:24-30 | a signed-in user sees a page iff it is home or granted by one of their permissions; otherwise they are sent home |
| RouteGuard.NoRedirectLoop | src/components/ProtectedRoute.tsx:24-28 | the guard never redirects /dashboard to /dashboard |
| Auth.AuthContext.constructor | src/contexts/AuthContext.tsx:21-24 | no user, no permissions, only the home route, loading |
| Auth.AuthContext.Restore | src/contexts/AuthContext.tsx:26-43 | the saved session and permissions are restored; a session that fails to parse removes both keys; permissions that fail to parse remove both keys but leave the user set; loading ends; the allowed routes stay those of the permissions |
| Auth.AuthContext.Login | src/contexts/AuthContext.tsx:45-61 | the user is set and saved; the permissions come from `data`, else the bare array, else none, and are saved; a failed fetch leaves only home allowed and the old saved permissions in storage |
| Auth.AuthContext.Logout | src/contexts/AuthContext.tsx:63-69 | signed out, no permissions, only home allowed, both keys removed |
| Auth.ReloadAfterLogin | src/contexts/AuthContext.tsx:26-61 | a reload after a successful login restores the same user, permissions and routes |
| Auth.ReloadAfterLogout | src/contexts/AuthContext.tsx:26-43 | a reload after logout starts signed out with only home allowed |
| Auth.ReloadAfterFailedLogin | src/contexts/AuthContext.tsx:45-61 | after a login whose permission fetch fails, only home is allowed live, but a reload grants the permissions an earlier login left in storage |
| Quantities.OrOne | src/lib/generateDayReqPdf.ts:36 | `Number(x) \|\| 1` is never 0 and keeps any non-zero number |
| Quantities.Ceil | src/pages/DayRequirementsPage.tsx:279 | Math.ceil: the least integer not below its argument |
| Quantities.Multiplier | src/pages/DayRequirementsPage.tsx:274-279 | 0 for a non-positive package count; otherwise the least m with m × totpkt ≥ total |
| Quantities.MultiplierUnique | src/pages/DayRequirementsPage.tsx:274-279 | that m is the only integer with those two bounds |
| Quantities.LineQty | src/pages/DayRequirementsPage.tsx:334 | an item's per-unit quantity, 0 when not numeric, times the rounded-up multiplier, with no further rounding |
| DayRequirements.PickRetailDate | src/pages/DayRequirementsPage.tsx:207-215 | a date is refused iff some saved header has it as its date part; otherwise it is looked up |
| DayRequirements.SavedDayIsUsed | src/pages/DayRequirementsPage.tsx:170-173 | once a header for a day is saved and listed, that day counts as used |
| DayRequirements.IsDateAlreadyUsed | src/pages/DayRequirementsPage.tsx:170-173 | a day is used iff some saved header's date part is that day's "yyyy-MM-dd" text |
| DayRequirements.RecipeRows | src/pages/DayRequirementsPage.tsx:228-232 | one row per recipe, in order, each with that recipe's trimmed type, its code, and the requirement at its index as `Number(x) || 0` (0 past the array's end) |
| DayRequirements.DailyTotalOfRows | src/pages/DayRequirementsPage.tsx:239 | the daily total is the sum of the listed recipes' requirements plus the extra entries of the requirement array |
| DayRequirements.DailyTotal | src/pages/DayRequirementsPage.tsx:239 | the sum over the whole requirement array, non-numeric entries counting 0; DailyTotalOfRows relates it to the recipe rows |
| DayRequirements.RetailMultiplier | src/pages/DayRequirementsPage.tsx:261-292 | 0 without a recipe or when the fetch throws; unchanged when the answer has no data; otherwise the rounded-up total over the package count, 0 when the count is not positive |
| DayRequirements.ItemNamesMembers | src/pages/DayRequirementsPage.tsx:309 | the selection after loading holds exactly the loaded item names |
| DayRequirements.ItemNamesCount | src/pages/DayRequirementsPage.tsx:309 | it has as many names as items iff no two items share a name |
| DayRequirements.ToggleItemSelection | src/pages/DayRequirementsPage.tsx:322-327 | exactly the toggled name changes membership |
| DayRequirements.ToggleItemSelectionInvolution | src/pages/DayRequirementsPage.tsx:322-327 | toggling a name twice restores the selection |
| DayRequirements.ToggleAllWithDistinctNames | src/pages/DayRequirementsPage.tsx:329-332 | with distinct names, "select all" clears a full selection, fills an empty one, and twice gives back the full one |
| DayRequirements.ToggleAllWithRepeatedName | src/pages/DayRequirementsPage.tsx:329-332 | with a repeated name, "select all" on the loaded selection leaves it as it is: the count check never sees it as full |
| DayRequirements.ToggleAllItems | src/pages/DayRequirementsPage.tsx:329-332 | empty when the selection's size equals the item count, otherwise every item's name; the two toggle lemmas above state its effect |
| DayRequirements.SelectedItemsTotal | src/pages/DayRequirementsPage.tsx:336-338 | the sum of the line quantities of the selected items, in list order; RetailLinesAddUp ties it to the posted lines |
| DayRequirements.LoadedSelectionCoversAll | src/pages/DayRequirementsPage.tsx:309-338 | right after loading every item counts toward the selected total |
| DayRequirements.FindRecipe | src/pages/DayRequirementsPage.tsx:258 | none iff no row has the code; otherwise the first row with that code |
| DayRequirements.RetailSubmit | src/pages/DayRequirementsPage.tsx:340-375 | refused iff date, recipe code, its recipe or a selected item is missing; otherwise the header for that day, recipe type and code, total and creator, and one line per selected item, in list order, each carrying the date, recipe code, item name, category, unit, creator and its quantity times the multiplier |
| DayRequirements.RetailLinesAddUp | src/pages/DayRequirementsPage.tsx:334-375 | the posted line quantities add up to the selected total the dialog shows |
| DayRequirements.BulkRequestsShape | src/pages/DayRequirementsPage.tsx:431-449 | one request per item and day; request i·days+j is item i on day j with the item's name, code, category, unit and quantity, purchase type "Bulk" and the creator |
| DayRequirements.BulkRequests | src/pages/DayRequirementsPage.tsx:436-449 | item-major, one request per item and day; its layout is stated by BulkRequestsShape |
| DayRequirements.BulkTotalDaysCounts | src/pages/DayRequirementsPage.tsx:119-121 | for ordered dates the day count shown equals the number of days expanded, so it counts the requests per item |
| DayRequirements.IssueRow | src/pages/DayRequirementsPage.tsx:437-448 | the inner loop issues the item's requests in date order, stopping right after the one that fails |
| DayRequirements.IssueRequests | src/pages/DayRequirementsPage.tsx:436-449 | the nested loops issue every request item by item unless one fails, and then exactly the requests up to and including the failing one |
| DayRequirements.BulkDialog.constructor | src/pages/DayRequirementsPage.tsx:112-117 | no dates, no items, lock free |
| DayRequirements.BulkDialog.PickFrom | src/pages/DayRequirementsPage.tsx:727-729 | a "from" date after the "to" date clears the "to" date, so the dates stay ordered |
| DayRequirements.BulkDialog.PickTo | src/pages/DayRequirementsPage.tsx:754-755 | the "to" picker accepts no day before "from"; the dates stay ordered |
| DayRequirements.BulkDialog.LoadItems | src/pages/DayRequirementsPage.tsx:393-419 | no items until both dates are chosen; a successful answer replaces them |
| DayRequirements.BulkDialog.Begin | src/pages/DayRequirementsPage.tsx:421-433 | called with the dates ordered, as PickFrom and PickTo keep them; ignored while locked; refused without both dates or items; otherwise takes the lock and fixes the batch of items and days |
| DayRequirements.BulkDialog.Run | src/pages/DayRequirementsPage.tsx:430-462 | sends all requests in order or stops after the failing one; on success the dialog is reset; the lock is always released |
| DayReqReport.ReportTotpkt | src/lib/generateDayReqPdf.ts:34-37 | the package count is the fetched one when it is numeric and non-zero, else 1 |
| DayReqReport.ReportMultiplier | src/lib/generateDayReqPdf.ts:39-41 | the least m with m × totpkt ≥ total for a positive count, 0 for a negative one |
| DayReqReport.MultiplierWithoutCount | src/lib/generateDayReqPdf.ts:34-41 | without a usable count the multiplier is the total rounded up |
| DayReqReport.RawDate | src/lib/generateDayReqPdf.ts:51 | the date part, or the whole text when that part is empty |
| DayReqReport.ReportDateOfStamp | src/lib/generateDayReqPdf.ts:18-22 | a stored "yyyy-MM-ddThh:mm:ss" is shown as "dd-MM-yyyy" |
| DayReqReport.CategoryOf | src/lib/generateDayReqPdf.ts:46 | never empty; the item's own category when it has one ("Other" otherwise) |
| DayReqReport.CategoriesMembers | src/lib/generateDayReqPdf.ts:43-49 | the report's categories are exactly those of the items |
| DayReqReport.Categories | src/lib/generateDayReqPdf.ts:43-49 | the set of the items' categories, "Other" standing for none; CategoriesMembers states it exactly |
| DayReqReport.PickMembers | src/lib/generateDayReqPdf.ts:43-49 | an item is in a category group iff it is listed with that category |
| DayReqReport.Pick | src/lib/generateDayReqPdf.ts:43-49 | the items, in list order, whose category is among the given ones: a category's group of the grouping loop |
| DayReqReport.PickSplit | src/lib/generateDayReqPdf.ts:43-49 | picking two disjoint category sets together splits into the two picks |
| DayReqReport.PickAll | src/lib/generateDayReqPdf.ts:43-49 | picking all categories keeps every item |
| DayReqReport.GroupedAll | src/lib/generateDayReqPdf.ts:43-49 | the loop invariant over the whole list gives the grouping's final facts: keys are the categories, each holding its items in order, listed once |
| DayReqReport.GroupByCategory | src/lib/generateDayReqPdf.ts:43-49 | the grouping loop maps each occurring category, and only those, to its items in list order |
| DayReqReport.SectionRows | src/lib/generateDayReqPdf.ts:80-96 | one row per item of the category |
| DayReqReport.SectionRowsSorted | src/lib/generateDayReqPdf.ts:80-96 | rows in item-name order, each with the item's quantity times the multiplier |
| DayReqReport.SectionsOf | src/lib/generateDayReqPdf.ts:77-96 | one section per name, in that order, with the sorted rows of its group |
| DayReqReport.SectionsOfGroups | src/lib/generateDayReqPdf.ts:43-96 | sections built from the grouping over the sorted category names cover each category once, in order, each with its own items' rows |
| DayReqReport.BuildReport | src/lib/generateDayReqPdf.ts:24-96 | header values as computed above; one section per category, in sorted order, each with the rows of that category's items |
| DayReqReport.BuildSections | src/lib/generateDayReqPdf.ts:77-96 | the sections are the categories, each once and sorted, with their sorted rows |
| DayReqReport.ReportPartitionsItems | src/lib/generateDayReqPdf.ts:43-96 | together the sections list every item exactly once |
| FoodAllocation.RecipeOf | src/pages/FoodAllocationPage.tsx:98-100 | a bare name serves as both recipe type and code; an object is kept |
| FoodAllocation.RequirementOf | src/pages/FoodAllocationPage.tsx:105-109 | the requirement keeps its mosque; its quantity is the number, 0 when not numeric |
| FoodAllocation.AvailableOf | src/pages/FoodAllocationPage.tsx:113-117 | `avbl_qty`, else `available_qty`, else the bare answer, read as a number, 0 otherwise |
| FoodAllocation.FindRequirement | src/pages/FoodAllocationPage.tsx:141 | the first requirement with the mosque's name, none iff there is none |
| FoodAllocation.ReqQtyFor | src/pages/FoodAllocationPage.tsx:136-143 | blank iff no mosque; the first listed mosque's requirement; "0" for an unknown mosque |
| FoodAllocation.ReqQtyOfListed | src/pages/FoodAllocationPage.tsx:136-143 | a listed mosque shows the quantity of its first listing |
| FoodAllocation.AllocationFor | src/pages/FoodAllocationPage.tsx:151-171 | posted iff date, mosque and quantity are given; the payload carries the first recipe (or blanks) and the shown balance |
| FoodAllocation.BalanceDoesNotBlock | src/pages/FoodAllocationPage.tsx:151-155 | a negative balance does not change whether an allocation is posted |
| FoodAllocation.CarryIsStartLessSum | src/pages/FoodAllocationPage.tsx:175 | after a run of saves the available quantity is the start less the sum of the allocated quantities |
| FoodAllocation.CarrySnoc | src/pages/FoodAllocationPage.tsx:175 | each save subtracts its own quantity from the carry |
| FoodAllocation.Carry | src/pages/FoodAllocationPage.tsx:175 | the available quantity after each save in turn replaces it by the balance; CarryIsStartLessSum gives its value |
| FoodAllocation.AllocationForm.constructor | src/pages/FoodAllocationPage.tsx:78-86 | empty form, zero quantities, balance and required quantity consistent |
| FoodAllocation.AllocationForm.SelectDate | src/pages/FoodAllocationPage.tsx:78-127 | clearing resets everything; a successful schedule answer replaces recipes and requirements; a successful quantity answer sets both quantities, and the balance effect re-runs only when the available quantity changed |
| FoodAllocation.AllocationForm.SelectMasjid | src/pages/FoodAllocationPage.tsx:136-143 | the required quantity follows the mosque |
| FoodAllocation.AllocationForm.SetAllocQty | src/pages/FoodAllocationPage.tsx:146-149 | the balance is the available quantity less the typed one |
| FoodAllocation.AllocationForm.Submit | src/pages/FoodAllocationPage.tsx:151-184 | posts AllocationFor; after a save the shown balance becomes the new available quantity and the fields are cleared; when the balance was current, that is the old available quantity less the saved allocation |
| Requirements.LoadExisting | src/components/forms/RequirementFormFields.tsx:131-136 | the saved requirements keep their dates, with mosque names lower-cased |
| Requirements.DateRange | src/components/forms/RequirementFormFields.tsx:105-107 | every day from start to end when both are set and ordered, else none |
| Requirements.ValidEntriesExactly | src/components/forms/RequirementFormFields.tsx:109 | exactly the entries with a mosque and a quantity are valid |
| Requirements.GeneratedRecordsShape | src/components/forms/RequirementFormFields.tsx:110-116 | the preview has one record per day and valid entry, date-major |
| Requirements.GeneratedRecords | src/components/forms/RequirementFormFields.tsx:110-116 | for each day of the range, for each valid entry, one record of that day, mosque and quantity; GeneratedRecordsShape gives its layout |
| Requirements.NoRangeNoRecords | src/components/forms/RequirementFormFields.tsx:105-116 | without both dates, or with the dates reversed, there is no preview |
| Requirements.AutoPopulate | src/components/forms/RequirementFormFields.tsx:94-103 | with both dates and a mosque list, the default single empty row becomes one empty-quantity row per mosque; any other entry list is kept |
| Requirements.AutoPopulateIdempotent | src/components/forms/RequirementFormFields.tsx:94-103 | running the effect again changes nothing |
| Requirements.MosqueOptions | src/components/forms/RequirementFormFields.tsx:302-308 | a row offers exactly the mosques not chosen in another row, plus its own choice |
| Requirements.OwnChoiceOffered | src/components/forms/RequirementFormFields.tsx:302-308 | a row's own mosque is always offered; one chosen elsewhere (and not its own) never is |
| Requirements.Duplicates | src/components/forms/RequirementFormFields.tsx:162-169 | every reported pair is a picked day and entry already saved |
| Requirements.IsDuplicate | src/components/forms/RequirementFormFields.tsx:162-169 | an entry is already saved on a date iff a saved record has its lower-cased mosque name and a date text starting with the date's "yyyy-MM-dd" key |
| Requirements.DuplicatesEmptyIff | src/components/forms/RequirementFormFields.tsx:162-178 | no duplicate is reported iff no picked day and entry are already saved |
| Requirements.FindMasjid | src/components/forms/RequirementFormFields.tsx:184 | the first mosque with the name, none iff there is none |
| Requirements.MasjidCode | src/components/forms/RequirementFormFields.tsx:188 | "" for an unknown mosque or one without a code, else the code's text |
| Requirements.PlanSubmit | src/components/forms/RequirementFormFields.tsx:147-193 | schema failure, then not signed in, then duplicates over the days of `eachDayOfInterval`, in that order; creation only when all pass |
| Requirements.NoCompleteEntriesUnreachable | src/components/forms/RequirementFormFields.tsx:154-159 | once the schema holds the "no complete entry" refusal cannot happen |
| Requirements.DuplicateAbortsAll | src/components/forms/RequirementFormFields.tsx:162-178 | a single saved (day, mosque) pair aborts the whole submission, and the pair reported is a saved one |
| Requirements.CreatedRequests | src/components/forms/RequirementFormFields.tsx:182-193 | a creating submission sends one request per day and entry, date-major, none of them a duplicate |
| Requirements.CreatePlanShape | src/components/forms/RequirementFormFields.tsx:147-193 | creation happens iff the schema holds, someone is signed in and no day of the interval (counted down when reversed) has a saved entry; the requests are the product of those days and the entries |
| Requirements.CreateNeverEmpty | src/components/forms/RequirementFormFields.tsx:153-193 | a creating submission sends at least one request: one per day of the interval and entry |
| Requirements.EachDay | src/components/forms/RequirementFormFields.tsx:153 | at least one day, from the start to the end a day apart, counting down when the end is before the start |
| Requirements.EachDayReversed | src/components/forms/RequirementFormFields.tsx:153 | a reversed interval lists the ordered interval's days backwards |
| Requirements.EachDayAt | src/components/forms/RequirementFormFields.tsx:153 | the i-th day is i days after the start, or i days before it on a reversed interval, so consecutive days are one apart |
| Requirements.SavedPairIsDuplicate | src/components/forms/RequirementFormFields.tsx:162-193 | a created request, once saved and fetched again, makes its pair a duplicate |
| Requirements.EntriesAfterCreate | src/components/forms/RequirementFormFields.tsx:195-204 | reset to the default entry iff every create succeeded |
| Requirements.RequirementForm.constructor | src/components/forms/RequirementFormFields.tsx:78-83 | no dates and one empty entry |
| Requirements.RequirementForm.PickFrom | src/components/forms/RequirementFormFields.tsx:241 | the start date is set or cleared, the end date kept, and the entries are those after the auto-populate effect |
| Requirements.RequirementForm.PickTo | src/components/forms/RequirementFormFields.tsx:264-266 | only days not before the start can be picked; the end date is set or cleared, and the entries are those after the auto-populate effect |
| Requirements.RequirementForm.Populate | src/components/forms/RequirementFormFields.tsx:94-103 | the dates are kept and the entries are those after the auto-populate effect over the form's own dates |
| Requirements.RequirementForm.Submit | src/components/forms/RequirementFormFields.tsx:147-210 | the plan over the form's values; only after a creation in which every request succeeded, `form.reset` restores the default entry and clears both dates, so the same submission then fails the schema; otherwise the dates are kept |
| Schedule.Without | src/components/forms/ScheduleFormFields.tsx:92-95 | removes exactly the day and keeps the list ascending |
| Schedule.SortedInsert | src/components/forms/ScheduleFormFields.tsx:88 | the list with the day added, as a multiset |
| Schedule.SortedInsertAscending | src/components/forms/ScheduleFormFields.tsx:88 | adding a new day keeps the list ascending |
| Schedule.Toggled | src/components/forms/ScheduleFormFields.tsx:81-90 | a picked day leaves, another one joins, and the list stays ascending |
| Schedule.ToggledTwice | src/components/forms/ScheduleFormFields.tsx:81-90 | picking the same day twice restores the list |
| Schedule.AscendingUnique | src/components/forms/ScheduleFormFields.tsx:81-90 | an ascending list is determined by the days it holds |
| Schedule.CheckDuplicate | src/components/forms/ScheduleFormFields.tsx:97-104 | a stored schedule has that day and the same recipe type up to blanks and case |
| Schedule.RecipeCode | src/components/forms/ScheduleFormFields.tsx:132-139 | "" iff the recipe type is unknown, or its code is missing or 0 |
| Schedule.PlanSchedule | src/components/forms/ScheduleFormFields.tsx:106-143 | not signed in, then missing input, then the first already-scheduled day, in that order; otherwise one create per picked day |
| Schedule.AppendCreated | src/components/forms/ScheduleFormFields.tsx:145-152 | the stored list is extended by one entry per picked day |
| Schedule.CreatedAreDuplicates | src/components/forms/ScheduleFormFields.tsx:145-152 | each saved day is a duplicate for that recipe type |
| Schedule.ResubmitRefused | src/components/forms/ScheduleFormFields.tsx:119-152 | submitting the same days and type again is refused |
| Schedule.ScheduleForm.constructor | src/components/forms/ScheduleFormFields.tsx:44-50 | empty lists, no recipe type, an ascending (empty) day list |
| Schedule.ScheduleForm.Load | src/components/forms/ScheduleFormFields.tsx:52-79 | each list is replaced only by a successful answer with data |
| Schedule.ScheduleForm.SelectDate | src/components/forms/ScheduleFormFields.tsx:81-90 | no date changes nothing; a date toggles; the days stay ascending |
| Schedule.ScheduleForm.ToggleDate | src/components/forms/ScheduleFormFields.tsx:92-95 | the chip's day is removed; the days stay ascending |
| Schedule.ScheduleForm.SetRecipeType | src/components/forms/ScheduleFormFields.tsx:50 | only the recipe type changes |
| Schedule.ScheduleForm.Submit | src/components/forms/ScheduleFormFields.tsx:106-165 | the plan; after every create succeeds the saved days are stored and the form cleared, otherwise nothing changes |
| Delivery.InfoOf | src/pages/DeliveryPage.tsx:110-115 | quantities read as numbers, 0 when not numeric |
| Delivery.PendingMosques | src/pages/DeliveryPage.tsx:99-117 | no longer than the schedule |
| Delivery.PendingMosquesMembers | src/pages/DeliveryPage.tsx:99-117 | a mosque is listed iff it is scheduled and no delivery to it is recorded on that date |
| Delivery.ScheduledList | src/pages/DeliveryPage.tsx:107-120 | the pending mosques of a successful answer with data, none otherwise |
| Delivery.FindMasjid | src/pages/DeliveryPage.tsx:144 | the first listed mosque of that name, none iff there is none |
| Delivery.FindPicked | src/pages/DeliveryPage.tsx:268-271 | the first listed mosque whose name equals the pick ignoring case, none iff there is none |
| Delivery.Prefill | src/pages/DeliveryPage.tsx:141-153 | no mosque clears time and quantities; otherwise the given time, the mosque's allocated quantity (0 if unknown), and that quantity as the delivery quantity when positive |
| Delivery.DeliveryFor | src/pages/DeliveryPage.tsx:155-170 | posted iff date, mosque, quantity and person are given, dated "yyyy-MM-ddT00:00:00" |
| Delivery.FilterByDate | src/pages/DeliveryPage.tsx:367-369 | without a filter date all records are shown |
| Delivery.FilterByDateFacts | src/pages/DeliveryPage.tsx:367-369 | with one, exactly the records of that date, and a sorted list stays sorted |
| Delivery.DeliveryPage.constructor | src/pages/DeliveryPage.tsx:46-62 | empty page, records sorted |
| Delivery.DeliveryPage.FetchRecords | src/pages/DeliveryPage.tsx:64-78 | an array is shown sorted by date; a non-array empties the list; no data or a throw keeps it |
| Delivery.DeliveryPage.ResetFormFields | src/pages/DeliveryPage.tsx:132-139 | the form fields are cleared |
| Delivery.DeliveryPage.ClearDate | src/pages/DeliveryPage.tsx:84-88 | no list, form reset |
| Delivery.DeliveryPage.SelectDate | src/pages/DeliveryPage.tsx:83-130 | the pick marks the form touched; the list becomes the day's pending mosques and the selection effect re-runs; a throw changes nothing but the date |
| Delivery.DeliveryPage.ShowList | src/pages/DeliveryPage.tsx:117-153 | a new list re-runs the selection effect |
| Delivery.DeliveryPage.PickMasjid | src/pages/DeliveryPage.tsx:268-276 | a pick that resolves selects that mosque and marks the form touched; a change of mosque prefills it |
| Delivery.DeliveryPage.SetDeliveryBy | src/pages/DeliveryPage.tsx:302 | only the person changes; the form is touched |
| Delivery.DeliveryPage.SetDeliveryQty | src/pages/DeliveryPage.tsx:307 | only the quantity changes; the form is touched |
| Delivery.DeliveryPage.Submit | src/pages/DeliveryPage.tsx:155-182 | posts DeliveryFor; the form is reset only after a save |
| ItemForm.EmptyRow | src/components/forms/ItemFormFields.tsx:33-41 | a row with the given id and every field empty |
| ItemForm.WithField | src/components/forms/ItemFormFields.tsx:85 | only the named field takes the value |
| ItemForm.IsComplete | src/components/forms/ItemFormFields.tsx:90 | a row counts iff its trimmed name, category and unit are non-empty |
| ItemForm.LaterRepeatsEmptyIff | src/components/forms/ItemFormFields.tsx:102-107 | the batch check finds nothing iff all names differ |
| ItemForm.LaterRepeats | src/components/forms/ItemFormFields.tsx:102-103 | the positions of the batch's `filter((name, i) => indexOf(name) !== i)`: every position lies in the list; LaterRepeatsEmptyIff says it is empty iff all names differ |
| ItemForm.CheckBatch | src/components/forms/ItemFormFields.tsx:88-123 | refused for no complete row iff there is none; when accepted, one proper-cased, trimmed payload per complete row, in order; the two refusals in between are stated by CheckBatchAlreadyExists and CheckBatchDuplicate |
| ItemForm.PayloadOf | src/components/forms/ItemFormFields.tsx:111-123 | the create request of every row: its trimmed name proper-cased, its category and unit, its trimmed brand, rate and remark, and the signed-in user's name or "" |
| ItemForm.CheckBatchAlreadyExists | src/components/forms/ItemFormFields.tsx:96-100 | refused as existing iff some complete row's name is stored (ignoring blanks and case) |
| ItemForm.CheckBatchDuplicate | src/components/forms/ItemFormFields.tsx:102-107 | refused as repeated iff none is stored and two complete rows share a name |
| ItemForm.ResubmitRejected | src/components/forms/ItemFormFields.tsx:125-127 | a saved batch submitted again is refused as existing |
| ItemForm.ExistingNames | src/components/forms/ItemFormFields.tsx:65-67 | the stored names are the answer's names lower-cased |
| ItemForm.ItemBatchForm.constructor | src/components/forms/ItemFormFields.tsx:50-51 | three empty rows with distinct ids, no stored names |
| ItemForm.ItemBatchForm.LoadExistingNames | src/components/forms/ItemFormFields.tsx:53-75 | the stored names come from a successful answer, otherwise stay |
| ItemForm.ItemBatchForm.AddRow | src/components/forms/ItemFormFields.tsx:77 | one fresh empty row at the end; ids stay distinct |
| ItemForm.ItemBatchForm.RemoveRow | src/components/forms/ItemFormFields.tsx:79-82 | with more than one row, the row with that id goes and the rest stay in order |
| ItemForm.ItemBatchForm.UpdateRow | src/components/forms/ItemFormFields.tsx:84-86 | only that row's field changes |
| ItemForm.ItemBatchForm.Submit | src/components/forms/ItemFormFields.tsx:88-139 | the batch check; only when every create succeeds are the names stored and three fresh rows shown |
| ItemForm.ItemBatchForm.Saved | src/components/forms/ItemFormFields.tsx:126-129 | the batch's names are stored and three fresh rows shown |
| MaterialReceipt.StandardizeUnit | src/pages/MaterialReceiptPage.tsx:29-32 | same length; first character upper case, the rest lower case |
| MaterialReceipt.StandardizeUnitIdempotent | src/pages/MaterialReceiptPage.tsx:29-32 | standardizing twice changes nothing more |
| MaterialReceipt.InitialRow | src/pages/MaterialReceiptPage.tsx:117-122 | the unit standardized, a missing requested quantity shown as "0", nothing received |
| MaterialReceipt.ItemsAfter | src/pages/MaterialReceiptPage.tsx:102-132 | no rows while date, type or category is missing or the fetch throws; fetched rows on success; rows kept otherwise |
| MaterialReceipt.CategoryCode | src/pages/MaterialReceiptPage.tsx:136-137 | the first category's code with that name, "" when none |
| MaterialReceipt.SupplierOf | src/pages/MaterialReceiptPage.tsx:87-89 | a bare name, the object's `sup_name`, or the first element's |
| MaterialReceipt.SupplierAfter | src/pages/MaterialReceiptPage.tsx:76-99 | "" without a code or a successful answer; otherwise the answer's supplier |
| MaterialReceipt.ValidItems | src/pages/MaterialReceiptPage.tsx:151 | never more than the rows |
| MaterialReceipt.ValidItemsMembers | src/pages/MaterialReceiptPage.tsx:151 | exactly the rows whose received quantity reads as a positive number |
| MaterialReceipt.TypedDigitsAreValid | src/pages/MaterialReceiptPage.tsx:151 | digits with one non-zero make a row valid; a freshly loaded row never is |
| MaterialReceipt.CreatedBy | src/pages/MaterialReceiptPage.tsx:172 | the user's name, "system" when there is none |
| MaterialReceipt.ReceiptBatch | src/pages/MaterialReceiptPage.tsx:153-190 | the four checks in order; otherwise one receipt per valid row, in order, with the form's date, supplier and category |
| MaterialReceipt.ReceiptsArePositive | src/pages/MaterialReceiptPage.tsx:151-190 | every posted receipt carries a positive quantity |
| MaterialReceipt.ReceiptForm.constructor | src/pages/MaterialReceiptPage.tsx:39-66 | the receipt date is today; the categories are the list the mount effect at :58-66 leaves (the answer's array, or `[]` when the fetch fails); every other field empty |
| MaterialReceipt.ReceiptForm.SetPurchaseReqDate | src/pages/MaterialReceiptPage.tsx:102-132 | a new date re-runs the items effect |
| MaterialReceipt.ReceiptForm.SetPurchaseType | src/pages/MaterialReceiptPage.tsx:102-132 | a new type re-runs the items effect |
| MaterialReceipt.ReceiptForm.ChangeCategory | src/pages/MaterialReceiptPage.tsx:134-138 | sets category and code; a new category re-runs the items effect, a new code the supplier effect |
| MaterialReceipt.ReceiptForm.UpdateReceivedQty | src/pages/MaterialReceiptPage.tsx:140-144 | only that row's received quantity changes |
| MaterialReceipt.ReceiptForm.RemoveItemRow | src/pages/MaterialReceiptPage.tsx:146-149 | with more than one row, the row at the index goes |
| MaterialReceipt.ReceiptForm.Submit | src/pages/MaterialReceiptPage.tsx:153-206 | posts ReceiptBatch; the form is cleared only after a save |
| UserRights.UserNameError | src/pages/UserRightsPage.tsx:14 | passes iff 1 to 50 characters, with the message of the failing rule |
| UserRights.PasswordError | src/pages/UserRightsPage.tsx:15-20 | passes iff 8 to 100 characters with a digit and a non-alphanumeric character; the first failing rule's message, in schema order |
| UserRights.ConfirmError | src/pages/UserRightsPage.tsx:21-25 | passes iff filled in and equal to the password |
| UserRights.Matches | src/pages/UserRightsPage.tsx:18-19 | a pattern test finds a matching character anywhere |
| UserRights.HasDigit | src/pages/UserRightsPage.tsx:18 | the password has a decimal digit somewhere |
| UserRights.HasSpecial | src/pages/UserRightsPage.tsx:19 | the password has a character that is neither a letter nor a digit somewhere |
| UserRights.Validate | src/pages/UserRightsPage.tsx:13-48 | the request iff every field passes, with empty code and role; otherwise the three messages |
| UserRights.Classify | src/pages/UserRightsPage.tsx:50-66 | registered iff success; a name clash iff not success and the message mentions "already exists" or "duplicate" in any case; otherwise the message or "Unable to register."; a throw is a connection failure |
| UserRights.ExistsInAnyCase | src/pages/UserRightsPage.tsx:53-57 | "already exists" anywhere, in any letter case, is a name clash |
| UserRights.FormAfter | src/pages/UserRightsPage.tsx:50-52 | the form is cleared iff registered |
| UserRights.NameErrorAfter | src/pages/UserRightsPage.tsx:57 | "User already exists" shows iff the name clashed |
| Supplier.IsDigits | src/components/forms/SupplierFormFields.tsx:18 | one digit or more and nothing else |
| Supplier.InvalidFields | src/components/forms/SupplierFormFields.tsx:14-20 | each field's rule: name 1-100, address 1-200, city 1-50, mobile 10-15 digits, a category |
| Supplier.CategoryName | src/components/forms/SupplierFormFields.tsx:72-79 | "" when no category code matches; otherwise the first matching category's name |
| Supplier.PayloadFor | src/components/forms/SupplierFormFields.tsx:73-81 | name, address and city trimmed and proper-cased; mobile and code as typed |
| Supplier.PlanSupplier | src/components/forms/SupplierFormFields.tsx:14-81 | schema errors first, then a stored name (trimmed, lower-cased) refused with its message, then the request |
| Supplier.ResubmitRefused | src/components/forms/SupplierFormFields.tsx:65-84 | a saved supplier is refused when sent again |
| Supplier.StoredNames | src/components/forms/SupplierFormFields.tsx:54 | the stored names are the answer's names lower-cased |
| Supplier.SupplierForm.constructor | src/components/forms/SupplierFormFields.tsx:37-44 | empty form, no stored names |
| Supplier.SupplierForm.Load | src/components/forms/SupplierFormFields.tsx:46-62 | stored names and categories each replaced by their successful answer |
| Supplier.SupplierForm.Edit | src/components/forms/SupplierFormFields.tsx:110 | only the values change |
| Supplier.SupplierForm.Submit | src/components/forms/SupplierFormFields.tsx:64-95 | the plan; on success the name is stored and the form reset; the error message otherwise |
| Recipe.MatchesQuantityIff | src/components/forms/RecipeFormFields.tsx:20 | `/^\d+(\.\d+)?$/` accepts exactly digits, or digits, a point and digits |
| Recipe.QuantityExamples | src/components/forms/RecipeFormFields.tsx:20 | "1.", ".5" and "-1" refused; "12.5" and "7" accepted |
| Recipe.MatchesQuantity | src/components/forms/RecipeFormFields.tsx:20 | the quantity pattern: digits, then optionally a point and digits; MatchesQuantityIff states it character by character |
| Recipe.LeadingDigits | src/components/forms/RecipeFormFields.tsx:20 | the longest digit prefix |
| Recipe.InvalidFields | src/components/forms/RecipeFormFields.tsx:12-21 | exactly the fields that are empty, too long, or (the quantity) not a decimal numeral |
| Recipe.PlanRecipe | src/components/forms/RecipeFormFields.tsx:12-63 | the request iff every field passes, carrying the user's name; otherwise the non-empty set of failing fields |
| Recipe.RecipeResult | src/components/forms/RecipeFormFields.tsx:65-72 | created iff success; otherwise the answer's message or "Failed to create"; a throw shows "Unable to connect to server" |
| Recipe.FormAfter | src/components/forms/RecipeFormFields.tsx:65-70 | reset iff created |
| ModuleMaster.AlphaFilter | src/pages/ModuleMasterPage.tsx:73-76 | only letters, '_' and spaces remain; never longer |
| ModuleMaster.AlphaFilterMembers | src/pages/ModuleMasterPage.tsx:73-76 | a character remains iff it was there and is allowed |
| ModuleMaster.AlphaFilterKeepsClean | src/pages/ModuleMasterPage.tsx:73-76 | a clean text is left as it is |
| ModuleMaster.AlphaFilterIdempotent | src/pages/ModuleMasterPage.tsx:73-76 | filtering twice is filtering once |
| ModuleMaster.AlphaFilterConcat | src/pages/ModuleMasterPage.tsx:73-76 | the filter keeps the order of what it keeps |
| ModuleMaster.PlanModule | src/pages/ModuleMasterPage.tsx:46-56 | refused iff either trimmed name is empty; otherwise the trimmed names and the user |
| ModuleMaster.BlankRefused | src/pages/ModuleMasterPage.tsx:46-49 | refused iff either name is all white space |
| ModuleMaster.ModuleMasterPage.constructor | src/pages/ModuleMasterPage.tsx:20-26 | empty, loading, dialog closed |
| ModuleMaster.ModuleMasterPage.Load | src/pages/ModuleMasterPage.tsx:28-40 | a list with data replaces the modules; a throw reports "Failed to load modules."; loading ends |
| ModuleMaster.ModuleMasterPage.OpenDialog | src/pages/ModuleMasterPage.tsx:90 | the dialog opens |
| ModuleMaster.ModuleMasterPage.TypeModName | src/pages/ModuleMasterPage.tsx:73-139 | the field holds the filtered text, at most 50 allowed characters |
| ModuleMaster.ModuleMasterPage.TypeSubModName | src/pages/ModuleMasterPage.tsx:73-148 | the same for the sub-module field |
| ModuleMaster.ModuleMasterPage.Submit | src/pages/ModuleMasterPage.tsx:44-71 | blank names refused with a notice; on success the dialog closes, fields clear and the list is reloaded; a failure shows the message or "Failed to add module."; a throw "Failed to save module." |
| TextUtils.ProperCaseAt | src/lib/utils.ts:9-16 | each character keeps its place, upper case at a word start, lower case elsewhere |
| TextUtils.ProperCaseIdempotent | src/lib/utils.ts:9-16 | proper-casing twice is proper-casing once |
| TextUtils.ToProperCase | src/lib/utils.ts:9-16 | lower-case the text, then capitalize each word between single spaces; ProperCaseAt states the result character by character |
| TextUtils.UpperAtWordStarts | src/lib/utils.ts:11-15 | the reference: word starts raised, the rest kept |
| TextUtils.DayFirstOfParts | src/lib/utils.ts:41-42 | "y-m-d" becomes "d-m-y" |
| TextUtils.DayFirstInvolution | src/lib/utils.ts:41-42 | turning a three-part date around twice gives it back |
| TextUtils.FormatStoredDate | src/lib/utils.ts:38-44 | a stored "yyyy-MM-dd[Thh:mm:ss]" shows as "dd-MM-yyyy" |
| TextUtils.FormatDateForTableInvolution | src/lib/utils.ts:38-44 | formatting a table date again gives back its date part |
| TextUtils.FormatDateForTable | src/lib/utils.ts:38-44 | "-" for no date; the day-first form of a three-part date part; any other text unchanged |
| TextUtils.NumericOnlyKeepsNumeric | src/lib/utils.ts:19-26 | a field of digits with at most one point stays so under every key numericOnly lets through |
| TextUtils.AlphabetOnlyKeepsAlphabetic | src/lib/utils.ts:29-35 | a field of letters and spaces stays so under every key alphabetOnly lets through |
| TextUtils.NumericOnlyAllows | src/lib/utils.ts:19-26 | navigation keys, a point when the text has none yet, and single digits pass |
| TextUtils.AlphabetOnlyAllows | src/lib/utils.ts:29-35 | navigation keys, single letters and a space pass |
| Numbers.ToNumber | src/pages/DayRequirementsPage.tsx:231 | `Number(s)`: surrounding blanks ignored, blank text 0, else an optional sign and a decimal literal; anything else NaN; NumberOfDigits: it reads `String(n)` back as n |
| Numbers.ParseFloat | src/pages/MaterialReceiptPage.tsx:151 | `parseFloat(s)`: leading blanks skipped, the longest signed decimal prefix read; no digit gives NaN; ParseFloatOfDigits: typed digits with a non-zero one are positive |
| Sorting.SortBy | src/lib/generateDayReqPdf.ts:77-80 | ordered by the key, a permutation of the input, and stable: the elements of each key keep their order |
| Sorting.InsertWithKey | src/lib/generateDayReqPdf.ts:77-80 | insertion puts an element before every other element with its key, leaving the rest of that key's order alone |
| Numbers.DigitsValue | src/components/forms/RequirementFormFields.tsx:188 | the digits `String(n)` writes read back as n |
| Numbers.NumberOfDigits | src/components/forms/RequirementFormFields.tsx:188 | `Number(String(n))` is n: the text a count is written as reads back through ToNumber as that count |

## Notable behaviour of the source

- **Food Allocation.** A negative remaining balance does not block a
  submission, and each submission posts one allocation
  (src/pages/FoodAllocationPage.tsx:151-184, `FoodAllocation.BalanceDoesNotBlock`).
- **Delivery requirements.** A (day, mosque) pair that is already saved aborts
  the whole submission with one message, and nothing of the batch is posted
  (src/components/forms/RequirementFormFields.tsx:162-178,
  `Requirements.DuplicateAbortsAll`).
- **Food Allocation balance effect.** The balance effect depends on the typed
  and available quantities (src/pages/FoodAllocationPage.tsx:146-149). So a
  date whose fetched available quantity equals the current one does not re-run
  it, and the balance shows the bare available quantity even with a quantity
  typed (`AllocationForm.SelectDate`).
- **Restoring the session** (src/contexts/AuthContext.tsx:26-61).
  - The user is set before the saved permissions are parsed. When only the
    permissions fail to parse, the user stays signed in while both saved
    entries are removed.
  - A login whose permission fetch fails keeps the permissions an earlier login
    saved, and a reload grants them (`Auth.ReloadAfterFailedLogin`).

## Left out

- **Network, toasts and rendering.** REST calls, toasts, dialogs, spinners, the
  PDF drawing and table layout are all left out. Answers are parameters; what a
  page shows is modelled only where it is state.
- **Concurrency.** `Promise.all` and interleaved effects are left out. The joint
  requests of an effect are one parameter; a batch of creates is a list of
  statuses, or whether any call threw.
- **Effects.** They run synchronously inside the handler that triggers them. A
  stale answer arriving after a later change is not modelled, apart from the
  bulk-items cancellation, which simply keeps the newest answer.
- **Dates.** date-fns `format`, `Date` objects and time zones are left out: a day
  is an integer and its "yyyy-MM-dd" text. Two dates are equal when their days
  are.
- **`Requirements.PlanSubmit`:** `eachDayOfInterval` is modelled as date-fns
  version 3 behaves (`Requirements.EachDay`). A reversed interval is counted
  down from its start. Version 2 throws on it instead: nothing is posted and
  the form is kept. The repository's date-fns version is not part of this
  model. The requirement form reaches this case, because its "from" calendar
  accepts a day after the chosen "to" day. The day-requirement bulk dialog never
  does: its "from" picker clears a later "to" day, and its "to" picker refuses
  days before "from" (`BulkDialog.PickFrom/PickTo`). The requirement preview
  guards the interval itself and is empty when it is reversed.
- **JavaScript numbers are reals.**
  - Floating-point rounding is not modelled.
  - NaN is `None`.
  - `toFixed(2)` in the report header is not modelled.
  - Kilogram values are the exact quotient.
- **zod machinery.** Resolvers, error objects and the default messages of `.max`
  without a message are left out. The user-rights schema's own messages are
  modelled (`UserRights.Validate`). The supplier and recipe schemas are modelled
  by which fields fail only (`Supplier.InvalidFields`, `Recipe.InvalidFields`):
  their messages "Required", "Min 10 digits", "Digits only", "Please select a
  category" and "Must be a number" are left out.
- **Browser storage and JSON.** `localStorage` is a map field.
  `JSON.parse`/`JSON.stringify` are function parameters, and a parse failure is
  an explicit value.
- **Flags.** The loading and submitting flags are left out, except the bulk
  submit lock and the module list's loading flag. The `formInteracted` flag is
  modelled on the Delivery page only. Close-confirmation dialogs are left out.
- **Records tables.** Record refreshes after a save, search boxes and edit/delete
  dialogs (the `*EditForm` components) are not part of this model.
- **Module names.** The module-master table's display of names (underscores
  shown as spaces, words capitalized) is left out. Only the input filter and the
  submit logic are modelled.
- **Item form drop-downs.** The category and unit drop-down contents of the
  item form are left out; only the stored names are modelled.
- **Sorting.** `Array.prototype.sort` with the time comparator and
  `localeCompare` are a stable insertion sort on code-point order.
  Locale-aware collation is not modelled.
- **`DayRequirements.RetailSubmit`:** a failed header or line request is not
  distinguished. The dialog only reports failure; which requests reached the
  server is not modelled.
- **`Delivery.FilterByDate`:** the records table calls
  `delivery_date.split("T")` without a guard. While a filter date is set, a
  record with no `delivery_date` makes the render throw. The model reads the
  missing date as "" and leaves that record out.
- **`Delivery.PendingMosques`:** the delivered-mosque filter compares the date
  part of `delivery_date`. A record without a date counts as "" and never
  matches a day.
- **`DayReqReport.BuildReport`:** the source groups items in a plain object,
  so a category named "constructor", "toString", "valueOf", "hasOwnProperty" or
  `"__proto__"` finds an inherited property instead of an array, the `push` throws
  and no PDF is made. The model builds an ordinary section for such a
  category.
- **`Numbers.ToNumber`:** only decimal text is read. Exponents ("1e3"),
  "Infinity", and hexadecimal, octal and binary literals ("0x10") are NaN in
  the model, where JavaScript's `Number` reads them as numbers.
- **`Numbers.ParseFloat`:** an exponent is cut off and only the digits before
  it are read, so "1e3" reads as 1 where `parseFloat` gives 1000, and
  "1e-400" reads as 1 where `parseFloat` gives 0 (so
  `MaterialReceipt.ValidItems` keeps a row with that received quantity,
  which the source drops). "Infinity" is NaN in the model. Hexadecimal,
  octal and binary prefixes ("0x10") read as 0, which is what `parseFloat`
  gives too.
- **`Text.LowerStr`, `Text.ToUpper`, `Text.ToLower` and `Text.Trim`:** these
  cover ASCII only, and lengths count code points. JavaScript's
  `toLowerCase`, `toUpperCase` and `trim` work on all of Unicode, and zod's
  `.min`/`.max` count UTF-16 units. So the model differs on other text:
  - `Supplier.PlanSupplier`, `Schedule.CheckDuplicate`, `ItemForm.CheckBatch`
    and `ModuleMaster.PlanModule`: `trim` also removes U+00A0 and other
    Unicode blanks, so a name of only such characters is blank to the
    source's duplicate and blank checks. The model keeps it.
  - `UserRights.UserNameError`, `UserRights.PasswordError`,
    `Supplier.InvalidFields` and `Recipe.InvalidFields`: a character outside
    the Basic Multilingual Plane counts once in the model's `.min`/`.max`
    length rules, where zod counts two.
- **`MaterialReceipt.StandardizeUnit`:** the "same length" and per-character
  case clauses hold for ASCII case mapping only. In JavaScript
  `"ß".toUpperCase()` is "SS".
- **`TextUtils.ProperCaseAt`:** "each character keeps its place" holds for
  ASCII case mapping only, for the same reason.
- **Keystroke filters.** `TextUtils.NumericOnlyKeepsNumeric` and
  `TextUtils.AlphabetOnlyKeepsAlphabetic` cover character keys typed over a
  selection. Paste and the browser's own `type="number"` handling are not
  modelled.
