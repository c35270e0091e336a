# Fuel management: a Dafny model

This project models the core of a fuel-management system. The system has two parts. A Laravel API over an Oracle database keeps vehicles, generators, fuel logs, gas bills, inventory snapshots, users, stations, maintenance records and a table of constants. A React/Redux single-page client lists, filters and edits those records.

The model replaces the database with in-memory sequences of rows and the browser with plain values and small classes. It keeps the logic the two sides actually run:

- **Server queries.** Each `index` builds a conjunction of optional criteria. The rows are then filtered, ordered and cut into a page, and the page is enriched with labels read from the constants table.
- **Server writes.** Laravel's `validate` rules and mass assignment through `$fillable` decide what a write stores. Server-stamped columns and the error codes each endpoint answers are modelled too.
- **Login and session.** The login decision and the session updates of the authentication controller.
- **Client slices.** The Redux slices are classes whose fields the reducers update. The query string a list fetch sends is built by a loop.
- **Client pages and components.** The pure logic of the pages, forms and components:
  - searches and status chips;
  - totals, averages and currency labels;
  - table selection and form schemas;
  - the sidebar's permission filtering and the route guard.

The server's source files live under `app/` and the client's under `fuel-management-system/src/`; the `.dfy` files all sit side by side. Each Dafny module follows one source file:

- Shared modules: `Values`, `Text`, `Ordering`, `Query`, `Validation`, `Tables`, `JsValues` and `ClientLists`.
- Each controller, slice, page, form and component has its own module.

## Model

| member | source | states |
|---|---|---|
| Values.SumOfAppend | app/Http/Controllers/VehGasBillController.php:215-216 | an SQL `SUM` over two groups of rows is the sum of the two sums |
| Values.SumOfNonNegative | app/Http/Controllers/VehGasBillController.php:215 | a sum of non-negative column values is non-negative |
| Text.Trim | app/Http/Controllers/AuthController.php:78 | trimming strips leading and trailing blanks only: a non-empty result starts and ends with a non-blank |
| Text.TrimEmpty | app/Http/Controllers/AuthController.php:78 | a string trims to "" exactly when it consists of blanks |
| Text.Lower | fuel-management-system/src/pages/GeneratorsPage.tsx:64-76 | the ASCII lower-casing that stands for `toLowerCase` keeps the length and maps each character on its own |
| Text.LowerFixes | fuel-management-system/src/components/tables/RecentMovementsTable.tsx:35-72 | text without upper-case letters, Arabic included, is its own lower-case form |
| Text.LowerIdempotent | fuel-management-system/src/pages/VehiclesPage.tsx:141-151 | lower-casing twice is lower-casing once |
| Ordering.ValueLeTotal | app/Http/Controllers/VehicleController.php:48 | any two column values are comparable under `ORDER BY` |
| Ordering.ValueLeTrans | app/Http/Controllers/VehicleController.php:48 | the `ORDER BY` comparison is transitive |
| Ordering.NullIsGreatest | app/Http/Controllers/VehicleFuelLogController.php:50 | Oracle sorts NULL above every other value, so it comes first in a descending order |
| Query.AddWhen | app/Http/Controllers/VehicleController.php:24-34 | one `if ($request->has(k)) $query->where(...)` step appends its conjunct exactly when the key is present |
| Query.MatchesAllConcat | app/Http/Controllers/VehicleController.php:21-44 | successive `where` calls are AND-ed: matching a concatenation of criteria is matching both parts |
| Query.MatchesWhen | app/Http/Controllers/VehicleController.php:24-26 | a conditional conjunct constrains a row only when its key is present |
| Query.SearchAny | app/Http/Controllers/VehicleController.php:37-44 | the grouped `where ... orWhere` search matches exactly when one of its columns contains the term |
| Query.TermOf | app/Http/Controllers/VehicleController.php:38-42 | the interpolated search text is the string itself, and "" for null |
| Query.Filter | app/Http/Controllers/VehicleController.php:21-44 | the filtered rows come from the table, each matching every criterion, none repeated beyond the table |
| Query.FilterComplete | app/Http/Controllers/VehicleController.php:21-44 | no row that matches every criterion is dropped |
| Query.FilterAppend | app/Http/Controllers/VehGasBillController.php:200-216 | filtering distributes over concatenation of row lists |
| Query.SumOfFilterAtMost | app/Http/Controllers/VehGasBillController.php:214-216 | over a non-negative column, the filtered rows sum to between 0 and the sum over all rows |
| Query.HasMany | app/Models/Vehicle.php:101-128 | a `hasMany` relation holds exactly the rows whose foreign key equals the parent key, and none for a null key |
| Query.FirstWhere | app/Http/Controllers/VehicleController.php:56 | `first()` finds the first matching row, and reports absence only when no row matches |
| Query.MaxOf | app/Http/Controllers/VehicleController.php:222 | a collection's `max` is null exactly when every value is null, otherwise a value that occurs and that no value exceeds |
| Query.CountOf | app/Http/Controllers/VehGeneratorController.php:238 | a count is at most the number of rows, and 0 exactly when no row holds the value |
| Query.GroupCounts | app/Http/Controllers/VehGeneratorController.php:239-241 | `groupBy` with `COUNT(*)` has one entry per value the column takes, holding that value's count |
| Query.SortedByKey | app/Http/Controllers/VehicleController.php:51-61 | rewriting rows without touching the ordering column keeps them sorted |
| Query.InsertSorted | app/Http/Controllers/VehicleController.php:48 | inserting a row into a sorted list keeps it sorted |
| Query.SortBy | app/Http/Controllers/VehicleController.php:48 | `orderBy` gives a sorted permutation of its rows |
| Query.PerPageOf | app/Http/Controllers/VehicleController.php:47 | the page size is the `per_page` parameter, 15 when absent, never 0 |
| Query.PageOf | app/Http/Controllers/VehicleController.php:48 | the current page is at least 1 |
| Query.Offset | app/Http/Controllers/VehicleController.php:48 | a page's first index is clamped to the end of the rows |
| Query.Paginate | app/Http/Controllers/VehicleController.php:48 | a page is the contiguous window of at most `per_page` rows at the page's offset, the total counts every row, and a negative size returns all rows as page 1 of 1 |
| Query.SortedSlice | app/Http/Controllers/VehicleController.php:48 | a window of a sorted list is sorted |
| Query.PaginateFrom | app/Http/Controllers/VehicleController.php:48 | every row on a page comes from the ordered rows, in their order |
| Query.PageShows | app/Http/Controllers/VehicleController.php:48 | row `k` of the ordered result is item `k % perPage` of page `k / perPage + 1`, so the pages together show every row |
| Query.List | app/Http/Controllers/VehicleController.php:47-48 | filter, order and page: the total is the filtered count, the page holds at most `per_page` matching rows, in order |
| Query.SortedMembers | app/Http/Controllers/VehicleController.php:48 | ordering neither adds nor drops rows |
| Query.Options | app/Http/Controllers/StationController.php:145-155 | each row becomes one value/label pair, in order |
| Query.Distinct | app/Http/Controllers/ConstantController.php:202-207 | `distinct()->pluck` lists each value of the column exactly once |
| Validation.Validate | app/Http/Controllers/VehicleController.php:83-94 | validation succeeds exactly when every rule passes, and returns the input restricted to the keys that have a rule |
| Validation.AcceptedAsIs | app/Http/Controllers/VehicleController.php:159-171 | an input whose keys all have rules and which passes every rule comes back unchanged |
| Validation.RequiredPresent | app/Http/Controllers/VehicleController.php:84 | after a successful validation every `required` attribute is present and not blank |
| Validation.KindHolds | app/Http/Controllers/VehicleController.php:84-93 | after a successful validation every attribute whose type rule ran has the right type and bounds |
| Validation.MissingRequiredFails | app/Http/Controllers/VehicleController.php:84 | a missing or blank `required` attribute fails the whole validation |
| Validation.BadKindFails | app/Http/Controllers/VehicleController.php:84-93 | an attribute of the wrong type or out of bounds fails the whole validation |
| Validation.StillPasses | app/Http/Controllers/VehicleController.php:159-171 | each attribute is judged by its own rules only |
| Validation.RuledKept | app/Http/Controllers/VehicleController.php:159-173 | an attribute with a rule reaches the validated data exactly as supplied |
| Validation.UnruledDropped | app/Http/Controllers/VehicleController.php:159-173 | an attribute without a rule never reaches the validated data |
| Tables.Fill | app/Http/Controllers/VehicleController.php:96 | mass assignment keeps exactly the fillable attributes, unchanged |
| Tables.FindIndex | app/Http/Controllers/VehicleController.php:157 | `findOrFail` finds the first row with that key, and fails only when no row has it |
| Tables.Created | app/Http/Controllers/VehicleController.php:96 | a created row holds the fillable attributes and a fresh key |
| Tables.Updated | app/Http/Controllers/VehicleController.php:173 | an update overwrites the supplied fillable attributes, and every other column keeps its value |
| Tables.Table.constructor | app/Http/Controllers/VehicleController.php:21 | an empty table satisfies the key invariant |
| Tables.Table.Find | app/Http/Controllers/VehicleController.php:157 | a lookup by key returns a valid position or nothing |
| Tables.Table.Insert | app/Http/Controllers/VehicleController.php:96 | `create` appends the created row under the next key and keeps keys unique |
| Tables.Table.Overwrite | app/Http/Controllers/VehicleController.php:173 | `update` replaces one row by its updated form and keeps keys unique |
| Tables.Table.Remove | app/Http/Controllers/VehicleController.php:196 | `delete` removes exactly that row and keeps keys unique |
| Tables.Show | app/Http/Controllers/VehicleController.php:115-148 | `show` answers 200 with the row, or 404 when no row has the key |
| Tables.Store | app/Http/Controllers/VehicleController.php:80-110 | `store` answers 201 and appends the created row, or answers 500 and writes nothing when validation fails |
| Tables.Update | app/Http/Controllers/VehicleController.php:154-187 | `update` answers 500 and writes nothing for a missing row or a failed validation; otherwise it overwrites the row |
| Tables.Destroy | app/Http/Controllers/VehicleController.php:192-209 | `destroy` answers 500 for a missing row; otherwise it removes the row, after which no row has that key |
| ConstantsHelper.FirstConstant | app/Helpers/ConstantsHelper.php:16-18 | the lookup finds the first row with that type and id, and reports absence only when none matches |
| ConstantsHelper.GetConstantName | app/Helpers/ConstantsHelper.php:12-21 | a falsy id gives null without a lookup; otherwise the first match's name, or null when nothing matches |
| ConstantsHelper.FalsyIdIgnoresTable | app/Helpers/ConstantsHelper.php:14 | for a falsy id the answer is null whatever the table holds |
| ConstantsHelper.AppendKeepsFoundName | app/Helpers/ConstantsHelper.php:16-20 | rows added after the first match cannot change a label that was found |
| ConstantsHelper.LabelTable | app/Helpers/ConstantsHelper.php:31-48 | exactly the five label keys have a lookup, each reading one of the five id columns |
| ConstantsHelper.EnrichedOver | app/Helpers/ConstantsHelper.php:28-49 | after some of the labels are attached, a key is present exactly when it was in the input or is an attached label whose id column is set |
| ConstantsHelper.Enriched | app/Helpers/ConstantsHelper.php:26-52 | the enriched record has every input key, plus a label exactly where its id column is set |
| ConstantsHelper.AttachStep | app/Helpers/ConstantsHelper.php:31-33 | attaching one label writes its looked-up name when the id column is set, and changes nothing otherwise |
| ConstantsHelper.TransformModelData | app/Helpers/ConstantsHelper.php:26-52 | the step-by-step `transformModelData` builds the enriched record |
| ConstantsHelper.EnrichedKeepsInput | app/Helpers/ConstantsHelper.php:28 | every input key other than the five labels keeps its value |
| ConstantsHelper.EnrichedAddsOnlyLabels | app/Helpers/ConstantsHelper.php:31-48 | only the five label keys can be added |
| ConstantsHelper.LabelAddedIffSourceSet | app/Helpers/ConstantsHelper.php:31-47 | a label is added exactly when its id column is set |
| ConstantsHelper.EnrichedIdempotent | app/Helpers/ConstantsHelper.php:26-52 | with the same table, enriching twice is enriching once |
| VehicleModel.AccessorsAgreeWithLabels | app/Models/Vehicle.php:142-177 | each of the five accessors gives the label `transformModelData` attaches for the same id column, and null when that column is unset |
| VehicleModel.GetConstantNames | app/Models/Vehicle.php:133-137 | `getConstantNames` is the enriched array form, other keys unchanged |
| VehicleModel.FuelLogs | app/Models/Vehicle.php:101-104 | the vehicle's fuel logs are exactly those whose `VEH_OID` is its `OID` |
| VehicleModel.MaintenanceRecords | app/Models/Vehicle.php:109-112 | the maintenance records are exactly those whose `VEHICLE_OID` is its `OID` |
| VehicleModel.GasBills | app/Models/Vehicle.php:117-120 | the gas bills are those whose `vehicle_id` is its `OID` |
| VehicleModel.Generators | app/Models/Vehicle.php:125-128 | the generators are exactly those whose `ASSIGNED_TO` is its `OID` |
| VehicleModel.GasBillsEmptyWithoutColumn | app/Models/Vehicle.php:117-120 | bills as stored have no `vehicle_id` column, so the relation is always empty |
| VehicleController.CriteriaMeaning | app/Http/Controllers/VehicleController.php:24-44 | a vehicle is listed exactly when it passes each present equality filter and, when searching, one of the three text columns contains the term |
| VehicleController.StationName | app/Http/Controllers/VehicleController.php:56-57 | the station name is the found station's `station_name`, or null when no station has that id |
| VehicleController.Views | app/Http/Controllers/VehicleController.php:51-61 | the transform maps every row of the page, in order |
| VehicleController.ViewShows | app/Http/Controllers/VehicleController.php:51-61 | a listed vehicle keeps its columns, gains a label for each set id column, and gains a station name exactly when `assigned_to` is truthy |
| VehicleController.BuildCriteria | app/Http/Controllers/VehicleController.php:21-44 | the successive `where` calls build the criteria |
| VehicleController.ViewOf | app/Http/Controllers/VehicleController.php:51-61 | the transform callback builds one vehicle's view |
| VehicleController.Transform | app/Http/Controllers/VehicleController.php:51-61 | the transform loop maps the page |
| VehicleController.Index | app/Http/Controllers/VehicleController.php:18-67 | `index` answers the enriched page of the filtered vehicles, newest `OID` first |
| VehicleController.IndexPage | app/Http/Controllers/VehicleController.php:47-61 | the listed page counts every match, holds at most `per_page` vehicles, each the view of a matching vehicle, with `OID`s descending |
| VehicleController.ViewsKeepOid | app/Http/Controllers/VehicleController.php:51-61 | enrichment never changes a vehicle's `OID`, so the page stays ordered |
| VehicleController.StoreNeeds | app/Http/Controllers/VehicleController.php:83-94 | a stored vehicle has a non-blank number of at most 100 characters and integer fuel-type and type ids |
| VehicleController.UpdateAllOptional | app/Http/Controllers/VehicleController.php:159-173 | an empty update body passes validation and writes nothing |
| VehicleController.Store | app/Http/Controllers/VehicleController.php:80-110 | `store` answers 201 and appends the created vehicle, or 500 with nothing written |
| VehicleController.Show | app/Http/Controllers/VehicleController.php:115-148 | `show` answers the enriched vehicle with its station name, or 404 |
| VehicleController.Update | app/Http/Controllers/VehicleController.php:154-187 | `update` answers 500 for a missing vehicle or a failed validation, otherwise overwrites the supplied fillable columns |
| VehicleController.Destroy | app/Http/Controllers/VehicleController.php:192-209 | `destroy` answers 500 for a missing vehicle; otherwise it removes it |
| VehicleController.FuelStatsOf | app/Http/Controllers/VehicleController.php:214-238 | the statistics count the vehicle's logs, sum their gallons, give their latest date (null when none has one) and the odometer, or 500 for a missing vehicle |
| AuthController.Session.constructor | app/Http/Controllers/AuthController.php:97 | a new session has no entries |
| AuthController.Session.Put | app/Http/Controllers/AuthController.php:97 | `put` sets one entry and keeps the rest and the CSRF token |
| AuthController.Session.Forget | app/Http/Controllers/AuthController.php:130 | `forget` drops one entry and keeps the rest |
| AuthController.Session.Invalidate | app/Http/Controllers/AuthController.php:133 | `invalidate` drops every entry |
| AuthController.Session.RegenerateToken | app/Http/Controllers/AuthController.php:134 | `regenerateToken` replaces the CSRF token and keeps the entries |
| AuthController.FindActive | app/Http/Controllers/AuthController.php:41-43 | the first user with that name and `USER_ACTIVE` 1, and absence only when there is none |
| AuthController.Decide | app/Http/Controllers/AuthController.php:26-83 | the outcome is invalid exactly when validation fails, unknown exactly when no active user has the name, and otherwise signed-in or wrong-password as the password test decides for that first user |
| AuthController.DecideMeaning | app/Http/Controllers/AuthController.php:41-83 | a signed-in user is an active user of the requested name whose password passed; "unknown" means no active user has that name |
| AuthController.SessionUser | app/Http/Controllers/AuthController.php:86-94 | the session's user entry is marked authenticated and carries the user's id and name |
| AuthController.Token | app/Http/Controllers/AuthController.php:100 | every token starts with `oracle-token-` |
| AuthController.Login | app/Http/Controllers/AuthController.php:18-122 | 422 and no session change on failed validation, 401 and no change for an unknown user or a wrong password, otherwise 200 with the token and user, which the session keeps under `user` |
| AuthController.Logout | app/Http/Controllers/AuthController.php:127-137 | after `logout` the session is empty and unauthenticated, with a new token, and the reply redirects to `/login` |
| AuthController.CheckAuth | app/Http/Controllers/AuthController.php:142-151 | `authenticated` is true exactly when the session's user entry has a truthy `authenticated`, and the user is returned only then |
| AuthController.CurrentUser | app/Http/Controllers/AuthController.php:156-165 | `user` answers 200 with the session user exactly when `checkAuth` would say authenticated, 401 otherwise |
| AuthController.LoginAuthenticates | app/Http/Controllers/AuthController.php:97-165 | after a login the session is authenticated as that user |
| AuthController.ShortCredentialRefused | app/Http/Controllers/AuthController.php:26-34 | a username or password shorter than three characters never passes validation |
| AuthController.HashedPasswordRejected | app/Http/Controllers/AuthController.php:78 | as written, an account whose stored password is the hash the users endpoint writes never signs in with its own password |
| AuthController.HashedPasswordAccepted | app/Http/Controllers/UserController.php:72-73 | with the hasher's check in place of the plaintext comparison, that same account signs in |
| DashboardController.CountWhere | app/Http/Controllers/DashboardController.php:25-30 | a conditional count is at most the number of rows, 0 exactly when no row passes and all exactly when every row passes |
| DashboardController.CountWhereMeaning | app/Http/Controllers/DashboardController.php:25-30 | a conditional count is the number of rows whose column passes the condition |
| DashboardController.TodayFuelLogs | app/Http/Controllers/DashboardController.php:25-26 | `whereDate(ENTRY_DATE, today())->count()` is the number of logs entered on today's date |
| DashboardController.MonthFuelLogs | app/Http/Controllers/DashboardController.php:27-30 | the `whereMonth`/`whereYear` count is the number of logs entered in this month of this year |
| DashboardController.TodayWithinMonth | app/Http/Controllers/DashboardController.php:25-30 | today's logs never outnumber this month's |
| DashboardController.CountWhereMonotone | app/Http/Controllers/DashboardController.php:25-30 | a weaker condition counts at least as many rows, so today's logs never outnumber this month's |
| DashboardController.IntCast | app/Http/Controllers/DashboardController.php:46 | PHP's `(int)` keeps integers and truncates other numbers toward zero |
| DashboardController.Summary | app/Http/Controllers/DashboardController.php:44-51 | a recent log's quantity is its gallons, 0 when null, and never null; its entry date is kept |
| DashboardController.Recent | app/Http/Controllers/DashboardController.php:40-52 | at most five logs, as many as there are up to five, newest entry date first, each the summary of a stored log |
| DashboardController.RecentAreNewest | app/Http/Controllers/DashboardController.php:40-43 | a log left out was entered no later than the last one shown |
| DashboardController.Stats | app/Http/Controllers/DashboardController.php:14-61 | the totals count the whole tables (every station counts as active); `todayFuelLogs` is the number of logs entered today and `thisMonthFuelLogs` the number entered this month and year, the first at most the second; the inventory figures are the column sums (0 for no snapshots); `recentFuelLogs` is the newest-first list of `Recent` |
| DashboardController.InventoryCoversEverySnapshot | app/Http/Controllers/DashboardController.php:33-36 | with non-negative quantities the inventory figure is at least the quantity of any single snapshot, the current one included |
| ConstantController.CriteriaMeaning | app/Http/Controllers/ConstantController.php:20-32 | a constant is listed exactly when, if searching, one of its two names contains the term and, if filtering, its type is the requested one |
| ConstantController.BuildCriteria | app/Http/Controllers/ConstantController.php:18-32 | the successive `where` calls build the criteria |
| ConstantController.Index | app/Http/Controllers/ConstantController.php:15-41 | `index` answers a page of the matching constants: total is the match count, at most `per_page` items, each matching, newest `OID` first |
| ConstantController.StoreNeeds | app/Http/Controllers/ConstantController.php:57-61 | a stored constant has a name of at most 80 characters; a supplied type has at most 40 and an English name at most 80 |
| ConstantController.LongNameRefused | app/Http/Controllers/ConstantController.php:58-110 | a name over 80 characters is refused by both `store` and `update` |
| ConstantController.Store | app/Http/Controllers/ConstantController.php:54-77 | `store` answers 201 and appends the created constant, or 500 with nothing written |
| ConstantController.Show | app/Http/Controllers/ConstantController.php:82-99 | `show` answers the constant, or 404 |
| ConstantController.Update | app/Http/Controllers/ConstantController.php:104-129 | `update` answers 500 for a missing constant or a failed validation, otherwise overwrites the supplied columns |
| ConstantController.Destroy | app/Http/Controllers/ConstantController.php:134-151 | `destroy` answers 500 for a missing constant; otherwise it removes it |
| ConstantController.ByType | app/Http/Controllers/ConstantController.php:156-159 | `getByType` returns exactly the constants of that type, drawn from the table |
| ConstantController.TypeOptions | app/Http/Controllers/ConstantController.php:178-183 | `getOptions` projects each constant of the type to its `OID` and name, in order |
| ConstantController.TypeOptionsComplete | app/Http/Controllers/ConstantController.php:178-183 | every option names a constant of the type, and every such constant has its option |
| ConstantController.Types | app/Http/Controllers/ConstantController.php:202-207 | `getTypes` lists every type in the table, null included, each exactly once |
| FuelLogController.CriteriaMeaning | app/Http/Controllers/VehicleFuelLogController.php:23-47 | a log is listed exactly when it passes each present equality filter and its fill-up date lies within the bounds given |
| FuelLogController.BuildCriteria | app/Http/Controllers/VehicleFuelLogController.php:21-47 | the successive `where` calls build the criteria |
| FuelLogController.Index | app/Http/Controllers/VehicleFuelLogController.php:18-50 | `index` answers a page of the matching logs, latest fill-up first, at most `per_page` of them, total the match count |
| FuelLogController.StoreNeeds | app/Http/Controllers/VehicleFuelLogController.php:72-84 | a stored log has an integer user, fuel id, year and gas type, a fill-up date and a non-negative quantity |
| FuelLogController.VehicleAndGeneratorNotExclusive | app/Http/Controllers/VehicleFuelLogController.php:73-82 | a valid log stays valid when it also names a generator: vehicle and generator are never checked for exclusivity |
| FuelLogController.Stored | app/Http/Controllers/VehicleFuelLogController.php:86-87 | the stored row carries `ENTRY_DATE` set to now, a fresh key, and the validated fillable columns |
| FuelLogController.Store | app/Http/Controllers/VehicleFuelLogController.php:69-100 | `store` answers 201 and appends the stamped row, or 500 with nothing written |
| FuelLogController.Show | app/Http/Controllers/VehicleFuelLogController.php:106-127 | `show` answers the log, or 404 |
| FuelLogController.UpdateKeepsFixed | app/Http/Controllers/VehicleFuelLogController.php:138-148 | an update never changes the log's user, fuel id, year, gas type or entry date |
| FuelLogController.Update | app/Http/Controllers/VehicleFuelLogController.php:133-160 | `update` answers 500 for a missing log or a failed validation, otherwise overwrites the supplied columns |
| FuelLogController.Destroy | app/Http/Controllers/VehicleFuelLogController.php:167-182 | `destroy` answers 500 for a missing log; otherwise it removes it |
| GasBillController.DateBoundsMeaning | app/Http/Controllers/VehGasBillController.php:48-54 | the date bounds keep exactly the bills dated on or after `date_from` and on or before `date_to`, each when given |
| GasBillController.CriteriaMeaning | app/Http/Controllers/VehGasBillController.php:23-59 | a bill is listed exactly when it passes each present equality filter, lies within the date bounds and carries the requested bill number |
| GasBillController.BuildCriteria | app/Http/Controllers/VehGasBillController.php:21-59 | the successive `where` calls build the criteria |
| GasBillController.Index | app/Http/Controllers/VehGasBillController.php:17-62 | `index` answers a page of the matching bills, latest bill date first, at most `per_page` of them, total the match count |
| GasBillController.StoreNeeds | app/Http/Controllers/VehGasBillController.php:84-97 | a stored bill has an integer station, bill type, entering user and fuel type and a non-negative quantity; a supplied price is a non-negative number |
| GasBillController.Store | app/Http/Controllers/VehGasBillController.php:81-112 | `store` answers 201 and appends the created bill, or 500 with nothing written |
| GasBillController.Show | app/Http/Controllers/VehGasBillController.php:118-134 | `show` answers the bill, or 404 |
| GasBillController.UpdateKeepsEnteringUser | app/Http/Controllers/VehGasBillController.php:145-159 | an update never changes the bill's entering user, which its rules do not list |
| GasBillController.Update | app/Http/Controllers/VehGasBillController.php:140-172 | `update` answers 500 for a missing bill or a failed validation, otherwise overwrites the supplied columns |
| GasBillController.Destroy | app/Http/Controllers/VehGasBillController.php:178-194 | `destroy` answers 500 for a missing bill; otherwise it removes it |
| GasBillController.SummaryOf | app/Http/Controllers/VehGasBillController.php:200-222 | `summary` counts the bills within the date bounds and sums their quantities and prices, echoing the bounds |
| GasBillController.SummaryBounds | app/Http/Controllers/VehGasBillController.php:214-216 | with non-negative quantities and prices the summary's totals lie between zero and the totals over all bills |
| GasBillController.SummaryAgreesWithIndex | app/Http/Controllers/VehGasBillController.php:205-214 | the summary counts exactly the bills an `index` with the same date bounds would list |
| GasBillController.Report | app/Http/Controllers/VehGasBillController.php:241-248 | `report` always answers 501 without data |
| GeneratorController.CriteriaMeaning | app/Http/Controllers/VehGeneratorController.php:23-55 | a generator is listed exactly when, if searching, its name or description contains the term, and it passes each present filter |
| GeneratorController.BuildCriteria | app/Http/Controllers/VehGeneratorController.php:21-55 | the successive `where` calls build the criteria |
| GeneratorController.Index | app/Http/Controllers/VehGeneratorController.php:18-58 | `index` answers a page of the matching generators, newest `OID` first, at most `per_page` of them, total the match count |
| GeneratorController.StoreNeeds | app/Http/Controllers/VehGeneratorController.php:80-97 | a stored generator has a non-blank name of at most 255 characters, integer assignee and fuel type, and non-negative quantities where supplied |
| GeneratorController.UnfillableDisjoint | app/Models/VehGenerator.php:32-43 | none of the thirteen other validated columns is mass assignable |
| GeneratorController.StoreKeepsOnlyThree | app/Http/Controllers/VehGeneratorController.php:80-99 | of what `store` validates only the name, assignee and fuel type reach the table |
| GeneratorController.UpdateKeepsOnlyThree | app/Http/Controllers/VehGeneratorController.php:145-164 | of what `update` validates only the name, assignee and fuel type reach the table |
| GeneratorController.Store | app/Http/Controllers/VehGeneratorController.php:77-112 | `store` answers 201 and appends the created generator, or 500 with nothing written |
| GeneratorController.Show | app/Http/Controllers/VehGeneratorController.php:118-134 | `show` answers the generator, or 404 |
| GeneratorController.Update | app/Http/Controllers/VehGeneratorController.php:140-177 | `update` answers 500 for a missing generator or a failed validation, otherwise overwrites the fillable columns |
| GeneratorController.Destroy | app/Http/Controllers/VehGeneratorController.php:183-199 | `destroy` answers 500 for a missing generator; otherwise it removes it |
| GeneratorController.ByFuelType | app/Http/Controllers/VehGeneratorController.php:205-212 | `getByFuelType` returns exactly the generators of that fuel type, drawn from the table, ordered by name |
| GeneratorController.StatsOf | app/Http/Controllers/VehGeneratorController.php:230-244 | `stats` counts all generators and those with a vehicle, reports `total_power_kw` and `total_operating_hours` as the sums of those columns, and per fuel type the number having it, each between one and the total |
| GeneratorController.FuelLogs | app/Http/Controllers/VehGeneratorController.php:262-285 | `fuelLogs` answers 500 for a missing generator, otherwise the generator and exactly its logs, newest fill-up first |
| GeneratorController.Report | app/Http/Controllers/VehGeneratorController.php:291-298 | `report` always answers 501 without data |
| StationController.CriteriaMeaning | app/Http/Controllers/StationController.php:21-34 | a station is listed exactly when, if searching, one of its names contains the term and, if filtering, its parent is the requested one |
| StationController.BuildCriteria | app/Http/Controllers/StationController.php:19-34 | the successive `where` calls build the criteria |
| StationController.StationsUnlabelled | app/Http/Controllers/StationController.php:39-41 | the label transform leaves a station row unchanged, since it has none of the labelled id columns |
| StationController.StoredStationIsStationRow | app/Http/Controllers/StationController.php:70 | every row `store` can create is a station row |
| StationController.Transformed | app/Http/Controllers/StationController.php:39-41 | the page items are transformed one by one, count and order kept |
| StationController.TransformedUnchanged | app/Http/Controllers/StationController.php:39-41 | on station rows the transform of the page is the identity |
| StationController.Index | app/Http/Controllers/StationController.php:16-51 | `index` answers a page of the matching stations by ascending weight, transformed; on station rows, the plain page |
| StationController.StoreNeeds | app/Http/Controllers/StationController.php:63-68 | a stored station has a name of at most 4000 characters; a supplied weight or parent is an integer |
| StationController.Store | app/Http/Controllers/StationController.php:60-82 | `store` answers 201 and appends the created station, or 500 with nothing written |
| StationController.Show | app/Http/Controllers/StationController.php:89-108 | `show` answers the transformed station, which is the station itself, or 404 |
| StationController.Update | app/Http/Controllers/StationController.php:114-139 | `update` answers 500 for a missing station or a failed validation, otherwise overwrites the supplied columns |
| StationController.Destroy | app/Http/Controllers/StationController.php:175-192 | `destroy` answers 500 for a missing station; otherwise it removes it |
| StationController.StationOptions | app/Http/Controllers/StationController.php:145-169 | `getStationOptions` gives one value/label option per station, every station's, by ascending name |
| GasStoreController.DateBoundsMeaning | app/Http/Controllers/GasStoreController.php:26-32 | the date bounds keep exactly the snapshots entered on or after `date_from` and on or before `date_to`, each when given |
| GasStoreController.CriteriaMeaning | app/Http/Controllers/GasStoreController.php:21-37 | a snapshot is listed exactly when it has the requested active flag, lies within the date bounds and holds at least the minimum gas |
| GasStoreController.BuildCriteria | app/Http/Controllers/GasStoreController.php:19-37 | the successive `where` calls build the criteria |
| GasStoreController.Index | app/Http/Controllers/GasStoreController.php:15-40 | `index` answers a page of the matching snapshots, latest entry first, at most `per_page` of them, total the match count |
| GasStoreController.AllOptional | app/Http/Controllers/GasStoreController.php:62-74 | every field of the rules is optional: an empty body validates |
| GasStoreController.QuantitiesNonNegative | app/Http/Controllers/GasStoreController.php:62-74 | the five quantities are non-negative numbers whenever supplied |
| GasStoreController.NoteBounded | app/Http/Controllers/GasStoreController.php:62-74 | a supplied note is text of at most 1000 characters |
| GasStoreController.Store | app/Http/Controllers/GasStoreController.php:59-89 | `store` answers 201 and appends the created snapshot, or 500 with nothing written |
| GasStoreController.Show | app/Http/Controllers/GasStoreController.php:95-111 | `show` answers the snapshot, or 404 |
| GasStoreController.Update | app/Http/Controllers/GasStoreController.php:117-149 | `update` answers 500 for a missing snapshot or a failed validation, otherwise overwrites the supplied columns |
| GasStoreController.Destroy | app/Http/Controllers/GasStoreController.php:155-171 | `destroy` answers 500 for a missing snapshot; otherwise it removes it |
| GasStoreController.StatsOf | app/Http/Controllers/GasStoreController.php:177-186 | `stats` counts all and the active snapshots and sums the gas, solar and bill columns |
| GasStoreController.ActiveFilter | app/Http/Controllers/GasStoreController.php:182 | `where('IS_ACTIVE', 1)` keeps exactly the active snapshots |
| GasStoreController.Current | app/Http/Controllers/GasStoreController.php:206-211 | `current` is absent exactly when no snapshot is active, otherwise an active snapshot entered no earlier than any other active one |
| GasStoreController.LatestFirst | app/Http/Controllers/GasStoreController.php:210-211 | the first of a descending order is at least as late as every snapshot sorted |
| GasStoreController.History | app/Http/Controllers/GasStoreController.php:230-243 | `history` lists exactly the snapshots within the date bounds, latest entry first, unpaginated |
| GasStoreController.Snapshot | app/Http/Controllers/GasStoreController.php:271-274 | the inserted row is dated now, active, freshly keyed and carries the validated fillable columns |
| GasStoreController.InventoryNeeds | app/Http/Controllers/GasStoreController.php:265-269 | a recorded inventory has a non-negative gas quantity |
| GasStoreController.UpdateInventory | app/Http/Controllers/GasStoreController.php:262-287 | `updateInventory` answers 500 on a failed validation; otherwise appends the new active snapshot and answers 200 |
| GasStoreController.CurrentAfterUpdate | app/Http/Controllers/GasStoreController.php:206-274 | the new snapshot becomes current when every other active one is older, and does not when one is dated later |
| GasStoreController.StatsAfterUpdate | app/Http/Controllers/GasStoreController.php:181-274 | an inventory update adds one snapshot, one active snapshot and its quantities to the statistics |
| GasStoreController.Report | app/Http/Controllers/GasStoreController.php:293-300 | `report` always answers 501 without data |
| MaintenanceController.FiltersMeaning | app/Http/Controllers/VehicleMaintenanceController.php:23-37 | the equality filters keep exactly the records with each present value |
| MaintenanceController.DateBoundsMeaning | app/Http/Controllers/VehicleMaintenanceController.php:40-46 | the date bounds keep exactly the records dated within the bounds given |
| MaintenanceController.CriteriaMeaning | app/Http/Controllers/VehicleMaintenanceController.php:23-46 | a record is listed exactly when it passes each present filter and lies within the date bounds |
| MaintenanceController.BuildCriteria | app/Http/Controllers/VehicleMaintenanceController.php:21-46 | the successive `where` calls build the criteria |
| MaintenanceController.Index | app/Http/Controllers/VehicleMaintenanceController.php:17-49 | `index` answers a page of the matching records, latest maintenance first, at most `per_page` (15 by default), total the match count |
| MaintenanceController.StoreNeeds | app/Http/Controllers/VehicleMaintenanceController.php:71-86 | a stored record names its vehicle, type, id and year as integers and a numeric mileage |
| MaintenanceController.RequiredInteger | app/Http/Controllers/VehicleMaintenanceController.php:71-86 | every required integer field of `store` is present as an integer |
| MaintenanceController.UpdateKeepsFixed | app/Http/Controllers/VehicleMaintenanceController.php:134-147 | an update never changes the record's id, year, entering user or driver |
| MaintenanceController.Store | app/Http/Controllers/VehicleMaintenanceController.php:68-101 | `store` answers 201 and appends the created record, or 500 with nothing written |
| MaintenanceController.Show | app/Http/Controllers/VehicleMaintenanceController.php:107-123 | `show` answers the record, or 404 |
| MaintenanceController.Update | app/Http/Controllers/VehicleMaintenanceController.php:129-160 | `update` answers 500 for a missing record or a failed validation, otherwise overwrites the supplied columns |
| MaintenanceController.Destroy | app/Http/Controllers/VehicleMaintenanceController.php:166-182 | `destroy` answers 500 for a missing record; otherwise it removes it |
| UserController.CriteriaMeaning | app/Http/Controllers/UserController.php:21-38 | a user is listed exactly when the login or full name contains the search term and both flags have the requested values |
| UserController.BuildCriteria | app/Http/Controllers/UserController.php:19-38 | the successive `where` calls build the criteria |
| UserController.Index | app/Http/Controllers/UserController.php:16-41 | `index` answers a page of the matching users, newest key first, at most `per_page` of them, total the match count |
| UserController.StoreNeeds | app/Http/Controllers/UserController.php:63-70 | a new account carries a login and a password of at most 30 characters and a full name of at most 100 |
| UserController.Flag | app/Http/Controllers/UserController.php:76-144 | `$x ? 1 : 0` is 0 or 1 and as truthy as `$x` |
| UserController.NewAttributes | app/Http/Controllers/UserController.php:72-77 | `store` replaces the password by its hash and writes both flags as 1 or 0, copying everything else |
| UserController.ChangedAttributes | app/Http/Controllers/UserController.php:134-145 | `update` hashes a set password and writes each set flag as 1 or 0, copying everything else |
| UserController.Store | app/Http/Controllers/UserController.php:60-92 | `store` answers 500 when validation or a uniqueness rule fails, otherwise 201 and appends the account |
| UserController.StampAgrees | app/Http/Controllers/UserController.php:63-77 | the computed columns are the same whether taken from the request or from what validation keeps |
| UserController.NewAccountShape | app/Http/Controllers/UserController.php:72-79 | the stored account holds the password's hash, never the password, and 0/1 flags |
| UserController.StoreKeepsNamesUnique | app/Http/Controllers/UserController.php:64-79 | a successful `store` keeps logins unique |
| UserController.AppendKeepsUnique | app/Http/Controllers/UserController.php:64-79 | appending a row whose login nobody holds keeps logins unique |
| UserController.NotTakenMeans | app/Http/Controllers/UserController.php:64-126 | a login the `unique` rule accepts differs from every other row's login |
| UserController.StoredName | app/Http/Controllers/UserController.php:64-79 | the stored login is the supplied string |
| UserController.Update | app/Http/Controllers/UserController.php:120-160 | `update` answers 500 for a missing user, a failed validation or a login or SSN held by another; otherwise overwrites the changed attributes |
| UserController.UpdateKeepsNamesUnique | app/Http/Controllers/UserController.php:126-147 | a successful `update` keeps logins unique |
| UserController.Show | app/Http/Controllers/UserController.php:98-114 | `show` answers the user, or 404 |
| UserController.Destroy | app/Http/Controllers/UserController.php:166-182 | `destroy` answers 500 for a missing user; otherwise it removes it |
| UserController.Flipped | app/Http/Controllers/UserController.php:192 | `$x ? 0 : 1` is 0 or 1 and truthy exactly when `$x` is not |
| UserController.Toggled | app/Http/Controllers/UserController.php:192 | `toggleStatus` flips the active flag's truthiness and changes nothing else |
| UserController.ToggleTwice | app/Http/Controllers/UserController.php:188-192 | toggling twice restores a 0/1 flag |
| UserController.ToggleStatus | app/Http/Controllers/UserController.php:188-205 | `toggleStatus` answers 500 for a missing user; otherwise flips the flag in place |
| UserController.ActivityOf | app/Http/Controllers/UserController.php:214-222 | the activity counts the user's bills and logs and reports the latest log entry date, which bounds every log's and is one of them |
| UserController.LatestOfOwn | app/Http/Controllers/UserController.php:219 | the maximum entry date bounds every dated log of the user and is attained |
| UserController.UserStats | app/Http/Controllers/UserController.php:211-235 | `userStats` answers 500 for a missing user, otherwise 200 with the activity |
| JsValues.OrZero | fuel-management-system/src/pages/DashboardPage.tsx:52 | `x || 0` is the number itself, and 0 for a missing or falsy field |
| JsValues.LowerOpt | fuel-management-system/src/pages/VehiclesPage.tsx:142-143 | `s?.toLowerCase()` lower-cases the ASCII letters of a string and is `undefined` for anything else |
| JsValues.Includes | fuel-management-system/src/components/common/Sidebar.tsx:113 | `user?.permissions?.includes(p)` is undefined without a user or a permission list, otherwise true exactly when the list holds `p` |
| ClientLists.FindIndex | fuel-management-system/src/store/slices/vehiclesSlice.ts:210 | `findIndex` gives the first index holding the oid, or -1 exactly when none does |
| ClientLists.Overwrite | fuel-management-system/src/store/slices/vehiclesSlice.ts:210-213 | the update reducer replaces the first element with the payload's oid and leaves the list unchanged when none matches |
| ClientLists.RemoveOid | fuel-management-system/src/store/slices/vehiclesSlice.ts:228 | `filter(x => x.oid !== oid)` keeps exactly the elements with another oid, in order, dropping as many as held it |
| ClientLists.RemovedIsGone | fuel-management-system/src/store/slices/vehiclesSlice.ts:228 | after the removal no element holds the oid |
| ClientLists.Spread | fuel-management-system/src/store/slices/vehiclesSlice.ts:148 | `{ ...base, ...patch }` takes the patch's values and keeps the other keys of the base |
| ClientLists.SelectedOid | fuel-management-system/src/store/slices/vehiclesSlice.ts:214-229 | `selected?.oid` is undefined when nothing is selected |
| ClientLists.ParamsOf | fuel-management-system/src/store/slices/vehiclesSlice.ts:40-44 | the query string has at most one parameter per filter entry |
| ClientLists.ParamsFromSetEntries | fuel-management-system/src/store/slices/vehiclesSlice.ts:40-44 | every parameter comes from an entry whose value is neither undefined nor null |
| ClientLists.SetEntriesGiveParams | fuel-management-system/src/store/slices/vehiclesSlice.ts:40-44 | every entry whose value is set gives its parameter |
| ClientLists.BuildParams | fuel-management-system/src/store/slices/vehiclesSlice.ts:39-44 | the `forEach` loop appends exactly the parameters of the set entries, in entry order |
| ClientLists.ParamsNameSetFilters | fuel-management-system/src/store/slices/vehiclesSlice.ts:39-44 | the query string names a filter exactly when the filter object holds it with a set value |
| VehiclesSlice.VehiclesState.constructor | fuel-management-system/src/store/slices/vehiclesSlice.ts:18-33 | the initial state: no vehicles, nothing selected, not loading, no error, page 1 of 10 and empty pagination |
| VehiclesSlice.VehiclesState.SetFilters | fuel-management-system/src/store/slices/vehiclesSlice.ts:147-149 | `setFilters` lays the payload over the current filters |
| VehiclesSlice.VehiclesState.ClearFilters | fuel-management-system/src/store/slices/vehiclesSlice.ts:150-152 | `clearFilters` restores page 1 of 10 |
| VehiclesSlice.VehiclesState.SetSelectedVehicle | fuel-management-system/src/store/slices/vehiclesSlice.ts:153-155 | `setSelectedVehicle` stores the payload |
| VehiclesSlice.VehiclesState.ClearError | fuel-management-system/src/store/slices/vehiclesSlice.ts:156-158 | `clearError` clears the error |
| VehiclesSlice.VehiclesState.Pending | fuel-management-system/src/store/slices/vehiclesSlice.ts:162-225 | every pending request sets loading and clears the error |
| VehiclesSlice.VehiclesState.Rejected | fuel-management-system/src/store/slices/vehiclesSlice.ts:176-236 | every rejected request stops loading and records its message |
| VehiclesSlice.VehiclesState.FetchFulfilled | fuel-management-system/src/store/slices/vehiclesSlice.ts:166-175 | a fetched page replaces the list and its counters the pagination |
| VehiclesSlice.VehiclesState.FetchByIdFulfilled | fuel-management-system/src/store/slices/vehiclesSlice.ts:184-187 | a fetched vehicle becomes the selection |
| VehiclesSlice.VehiclesState.CreateFulfilled | fuel-management-system/src/store/slices/vehiclesSlice.ts:196-199 | a created vehicle is appended |
| VehiclesSlice.VehiclesState.UpdateFulfilled | fuel-management-system/src/store/slices/vehiclesSlice.ts:208-217 | an updated vehicle overwrites the first with its oid and refreshes a selection with that oid |
| VehiclesSlice.VehiclesState.DeleteFulfilled | fuel-management-system/src/store/slices/vehiclesSlice.ts:226-232 | a deletion removes every vehicle with the oid and a selection with it |
| GeneratorsSlice.GeneratorsState.constructor | fuel-management-system/src/store/slices/generatorsSlice.ts:11-16 | the initial state: no generators, nothing selected, not loading, no error |
| GeneratorsSlice.GeneratorsState.SetSelectedGenerator | fuel-management-system/src/store/slices/generatorsSlice.ts:123-125 | `setSelectedGenerator` stores the payload |
| GeneratorsSlice.GeneratorsState.ClearError | fuel-management-system/src/store/slices/generatorsSlice.ts:126-128 | `clearError` clears the error |
| GeneratorsSlice.GeneratorsState.Pending | fuel-management-system/src/store/slices/generatorsSlice.ts:132-189 | every pending request sets loading and clears the error |
| GeneratorsSlice.GeneratorsState.Rejected | fuel-management-system/src/store/slices/generatorsSlice.ts:140-200 | every rejected request stops loading and records its message |
| GeneratorsSlice.GeneratorsState.FetchFulfilled | fuel-management-system/src/store/slices/generatorsSlice.ts:136-139 | the fetched list replaces the generators |
| GeneratorsSlice.GeneratorsState.FetchByIdFulfilled | fuel-management-system/src/store/slices/generatorsSlice.ts:148-151 | a fetched generator becomes the selection |
| GeneratorsSlice.GeneratorsState.CreateFulfilled | fuel-management-system/src/store/slices/generatorsSlice.ts:160-163 | a created generator is appended |
| GeneratorsSlice.GeneratorsState.UpdateFulfilled | fuel-management-system/src/store/slices/generatorsSlice.ts:172-181 | an updated generator overwrites the first with its oid and refreshes a selection with that oid |
| GeneratorsSlice.GeneratorsState.DeleteFulfilled | fuel-management-system/src/store/slices/generatorsSlice.ts:190-196 | a deletion removes every generator with the oid and a selection with it |
| FuelLogsSlice.FuelLogsState.constructor | fuel-management-system/src/store/slices/fuelLogsSlice.ts:18-33 | the initial state: no logs, nothing selected, not loading, no error, page 1 of 10 and empty pagination |
| FuelLogsSlice.FuelLogsState.SetFilters | fuel-management-system/src/store/slices/fuelLogsSlice.ts:130-132 | `setFilters` lays the payload over the current filters |
| FuelLogsSlice.FuelLogsState.ClearFilters | fuel-management-system/src/store/slices/fuelLogsSlice.ts:133-135 | `clearFilters` restores page 1 of 10 |
| FuelLogsSlice.FuelLogsState.SetSelectedFuelLog | fuel-management-system/src/store/slices/fuelLogsSlice.ts:136-138 | `setSelectedFuelLog` stores the payload |
| FuelLogsSlice.FuelLogsState.ClearError | fuel-management-system/src/store/slices/fuelLogsSlice.ts:139-141 | `clearError` clears the error |
| FuelLogsSlice.FuelLogsState.Pending | fuel-management-system/src/store/slices/fuelLogsSlice.ts:145-196 | every pending request sets loading and clears the error |
| FuelLogsSlice.FuelLogsState.Rejected | fuel-management-system/src/store/slices/fuelLogsSlice.ts:159-207 | every rejected request stops loading and records its message |
| FuelLogsSlice.FuelLogsState.FetchFulfilled | fuel-management-system/src/store/slices/fuelLogsSlice.ts:149-158 | a fetched page replaces the list and its counters the pagination |
| FuelLogsSlice.FuelLogsState.CreateFulfilled | fuel-management-system/src/store/slices/fuelLogsSlice.ts:167-170 | a created log is put first |
| FuelLogsSlice.FuelLogsState.UpdateFulfilled | fuel-management-system/src/store/slices/fuelLogsSlice.ts:179-188 | an updated log overwrites the first with its oid and refreshes a selection with that oid |
| FuelLogsSlice.FuelLogsState.DeleteFulfilled | fuel-management-system/src/store/slices/fuelLogsSlice.ts:197-203 | a deletion removes every log with the oid and a selection with it |
| InvoicesSlice.InvoicesState.constructor | fuel-management-system/src/store/slices/invoicesSlice.ts:18-33 | the initial state: no invoices, nothing selected, not loading, no error, page 1 of 10 and empty pagination |
| InvoicesSlice.InvoicesState.SetFilters | fuel-management-system/src/store/slices/invoicesSlice.ts:87-89 | `setFilters` lays the payload over the current filters |
| InvoicesSlice.InvoicesState.ClearFilters | fuel-management-system/src/store/slices/invoicesSlice.ts:90-92 | `clearFilters` restores page 1 of 10 |
| InvoicesSlice.InvoicesState.SetSelectedInvoice | fuel-management-system/src/store/slices/invoicesSlice.ts:93-95 | `setSelectedInvoice` stores the payload |
| InvoicesSlice.InvoicesState.ClearError | fuel-management-system/src/store/slices/invoicesSlice.ts:96-98 | `clearError` clears the error |
| InvoicesSlice.InvoicesState.Pending | fuel-management-system/src/store/slices/invoicesSlice.ts:102-123 | both pending requests set loading and clear the error |
| InvoicesSlice.InvoicesState.Rejected | fuel-management-system/src/store/slices/invoicesSlice.ts:116-131 | both rejected requests stop loading and record their message |
| InvoicesSlice.InvoicesState.FetchFulfilled | fuel-management-system/src/store/slices/invoicesSlice.ts:106-115 | a fetched page replaces the list and its counters the pagination |
| InvoicesSlice.InvoicesState.CreateFulfilled | fuel-management-system/src/store/slices/invoicesSlice.ts:124-127 | a created invoice is put first |
| ConstantsSlice.Bucket | fuel-management-system/src/store/slices/constantsSlice.ts:54-61 | the bucket of a type holds exactly the constants of that type, in list order |
| ConstantsSlice.TypesIn | fuel-management-system/src/store/slices/constantsSlice.ts:54-61 | a type has a bucket exactly when some constant carries it |
| ConstantsSlice.BucketAppend | fuel-management-system/src/store/slices/constantsSlice.ts:59 | appending a constant adds it to the end of its own bucket and no other |
| ConstantsSlice.BucketSizesSum | fuel-management-system/src/store/slices/constantsSlice.ts:54-61 | the bucket sizes add up to the number of typed constants: each typed constant is in exactly one bucket |
| ConstantsSlice.TypesInAppend | fuel-management-system/src/store/slices/constantsSlice.ts:55-58 | appending an untyped constant adds no type; a typed one adds its type |
| ConstantsSlice.AddToGroup | fuel-management-system/src/store/slices/constantsSlice.ts:54-61 | one `reduce` step skips an untyped constant and otherwise opens the bucket if new and appends the constant, leaving other buckets alone |
| ConstantsSlice.GroupedAppend | fuel-management-system/src/store/slices/constantsSlice.ts:54-61 | each `reduce` step keeps the accumulator holding exactly the buckets of the constants seen so far |
| ConstantsSlice.ConstantsState.constructor | fuel-management-system/src/store/slices/constantsSlice.ts:11-16 | the initial state: no constants, no groups, not loading, no error |
| ConstantsSlice.ConstantsState.ClearError | fuel-management-system/src/store/slices/constantsSlice.ts:39-41 | `clearError` clears the error |
| ConstantsSlice.ConstantsState.Pending | fuel-management-system/src/store/slices/constantsSlice.ts:45-48 | the pending fetch sets loading and clears the error |
| ConstantsSlice.ConstantsState.Rejected | fuel-management-system/src/store/slices/constantsSlice.ts:65-68 | the rejected fetch stops loading and records its message |
| ConstantsSlice.ConstantsState.Fulfilled | fuel-management-system/src/store/slices/constantsSlice.ts:49-64 | the fetched list is kept as given and grouped exactly into its buckets, one per type present |
| InventorySlice.InventoryState.constructor | fuel-management-system/src/store/slices/inventorySlice.ts:11-16 | the initial state: no current snapshot, no history, not loading, no error |
| InventorySlice.InventoryState.ClearError | fuel-management-system/src/store/slices/inventorySlice.ts:56-58 | `clearError` clears the error |
| InventorySlice.InventoryState.Pending | fuel-management-system/src/store/slices/inventorySlice.ts:62-77 | either pending fetch sets the shared loading flag and clears the error |
| InventorySlice.InventoryState.Rejected | fuel-management-system/src/store/slices/inventorySlice.ts:70-85 | either rejected fetch stops loading and records its message |
| InventorySlice.InventoryState.CurrentFulfilled | fuel-management-system/src/store/slices/inventorySlice.ts:66-69 | the fetched snapshot becomes the current inventory and the flag drops |
| InventorySlice.InventoryState.HistoryFulfilled | fuel-management-system/src/store/slices/inventorySlice.ts:78-81 | the fetched history replaces the history and the flag drops |
| InventorySlice.SharedFlag | fuel-management-system/src/store/slices/inventorySlice.ts:62-81 | with both fetches started and one finished, the flag already reads not loading |
| StationsSlice.StationsState.constructor | fuel-management-system/src/store/slices/stationsSlice.ts:10-14 | the initial state: no stations, not loading, no error |
| StationsSlice.StationsState.ClearError | fuel-management-system/src/store/slices/stationsSlice.ts:37-39 | `clearError` clears the error |
| StationsSlice.StationsState.Pending | fuel-management-system/src/store/slices/stationsSlice.ts:43-46 | the pending fetch sets loading and clears the error |
| StationsSlice.StationsState.Fulfilled | fuel-management-system/src/store/slices/stationsSlice.ts:47-50 | the fetched list replaces the stations |
| StationsSlice.StationsState.Rejected | fuel-management-system/src/store/slices/stationsSlice.ts:51-54 | the rejected fetch stops loading and records its message |
| DataTable.WithoutId | fuel-management-system/src/components/tables/DataTable.tsx:98-100 | dropping an id keeps exactly the selected rows with another id, in order |
| DataTable.SelectItem | fuel-management-system/src/components/tables/DataTable.tsx:86-104 | toggling a row hands nothing on without a callback, appends an unselected row, and drops a selected one with every row sharing its id, shrinking the selection |
| DataTable.WithoutAbsentId | fuel-management-system/src/components/tables/DataTable.tsx:98-100 | dropping an id no selected row has changes nothing |
| DataTable.WithoutAppend | fuel-management-system/src/components/tables/DataTable.tsx:95-100 | filtering an appended row filters the prefix and the row apart |
| DataTable.ToggleTwice | fuel-management-system/src/components/tables/DataTable.tsx:86-104 | toggling a row twice restores an unselected selection exactly and a selected one up to order |
| DataTable.SelectAll | fuel-management-system/src/components/tables/DataTable.tsx:76-84 | select-all hands on every loaded row when checked, none when cleared, nothing without a callback |
| DataTable.SelectAllHeader | fuel-management-system/src/components/tables/DataTable.tsx:106-162 | after select-all the header box is ticked, after clearing it is neither ticked nor dashed, and never both |
| DataTable.ColSpan | fuel-management-system/src/components/tables/DataTable.tsx:194-204 | the full-row cell spans the columns plus one for the selection box and one for the actions |
| DataTable.ColSpanCoversHeader | fuel-management-system/src/components/tables/DataTable.tsx:156-194 | the full-row cell spans exactly the header row |
| FormRules.RequiredMeansSet | fuel-management-system/src/components/forms/VehicleForm.tsx:24-25 | a required field passes only with a set value, and a required string only when it is not empty |
| FormRules.SubmitPayload | fuel-management-system/src/components/forms/VehicleForm.tsx:116-123 | the submitted payload is the form data when creating and the data with the edited oid when editing |
| VehicleForm.ValidMeans | fuel-management-system/src/components/forms/VehicleForm.tsx:23-39 | the schema holds exactly when a number and model are given, the model year lies within 1980 to next year, capacities are positive and the odometer non-negative when given |
| VehicleForm.DefaultsInvalid | fuel-management-system/src/components/forms/VehicleForm.tsx:69-82 | a new vehicle cannot be submitted untouched |
| VehicleForm.EditValues | fuel-management-system/src/components/forms/VehicleForm.tsx:84-99 | an edit copies truthy fields, turns falsy strings into '' and falsy numbers, 0 included, into null |
| VehicleForm.EditKeepsValid | fuel-management-system/src/components/forms/VehicleForm.tsx:84-99 | a valid stored vehicle stays valid after the edit reset, an odometer of 0 coming back as null |
| VehicleForm.Submit | fuel-management-system/src/components/forms/VehicleForm.tsx:116-157 | a failing form is not submitted; a passing one is, with the oid when editing |
| FuelLogForm.ValidMeans | fuel-management-system/src/components/forms/FuelLogForm.tsx:30-42 | the schema holds exactly when the fields meet their rules and a vehicle or a generator is chosen |
| FuelLogForm.BothEntitiesPass | fuel-management-system/src/components/forms/FuelLogForm.tsx:40-42 | a log naming both a vehicle and a generator passes the test |
| FuelLogForm.DefaultsInvalid | fuel-management-system/src/components/forms/FuelLogForm.tsx:78-90 | a new log cannot be submitted untouched |
| FuelLogForm.EditValues | fuel-management-system/src/components/forms/FuelLogForm.tsx:94-108 | an edit copies truthy numbers, turns falsy ones into null, a missing note into '' and a missing date into now |
| FuelLogForm.EntityOf | fuel-management-system/src/components/forms/FuelLogForm.tsx:96 | the edit starts on the vehicle side exactly when the log has a vehicle |
| FuelLogForm.Cleared | fuel-management-system/src/components/forms/FuelLogForm.tsx:123-130 | the vehicle side clears the generator; the generator side clears the vehicle and the odometer; nothing else changes |
| FuelLogForm.EditKeepsValid | fuel-management-system/src/components/forms/FuelLogForm.tsx:94-130 | a valid stored log stays valid after the edit reset and the entity effect |
| FuelLogForm.ZeroQuantityEditInvalid | fuel-management-system/src/components/forms/FuelLogForm.tsx:94-108 | a stored quantity of 0 comes back as null and the form is then invalid |
| FuelLogForm.FuelLogFormState.constructor | fuel-management-system/src/components/forms/FuelLogForm.tsx:64-90 | the form starts with the defaults on the vehicle side |
| FuelLogForm.FuelLogFormState.Reset | fuel-management-system/src/components/forms/FuelLogForm.tsx:94-121 | the reset sets the entity type and the edit values for a log, and the defaults otherwise |
| FuelLogForm.FuelLogFormState.SetEntityType | fuel-management-system/src/components/forms/FuelLogForm.tsx:185-190 | the toggle sets the entity type |
| FuelLogForm.FuelLogFormState.ApplyEntityType | fuel-management-system/src/components/forms/FuelLogForm.tsx:123-130 | the entity effect clears the other side |
| FuelLogForm.FuelLogFormState.Submit | fuel-management-system/src/components/forms/FuelLogForm.tsx:132-177 | the form is submitted exactly when it passes the schema, with the payload of `handleFormSubmit` |
| InvoiceForm.ValidMeans | fuel-management-system/src/components/forms/InvoiceForm.tsx:28-36 | the schema holds exactly when the bill number, quantity and price are positive and a date and fuel type are given |
| InvoiceForm.TotalAmount | fuel-management-system/src/components/forms/InvoiceForm.tsx:79 | the total is the quantity times the price, and 0 when either is missing |
| InvoiceForm.ValidTotalPositive | fuel-management-system/src/components/forms/InvoiceForm.tsx:28-79 | a form that passes the schema shows a positive total |
| InvoiceForm.DefaultsInvalid | fuel-management-system/src/components/forms/InvoiceForm.tsx:66-79 | a new invoice cannot be submitted untouched and shows a total of 0 |
| InvoiceForm.EditValues | fuel-management-system/src/components/forms/InvoiceForm.tsx:81-92 | an edit copies truthy fields, turns falsy numbers into null, a missing note into '' and a missing date into now |
| InvoiceForm.ZeroFuelTypeEditInvalid | fuel-management-system/src/components/forms/InvoiceForm.tsx:81-92 | a stored fuel type id of 0 comes back as null, which the required rule rejects |
| InvoiceForm.EditKeepsValid | fuel-management-system/src/components/forms/InvoiceForm.tsx:81-92 | a valid stored invoice with a non-zero fuel type stays valid after the edit reset |
| InvoiceForm.Submit | fuel-management-system/src/components/forms/InvoiceForm.tsx:105-147 | a failing form is not submitted; a passing one is, with the oid when editing |
| GeneratorForm.ValidMeans | fuel-management-system/src/components/forms/GeneratorForm.tsx:22-28 | the schema holds exactly when a name is given and a capacity, when given, is positive |
| GeneratorForm.DefaultsInvalid | fuel-management-system/src/components/forms/GeneratorForm.tsx:57-63 | a new generator cannot be submitted untouched |
| GeneratorForm.EditValues | fuel-management-system/src/components/forms/GeneratorForm.tsx:66-75 | an edit copies truthy fields, turns a falsy name or vehicle number into '' and a falsy number into null |
| GeneratorForm.EditKeepsValid | fuel-management-system/src/components/forms/GeneratorForm.tsx:66-75 | a valid stored generator stays valid after the edit reset |
| GeneratorForm.Submit | fuel-management-system/src/components/forms/GeneratorForm.tsx:86-127 | a failing form is not submitted; a passing one is, with the oid when editing |
| PageActions.TryFeedback | fuel-management-system/src/pages/VehiclesPage.tsx:117-139 | a `try`/`catch` handler reports success exactly when the awaited call does not throw |
| PageActions.RejectedReportsSuccess | fuel-management-system/src/pages/VehiclesPage.tsx:98-114 | as written, a rejected delete or save is still reported as a success: awaiting a dispatched thunk never throws |
| PageActions.UnwrappedFeedbackIsFaithful | fuel-management-system/src/pages/VehiclesPage.tsx:98-114 | awaiting the unwrapped result, success is reported exactly for a fulfilled request |
| PageActions.ChipLabel | fuel-management-system/src/pages/VehiclesPage.tsx:141-151 | a status chip shows the status name, or the placeholder when it is missing or empty, and is never blank |
| PageActions.SubmitRequest | fuel-management-system/src/pages/VehiclesPage.tsx:117-131 | `handleFormSubmit` dispatches an update while editing and a create otherwise, with the form data |
| PageActions.DeleteDialog.constructor | fuel-management-system/src/pages/VehiclesPage.tsx:57-58 | the dialog starts closed with nothing pending |
| PageActions.DeleteDialog.Request | fuel-management-system/src/pages/VehiclesPage.tsx:93-96 | asking to delete an item remembers it and opens the dialog |
| PageActions.DeleteDialog.Cancel | fuel-management-system/src/pages/VehiclesPage.tsx:408-418 | closing or cancelling the dialog closes it |
| PageActions.DeleteDialog.Confirm | fuel-management-system/src/pages/VehiclesPage.tsx:98-115 | confirming sends the delete of the pending oid and, as written, always reports success, closes the dialog and forgets the item; without a pending item nothing happens |
| PageActions.Submit | fuel-management-system/src/pages/VehiclesPage.tsx:117-139 | a submission dispatches its request and, as written, always reports success and closes the form |
| PageActions.PageSizePatch | fuel-management-system/src/pages/VehiclesPage.tsx:386 | a rows-per-page change sets the page size and page 0, keeping the other filters |
| PageActions.PagePatch | fuel-management-system/src/pages/VehiclesPage.tsx:385 | a page change sets the page, keeping the other filters |
| PageActions.MergeOfSpreadPatch | fuel-management-system/src/pages/VehiclesPage.tsx:385-386 | merging a patch that already spreads the filters yields the patch |
| PageActions.PageSizeResetDisagreesWithClear | fuel-management-system/src/pages/VehiclesPage.tsx:386 | after a rows-per-page change the filters ask for page 0, while the initial filters ask for page 1 |
| GeneratorsPage.Filter | fuel-management-system/src/pages/GeneratorsPage.tsx:66-72 | the search keeps exactly the generators whose name, vehicle number or assignee contains the term, ignoring ASCII case, in order |
| GeneratorsPage.Search | fuel-management-system/src/pages/GeneratorsPage.tsx:64-76 | a blank term lists every generator; otherwise the matching ones |
| GeneratorsPage.PaddedTermMissesName | fuel-management-system/src/pages/GeneratorsPage.tsx:65-70 | the term is trimmed only to decide whether to search, so " ab" misses the generator named "ab" |
| GeneratorsPage.FooterOf | fuel-management-system/src/pages/GeneratorsPage.tsx:349-354 | the count shows when not loading and something is listed, with the total loaded whenever the search box is not empty |
| GeneratorsPage.BlankTermShowsTotal | fuel-management-system/src/pages/GeneratorsPage.tsx:349-354 | a blank but non-empty term lists every generator and still shows the "out of" total |
| GeneratorsPage.GeneratorsPageState.constructor | fuel-management-system/src/pages/GeneratorsPage.tsx:56-57 | the search box starts empty, with nothing listed |
| GeneratorsPage.GeneratorsPageState.SetSearchTerm | fuel-management-system/src/pages/GeneratorsPage.tsx:272-273 | typing sets the search term |
| GeneratorsPage.GeneratorsPageState.SearchEffect | fuel-management-system/src/pages/GeneratorsPage.tsx:64-76 | the effect stores the search result, drawn from the loaded generators in order |
| InvoicesPage.QuantitySum | fuel-management-system/src/pages/InvoicesPage.tsx:123 | the total quantity is 0 when no invoice has a quantity and non-negative when none is negative |
| InvoicesPage.AmountSum | fuel-management-system/src/pages/InvoicesPage.tsx:122 | the total amount is 0 when every invoice lacks a quantity or a price |
| InvoicesPage.SummaryOf | fuel-management-system/src/pages/InvoicesPage.tsx:121-123 | the summary counts the invoices, with zero totals for an empty list |
| InvoicesPage.AveragePrice | fuel-management-system/src/pages/InvoicesPage.tsx:271 | the average card is shown exactly while the total quantity is positive, and times it gives the total amount |
| InvoicesPage.AmountColumn | fuel-management-system/src/pages/InvoicesPage.tsx:170-178 | the amount column holds each row's quantity times price |
| InvoicesPage.ColumnSumsToTotal | fuel-management-system/src/pages/InvoicesPage.tsx:122-178 | the amount column adds up to the total amount card |
| InvoicesPage.SumsSplit | fuel-management-system/src/pages/InvoicesPage.tsx:122-123 | both totals split over a concatenation of lists |
| InvoicesPage.SumsAreWeighted | fuel-management-system/src/pages/InvoicesPage.tsx:122-123 | the quantity card is the sum of the weights and the amount card the weighted sum of the prices |
| InvoicesPage.WeightedAtLeast | fuel-management-system/src/pages/InvoicesPage.tsx:122-123 | with every price at least `lo`, the amount is at least `lo` times the quantity |
| InvoicesPage.WeightedAtMost | fuel-management-system/src/pages/InvoicesPage.tsx:122-123 | with every price at most `hi`, the amount is at most `hi` times the quantity |
| InvoicesPage.AmountWithinPrices | fuel-management-system/src/pages/InvoicesPage.tsx:122-123 | with non-negative quantities and prices within bounds, the total amount lies within the bounds times the total quantity |
| InvoicesPage.QuotientBounds | fuel-management-system/src/pages/InvoicesPage.tsx:271 | an amount between the bounds times a positive quantity divides to a price between them |
| InvoicesPage.AverageWithinPrices | fuel-management-system/src/pages/InvoicesPage.tsx:271 | the average price shown lies between the cheapest and the dearest price |
| InvoicesPage.FormatCurrency | fuel-management-system/src/pages/InvoicesPage.tsx:115-118 | a zero amount shows "0", any other ends with the currency name |
| InvoicesPage.MissingQuantityShowsZero | fuel-management-system/src/pages/InvoicesPage.tsx:115-177 | a row without a quantity shows a total of "0" |
| InvoicesPage.Submit | fuel-management-system/src/pages/InvoicesPage.tsx:85-107 | editing dispatches nothing, the update being commented out, creating dispatches the create; both report success and close the form |
| InvoicesPage.NeverUpdates | fuel-management-system/src/pages/InvoicesPage.tsx:85-107 | no submission of the page dispatches an update |
| InvoicesPage.RowsPerPageChange | fuel-management-system/src/pages/InvoicesPage.tsx:438 | the rows-per-page change sets the page size and page 0 in the slice's filters |
| VehiclesPage.StatusColor | fuel-management-system/src/pages/VehiclesPage.tsx:141-143 | "active" in any ASCII case is a success, "inactive" an error, anything else the default |
| VehiclesPage.ColorIgnoresCase | fuel-management-system/src/pages/VehiclesPage.tsx:142-143 | the chip colour does not depend on the case of the status name |
| VehiclesPage.SearchPatch | fuel-management-system/src/pages/VehiclesPage.tsx:71-77 | the search sets the vehicle-number filter and page 0, keeping the other filters |
| VehiclesPage.HandleSearch | fuel-management-system/src/pages/VehiclesPage.tsx:71-77 | `handleSearch` lays the search patch over the slice's filters |
| VehiclesPage.EmptySearchIsSent | fuel-management-system/src/pages/VehiclesPage.tsx:71-77 | an empty search still sends `vehicleNum`, since an empty string is neither undefined nor null |
| VehiclesPage.RowsPerPageChange | fuel-management-system/src/pages/VehiclesPage.tsx:386 | the rows-per-page change sets the page size and page 0 in the slice's filters |
| FuelLogsPage.StatusColor | fuel-management-system/src/pages/FuelLogsPage.tsx:140-143 | completed, pending and cancelled in any ASCII case pick success, warning and error, anything else the default |
| FuelLogsPage.ColorIgnoresCase | fuel-management-system/src/pages/FuelLogsPage.tsx:141-143 | the chip colour does not depend on the case of the status name |
| FuelLogsPage.EntityName | fuel-management-system/src/pages/FuelLogsPage.tsx:188 | the entity column shows the vehicle number, else the generator name, else "-", never empty |
| FuelLogsPage.RowEntity | fuel-management-system/src/pages/FuelLogsPage.tsx:177-191 | the row is shown as a vehicle exactly when its `vehOid` is truthy |
| FuelLogsPage.SavedEntityIsShown | fuel-management-system/src/pages/FuelLogsPage.tsx:177-191 | a log saved from the form is shown with the entity chosen there |
| FuelLogsPage.NameAndCaptionCanDisagree | fuel-management-system/src/pages/FuelLogsPage.tsx:180-191 | a row without `vehOid` but with a vehicle number shows that number captioned as a generator |
| FuelLogsPage.RowsPerPageChange | fuel-management-system/src/pages/FuelLogsPage.tsx:404 | the rows-per-page change sets the page size and page 0 in the slice's filters |
| DashboardPage.ActiveVehicles | fuel-management-system/src/pages/DashboardPage.tsx:45 | the active count is at most the total, 0 exactly when no status reads active and the total exactly when all do |
| DashboardPage.FillUpDay | fuel-management-system/src/pages/DashboardPage.tsx:49 | a date stands for itself and a missing or empty value is an invalid date |
| DashboardPage.TodayLogs | fuel-management-system/src/pages/DashboardPage.tsx:46-51 | exactly the logs filled up today, in order |
| DashboardPage.Gallons | fuel-management-system/src/pages/DashboardPage.tsx:52 | the quantities add up to 0 when no log has one |
| DashboardPage.NoLogTodayNoConsumption | fuel-management-system/src/pages/DashboardPage.tsx:46-52 | with no log filled up today nothing was consumed today |
| DashboardPage.ConsumptionBounded | fuel-management-system/src/pages/DashboardPage.tsx:46-52 | with non-negative quantities today's consumption lies between 0 and the total of the loaded logs |
| DashboardPage.VehicleCardOf | fuel-management-system/src/pages/DashboardPage.tsx:64-91 | the vehicles card is a skeleton while any slice loads, otherwise the vehicle count with the active count beneath |
| RecentMovementsTable.StatusColor | fuel-management-system/src/components/tables/RecentMovementsTable.tsx:37-51 | the English status in any ASCII case or its Arabic text picks the colour, anything else the default |
| RecentMovementsTable.StatusText | fuel-management-system/src/components/tables/RecentMovementsTable.tsx:53-66 | the three English statuses are translated, any other is shown as it is and a missing one as the placeholder |
| RecentMovementsTable.ArabicIsLower | fuel-management-system/src/components/tables/RecentMovementsTable.tsx:37-66 | the Arabic texts are their own lower-case form |
| RecentMovementsTable.TextKeepsColor | fuel-management-system/src/components/tables/RecentMovementsTable.tsx:165-166 | colouring the status or the text shown for it gives the same chip |
| RecentMovementsTable.TranslationKeepsColor | fuel-management-system/src/components/tables/RecentMovementsTable.tsx:37-66 | each translated status keeps its colour |
| RecentMovementsTable.PlaceholderIsDefault | fuel-management-system/src/components/tables/RecentMovementsTable.tsx:37-66 | a missing status shows the placeholder in the default colour |
| RecentMovementsTable.Displayed | fuel-management-system/src/components/tables/RecentMovementsTable.tsx:72 | `slice(0, maxRows)` keeps the first rows, counting a negative limit back from the length |
| RecentMovementsTable.LinkIffHidden | fuel-management-system/src/components/tables/RecentMovementsTable.tsx:191 | with a non-negative limit the "show all" link appears exactly when some movement is left out |
| RecentMovementsTable.RowEntity | fuel-management-system/src/components/tables/RecentMovementsTable.tsx:124-134 | a row is shown as a vehicle exactly when its `vehOid` is truthy |
| StatsCard.ChangeColor | fuel-management-system/src/components/common/StatsCard.tsx:32-35 | no change is the default colour, an increase success and a decrease error |
| StatsCard.ChangeText | fuel-management-system/src/components/common/StatsCard.tsx:37-41 | no change shows nothing; otherwise the sign of the type, the magnitude and a percent sign |
| StatsCard.SignFromTypeOnly | fuel-management-system/src/components/common/StatsCard.tsx:37-41 | negating the value changes neither the text nor the colour |
| StatsCard.TextMatchesColor | fuel-management-system/src/components/common/StatsCard.tsx:32-41 | a "+" goes with success, a "-" with error and an empty text with the default |
| Sidebar.HasPermissionMeans | fuel-management-system/src/components/common/Sidebar.tsx:111-114 | a non-empty permission is held exactly when a user with a permission list holding it is present |
| Sidebar.Permitted | fuel-management-system/src/components/common/Sidebar.tsx:126-130 | exactly the permitted items are rendered, in order |
| Sidebar.Render | fuel-management-system/src/components/common/Sidebar.tsx:126-192 | a hidden item renders to nothing; a shown one is active on its own path, expandable with children, expanded when its title is the open submenu, with exactly its permitted children |
| Sidebar.RenderChildren | fuel-management-system/src/components/common/Sidebar.tsx:184-188 | the rendered children are the permitted ones, in order |
| Sidebar.NoUserSeesOnlyOpenItems | fuel-management-system/src/components/common/Sidebar.tsx:111-130 | without a user only items without a permission are rendered, at every level |
| Sidebar.RenderMenu | fuel-management-system/src/components/common/Sidebar.tsx:210-212 | the menu renders exactly the permitted top-level items |
| Sidebar.PermittedCons | fuel-management-system/src/components/common/Sidebar.tsx:126-130 | the first item is kept exactly when it is permitted |
| Sidebar.SettingsAreGuarded | fuel-management-system/src/components/common/Sidebar.tsx:83-98 | every settings page requires its own permission |
| Sidebar.MenuIsOpenToAll | fuel-management-system/src/components/common/Sidebar.tsx:39-99 | no top-level item requires a permission |
| Sidebar.PermittedAll | fuel-management-system/src/components/common/Sidebar.tsx:126-130 | when every item is permitted all are rendered |
| Sidebar.PermittedNone | fuel-management-system/src/components/common/Sidebar.tsx:126-130 | when no item is permitted none is rendered |
| Sidebar.NoUserSeesTopLevel | fuel-management-system/src/components/common/Sidebar.tsx:39-114 | even without a user every top-level item is rendered |
| Sidebar.SettingsEmptyWithoutUser | fuel-management-system/src/components/common/Sidebar.tsx:83-192 | without a user the settings entry is rendered expandable with no children |
| Sidebar.AdministratorMaySeeSettings | fuel-management-system/src/components/common/Sidebar.tsx:83-114 | a user holding the three permissions may see every settings page |
| Sidebar.AdministratorSeesSettings | fuel-management-system/src/components/common/Sidebar.tsx:83-192 | such a user sees all three settings pages, in order |
| Sidebar.Toggled | fuel-management-system/src/components/common/Sidebar.tsx:122-124 | toggling the open submenu closes it and otherwise opens the one clicked |
| Sidebar.ToggleTwice | fuel-management-system/src/components/common/Sidebar.tsx:122-124 | toggling the same submenu twice closes it; toggling another opens that one |
| Sidebar.ClickOf | fuel-management-system/src/components/common/Sidebar.tsx:116-156 | clicking an item with children toggles its submenu; a leaf with a non-empty path navigates there; anything else does nothing |
| Sidebar.SidebarState.constructor | fuel-management-system/src/components/common/Sidebar.tsx:107 | no submenu starts open |
| Sidebar.SidebarState.Toggle | fuel-management-system/src/components/common/Sidebar.tsx:122-124 | the toggle sets the open submenu to the toggled value |
| Sidebar.SidebarState.OnClick | fuel-management-system/src/components/common/Sidebar.tsx:150-156 | a click toggles a parent's submenu, or navigates a leaf with a path, as `ClickOf` says |
| ProtectedRoute.Guard | fuel-management-system/src/features/auth/ProtectedRoute.tsx:27-71 | a spinner while loading, a redirect to login remembering the location when not authenticated, forbidden for a present user lacking the permission, otherwise the page |
| ProtectedRoute.VerifyingHidesPage | fuel-management-system/src/features/auth/ProtectedRoute.tsx:21-47 | while a stored token awaits verification the page is not shown |
| ProtectedRoute.MissingUserPassesGuard | fuel-management-system/src/features/auth/ProtectedRoute.tsx:49-71 | an authenticated state without a user passes any permission, although the sidebar hides the same item |
| ProtectedRoute.GuardAgreesWithSidebar | fuel-management-system/src/features/auth/ProtectedRoute.tsx:49-71 | with a user present, the page shows exactly when the sidebar would show its item |

## Left out

- Database and ORM machinery: the Oracle connection, query execution and the paginator's internals. A table is a sequence of rows and a page is a slice of the ordered rows together with their count.
- Eager loading (`with`, `load`, `fresh`) is not modelled. This includes the `user` relation that `VehGeneratorController` loads but `VehGenerator` does not define (app/Http/Controllers/VehGeneratorController.php:21).
- `Vehicle.gasBills` is keyed on a column that gas bills do not have. It is modelled literally, so it never finds a row.
- The connection check that `DashboardController::stats` runs first is not modelled (app/Http/Controllers/DashboardController.php:18-20). A failing database is one more way to reach its 500 reply.
- HTTP plumbing: routing, the JSON envelopes and the Inertia `web*`, `create` and `edit` pages. Each reply is reduced to a status code, a success flag and the data the model checks.
- Request parameters arrive already typed. Laravel's string-to-number coercion of query strings is not modelled.
- Column names in queries (`where`, `orderBy`, and `findOrFail` through `$primaryKey`) are case-insensitive, as Oracle treats unquoted identifiers. So the users and fuel-log tables are keyed by their `OID` column, although their models declare the key as `oid`.
- Attribute reads on a fetched row are exact-case key lookups. The model does not decide how the Oracle driver cases the keys of fetched rows.
- VehicleController.View: `$vehicle->assigned_to` and `$station->station_name` are read under those lower-case keys, as the source spells them. For a row holding only the upper-case `ASSIGNED_TO` column, the model therefore never attaches `assigned_station_name`.
- Text.Lower: JavaScript's `toLowerCase` is modelled as ASCII lower-casing. Non-ASCII capitals such as "É" are left as they are. `JsValues.LowerOpt`, `GeneratorsPage.Filter` and the status-chip colours all use it. Only the search differs from the source: a generator named "ÉCO" is found by the term "é" in the source but not in the model. The chip colours are unaffected, because no non-ASCII capital lower-cases to a letter of the status words.
- `LIKE` is modelled as a case-sensitive substring test. `%` and `_` inside a search term are not treated as wildcards.
- Ties in an `orderBy` keep their table order, as a stable sort does. Oracle leaves the order of ties unspecified.
- The `report` endpoints are modelled only as their fixed 501 reply.
- Foreign calls become parameters:
  - the clock (`now()`, `today()`, `new Date()`);
  - `Hash::make` and `Hash::check`;
  - the base64 encoding of the login token;
  - the new session token;
  - date parsing.
- `Log::info` is left out. That includes the login's logging of plaintext passwords.
- GasBillController.SummaryOf: the `average_price` figure, an `avg()` over floating-point prices, is not modelled.
- GeneratorController.StatsOf: the `average_consumption` figure is not modelled.
- Floating-point rounding and the `decimal:2` casts are not modelled. Sums are exact `real`s.
- Number, date and currency formatting (`toLocaleString`, `toFixed`, date-fns) is not modelled. Where a label contains a formatted number, the formatter is a parameter.
- No lemma shows that a request meeting every required `store` rule is accepted, because those proofs over the literal rule lists are too costly. The refusal of a request that misses a required field is proved, and so is acceptance by the all-optional `update` rules.
- React rendering, MUI layout and effect scheduling are not modelled. Each effect is a method the caller runs after the state it depends on has changed.
- Redux dispatch is not modelled. A reducer is a method on the slice's state; a thunk is reduced to the action it settles with.
- The request bodies of the thunks are not modelled: the axios client, its interceptors and the endpoint modules.
- Views with no logic of their own are not part of this model: `App.tsx`, `MainLayout.tsx`, `Header.tsx`, `LoginPage.tsx` and the `ReportsPage.tsx` stub.
- The mock-data and floating-point views are not part of this model: `InventoryPage.tsx`, `InventoryGauge.tsx` and `ConsumptionChart.tsx`.
- `ConstantsHelper::getConstantsByType` and `getConstantsAsOptions` are not modelled. They query columns the constants table does not have, and no modelled code calls them.
- Agreement between client and server is not claimed. Each side is modelled against its own code; the URLs, constant tags and reply shapes of the two sides differ.

## Findings

| source | as written | input that shows it | evidently intended | confidence | as-written member | corrected member |
|---|---|---|---|---|---|---|
| app/Http/Controllers/AuthController.php:78-83 | login compares the trimmed input with the stored `USER_PASSWORD` as plain text | an account created by `UserController::store`, which stores `Hash::make` of the password (app/Http/Controllers/UserController.php:73), signing in with that same password | check the input against the stored hash with `Hash::check` | not executed | AuthController.HashedPasswordRejected | AuthController.HashedPasswordAccepted |
| fuel-management-system/src/pages/VehiclesPage.tsx:98-139 | the handlers `await dispatch(thunk)` inside `try`, but a dispatched thunk resolves with its rejected action instead of throwing | a delete or save the server refuses | await `dispatch(thunk).unwrap()`, so that a refusal reaches the `catch` branch and its error message | not executed | PageActions.RejectedReportsSuccess | PageActions.UnwrappedFeedbackIsFaithful |

