# TreadValuPro core, modelled in Dafny

TreadValuPro is a sales tool for tyre retreading. A salesperson enters a client's
fleet (number of vehicles, kilometres per vehicle per year, vehicle type, fuel
price). The server validates the request, then projects the five-year savings of
retreaded tyres over new ones, the CO2 they avert, the return on the initial
investment, the cost per kilometre and the payback period. Clients (companies),
commercial proposals and stored calculations live in an in-memory store. The
store also computes dashboard statistics. The client pages filter and summarise
these lists.

This project models that core:

- `Schema` (schema.dfy) holds the three stored entities and the records their
  insert schemas accept. It also holds the ROI request schema: inclusive ranges
  on three numbers and a four-way vehicle-type enum.
- `RoiEngine` (roi_engine.dfy) is the ROI computation. It covers the vehicle
  table, the chain of derived quantities, the rounding of each output field and
  the 60-month payback cap. Every quantity is an exact real.
- `Storage` (storage.dfy) is the in-memory store: a class whose three maps the
  create and update methods change in place. Beside each map sits the order in
  which its keys were first set, because a JavaScript `Map` lists its values in
  that order. The listings, the partial update of a proposal and the statistics
  are modelled too.
- `Calculations` (calculations.dfy) holds the status labels, the status badge
  colours and the vehicle-type options of the calculator form.
- `ProposalsPage` (proposals_page.dfy) holds the search-and-status filter, the
  company initials and the guard on the "Envoyer" (send) action.
- `ClientsPage` (clients_page.dfy) holds the company search, the per-company
  proposal count, the last proposal date and the active-client count.
- `JsMath`, `JsString`, `Seqs` and `Wrappers` model the JavaScript built-ins
  the core relies on:
  - `Math.round`, `Math.ceil` and `toFixed` over reals;
  - ASCII `toLowerCase`/`toUpperCase`, `includes`, and `split`/`join`;
  - `Array.prototype.filter` and the stable `sort`;
  - `Option`/`Result`.

Identifiers (`randomUUID()`) and the clock (`new Date()`) are parameters of the
operations that use them. Dates are milliseconds since the epoch.

Rounding follows JavaScript:

- `Math.round(x)` is the floor of `x + 0.5`.
- `Math.ceil` is the least integer not below `x`.
- `parseFloat(x.toFixed(n))` rounds the magnitude of `x * 10^n` half up, keeps
  the sign, and divides by `10^n`.

Two consequences of the code that are easy to miss:

- The proposals table stores `fleetSize` and `annualKilometers` in `integer`
  columns (shared/schema.ts:21-22). The ROI request schema, however, uses
  `z.number()` without `.int()` (shared/schema.ts:94-95), so fractional values
  pass validation and reach the engine (`Schema.FractionalValuesAccepted`).
- The CO2 reduction is rounded to hundredths of a tonne (server/routes.ts:58),
  so one more vehicle need not raise it: it never decreases with the fleet size
  (`RoiEngine.Co2NondecreasingWithFleet`), but one and two light utility
  vehicles both give 0.01 t (`RoiEngine.Co2RoundingHidesOneVehicle`).

## Model

| member | source | states |
|---|---|---|
| JsMath.Round | server/routes.ts:56 | `Math.round`: the result is within half a unit of the argument, ties going up |
| JsMath.Ceil | server/routes.ts:53 | `Math.ceil`: the least integer not below the argument |
| JsMath.RoundHalfAway | server/routes.ts:58-60 | the rounding inside `toFixed`: within half a unit of the argument, and equal to `Math.round` on non-negative values |
| JsMath.ToFixedTwoDecimals | server/routes.ts:58-59 | `ToFixed(x, 2)`, the model of `parseFloat(x.toFixed(2))`, is a whole number of hundredths within 0.005 of x |
| JsMath.ToFixedThreeDecimals | server/routes.ts:60 | `ToFixed(x, 3)`, the model of `parseFloat(x.toFixed(3))`, is a whole number of thousandths within 0.0005 of x |
| JsMath.ToFixedTwoDecimalsMonotone | server/routes.ts:58 | rounding to two decimals never reverses the order of two values |
| JsString.ToLowerCase | client/src/pages/clients.tsx:68 | `toLowerCase` keeps the length, lowers each letter and leaves no upper-case letter |
| JsString.ToUpperCase | client/src/pages/clients.tsx:78 | `toUpperCase` keeps the length, raises each letter and leaves no lower-case letter |
| JsString.IncludesIff | client/src/pages/clients.tsx:68 | `Includes(s, t)`, the model of `s.includes(t)`, holds exactly when t occurs in s at some position |
| JsString.IncludesLowered | client/src/pages/clients.tsx:68-70 | a term found in a text is still found once both are lower-cased |
| JsString.Split | client/src/pages/clients.tsx:75 | `split(" ")` gives at least one piece and no piece holds the separator |
| JsString.JoinSplit | client/src/pages/clients.tsx:75 | `Join` (the model of `join`) of the pieces of a split, with the same separator, gives the string back |
| Seqs.Filter | server/storage.ts:194 | `filter` gives an order-preserving subsequence holding every copy of each element that passes the test and no copy of any other |
| Seqs.FilterMembers | server/storage.ts:194 | an element is in the filtered list exactly when it is in the input and passes the test |
| Seqs.SortDesc | server/storage.ts:187-189 | sorting by `b - a` gives a descending order that is a permutation of the input |
| Seqs.SortDescSameElements | server/storage.ts:187-189 | sorting neither adds nor drops an element |
| Seqs.SortDescHeadIsMax | client/src/pages/clients.tsx:92-94 | the head of the descending sort has the largest key of the input |
| Schema.NewCompany | server/storage.ts:170-177 | a created company is its insert record plus the fresh id, with both timestamps set to now |
| Schema.CompanyIsInsertPartWithIdentity | shared/schema.ts:65-69 | the insert schema omits exactly id, createdAt and updatedAt |
| Schema.NewProposal | server/storage.ts:198-205 | a created proposal is its insert record plus the fresh id, with both timestamps set to now |
| Schema.ProposalIsInsertPartWithIdentity | shared/schema.ts:71-75 | the proposal insert schema omits exactly id, createdAt and updatedAt |
| Schema.NewCalculation | server/storage.ts:232-238 | a created calculation is its insert record plus the fresh id and createdAt |
| Schema.CalculationIsInsertPartWithIdentity | shared/schema.ts:77-80 | the calculation insert schema omits exactly id and createdAt |
| Schema.ColumnStatus | shared/schema.ts:31 | the status column stores the given status, or "draft" when none is given |
| Schema.VehicleTypeName | shared/schema.ts:96 | each vehicle type has one of the four enum names |
| Schema.ParseVehicleType | shared/schema.ts:96 | the enum accepts a string exactly when it is one of the four names, and maps it to the variant of that name |
| Schema.ParseVehicleTypeName | shared/schema.ts:96 | parsing the name of a variant gives the variant back |
| Schema.RangeIssues | shared/schema.ts:94-97 | `min`/`max` on one number: no issue exactly when the value lies in the inclusive range, otherwise one issue at that field |
| Schema.Issues | shared/schema.ts:93-99 | the schema reports no issue exactly when `ValidRequest` holds: every number in its inclusive range and the vehicle type one of the enum's names |
| Schema.IssuesPerField | shared/schema.ts:94-97 | a field is reported exactly when its value lies outside its inclusive range, or outside the enum |
| Schema.Parse | shared/schema.ts:93-99 | parsing succeeds exactly on valid requests, keeps every field, and otherwise fails with a non-empty issue list |
| Schema.CompanyIdNeverRejects | shared/schema.ts:98 | the optional `companyId` never decides acceptance |
| Schema.FractionalValuesAccepted | shared/schema.ts:94-95 | a fractional fleet size and distance are accepted |
| Schema.BoundariesInclusive | shared/schema.ts:94-97 | the range bounds are accepted and values just outside them, or an unknown vehicle type, are rejected |
| RoiEngine.VehicleMultiplier | server/routes.ts:17-24 | each vehicle type's table row has a positive cost, a savings ratio in (0, 1) and a positive CO2 factor |
| RoiEngine.CalculateRoi | server/routes.ts:13-70 | payback never exceeds 60 months, and breakdown years 1 and 5 equal the annual and five-year savings |
| RoiEngine.ParseAndCalculate | server/routes.ts:98-99 | a projection comes back exactly for valid requests, and it is `CalculateRoi` of the request's own fields with the vehicle type parsed; otherwise every issue of the request |
| RoiEngine.AnnualSavingsPerVehicle | server/routes.ts:33-36 | each vehicle saves more than 1851 a year (4 tyres at baseCost / savings - baseCost) |
| RoiEngine.AnnualSavingsScalesWithFleet | server/routes.ts:30-39 | unrounded annual and five-year savings are the fleet size times a per-vehicle constant of the table |
| RoiEngine.RoiAndPaybackPerVehicle | server/routes.ts:46-53 | the fleet size cancels out of the unrounded ROI and payback |
| RoiEngine.RoiAndPaybackIndependentOfFleet | server/routes.ts:46-53 | two fleets of the same vehicle type get the same ROI and payback |
| RoiEngine.RoiAndPaybackByVehicleType | server/routes.ts:46-61 | ROI is 1014.29, 806.67, 517.14 or 1031.23 (always positive), and payback is 6, 7, 10 or 6 months |
| RoiEngine.BreakdownPositiveAndNondecreasing | server/routes.ts:62-68 | for a valid fleet the breakdown is positive and never decreases from year 1 to year 5 |
| RoiEngine.SavingsGrowWithFleet | server/routes.ts:56-57 | one more vehicle strictly increases the rounded annual and five-year savings |
| RoiEngine.Co2NondecreasingWithFleet | server/routes.ts:43 | a larger fleet never lowers the rounded CO2 reduction |
| RoiEngine.Co2RoundingHidesOneVehicle | server/routes.ts:58 | one and two light utility vehicles both reduce CO2 by 0.01 t |
| RoiEngine.Co2IgnoresDistanceAndFuel | server/routes.ts:42-43 | the CO2 reduction depends on the fleet size and vehicle type only |
| RoiEngine.CostPerKmIgnoresFleetAndFuel | server/routes.ts:50 | cost per km ignores fleet size and fuel price, and is within 0.0005 of baseCost / (0.8 km) |
| RoiEngine.FuelPriceNeverRead | server/routes.ts:14 | the fuel price does not affect the projection |
| RoiEngine.SampleFleet | server/routes.ts:13-70 | 87 heavy trucks give the projection 290829, 1454143, 0.97 t, 1014.29 %, 0.005, 6 months |
| Storage.SetKey | server/storage.ts:178 | `Map.set` keeps the old key order as a prefix, grows it by one for a new key (which goes last) and leaves it as it was for an existing key |
| Storage.KeyOrderAfterSet | server/storage.ts:178 | after `Map.set` the key order still lists every key exactly once |
| Storage.ValuesInOrder | server/storage.ts:167 | `Array.from(map.values())` lists one value per key, in key order |
| Storage.ValuesInOrderComplete | server/storage.ts:167 | every stored value is listed, and nothing else |
| Storage.KeyOrderSize | server/storage.ts:167 | the listing is as long as the map is large |
| Storage.ApplyUpdate | server/storage.ts:215-219 | the merged proposal always carries the new updatedAt |
| Storage.ApplyNoUpdate | server/storage.ts:215-219 | an empty update changes nothing but updatedAt |
| Storage.ApplyStatusUpdate | server/storage.ts:215-219 | a status-only update changes the status and updatedAt, nothing else |
| Storage.ApplyUpdateIdempotent | server/storage.ts:215-219 | applying the same update twice equals applying it once |
| Storage.ConversionRate | server/storage.ts:258-259 | the conversion rate lies in [0, 100], is 0 without proposals, and is otherwise within half a point of 100 times the accepted count, counted one by one, over the number of proposals |
| Storage.FilterAcceptedCounts | server/storage.ts:258 | filtering on the accepted status keeps exactly as many proposals as the one-by-one count of accepted ones |
| Storage.ConversionRateNoneAccepted | server/storage.ts:258-259 | without an accepted proposal the rate is 0 |
| Storage.ConversionRateAllAccepted | server/storage.ts:258-259 | when every proposal is accepted the rate is 100 |
| Storage.SumBounds | server/storage.ts:261 | `Sum`, the model of the `reduce` sums, of n values in [lo, hi] lies in [n lo, n hi] |
| Storage.AverageRoi | server/storage.ts:261-262 | 0 without proposals, otherwise within half a unit of the mean ROI, ties going up |
| Storage.AverageRoiBetweenExtremes | server/storage.ts:261-262 | the average ROI lies between the rounded smallest and largest ROI |
| Storage.Co2Saved | server/storage.ts:264-265 | within half a unit of ten times the summed CO2 reduction, ties going up |
| Storage.Co2SavedNonNegative | server/storage.ts:264-265 | with no negative reduction stored the CO2 figure is not negative |
| Storage.StatsOf | server/storage.ts:258-271 | the statistics are all 0 without proposals; otherwise the rate is within half a point of the accepted percentage, the average ROI within half a unit of the mean `calculatedROI`, and the CO2 figure within half a unit of ten times the summed reduction |
| Storage.MemStorage.constructor | server/storage.ts:55-160 | a new store holds the three seed companies and three seed proposals, in that order, and no calculation |
| Storage.MemStorage.GetCompany | server/storage.ts:162-164 | a company is found exactly when its id is stored |
| Storage.MemStorage.GetCompanies | server/storage.ts:166-168 | one company per key, in insertion order; every stored company is listed, and nothing else |
| Storage.MemStorage.CreateCompany | server/storage.ts:170-180 | the new company is stored under its id, the other tables are unchanged, and the count grows by one for a fresh id |
| Storage.MemStorage.GetProposal | server/storage.ts:182-184 | a proposal is found exactly when its id is stored |
| Storage.MemStorage.GetProposals | server/storage.ts:186-190 | every stored proposal is listed once, newest first |
| Storage.ByCompanyListed | server/storage.ts:192-196 | the sorted listing of a company holds every stored proposal of that company and nothing else |
| Storage.MemStorage.GetProposalsByCompany | server/storage.ts:192-196 | the proposals of the company, newest first, as a permutation of the filtered values: each listed as often as it is stored |
| Storage.MemStorage.CreateProposal | server/storage.ts:198-208 | the new proposal is stored under its id, the other tables are unchanged, and the count grows by one for a fresh id |
| Storage.MemStorage.UpdateProposal | server/storage.ts:210-222 | an unknown id fails with "Proposal not found" and changes nothing; otherwise only that entry is replaced by the merge |
| Storage.MemStorage.GetCalculation | server/storage.ts:224-226 | a calculation is found exactly when its id is stored |
| Storage.MemStorage.GetCalculationsByProposal | server/storage.ts:228-230 | exactly the calculations of the proposal are listed, in insertion order, each as many times as it is stored |
| Storage.MemStorage.CreateCalculation | server/storage.ts:232-241 | the new calculation is stored under its id, the other tables are unchanged, and the count grows by one for a fresh id |
| Storage.MemStorage.GetStats | server/storage.ts:243-273 | the figures are those of `StatsOf` over the stored proposals in insertion order: the rate lies in [0, 100], and an empty store gives all zeros |
| Calculations.StatusLabel | client/src/lib/calculations.ts:66-80 | the five known statuses get their own labels, and any other string gets "Inconnu" |
| Calculations.StatusLabelsDistinct | client/src/lib/calculations.ts:66-77 | the five known statuses have five different labels |
| Calculations.StatusColor | client/src/lib/calculations.ts:49-63 | every string gets a colour, and an unknown status gets the draft colour |
| Calculations.StatusColorsDistinct | client/src/lib/calculations.ts:49-60 | the five known statuses have five different colours |
| Calculations.VehicleTypeOptionsMatchSchema | client/src/lib/calculations.ts:25-30 | the form offers exactly the schema's four vehicle types, in the schema's order |
| ProposalsPage.FilterProposals | client/src/pages/proposals.tsx:53-57 | a row is shown exactly when the company name contains the term case-insensitively and the status matches; shown rows keep their order and every copy of a shown row, and none are shown before loading |
| ProposalsPage.FilterProposalsShowsAll | client/src/pages/proposals.tsx:54-55 | with "all" statuses and an empty term every row is shown |
| ProposalsPage.FirstCharsOfSplit | client/src/pages/proposals.tsx:61-63 | `FirstChars` of the words, the model of `.map(word => word[0]).join("")`, is the characters that open a word; empty words add nothing |
| ProposalsPage.CompanyInitials | client/src/pages/proposals.tsx:59-66 | the initials have at most two characters and no lower-case letter |
| ProposalsPage.CompanyInitialsAreWordStarts | client/src/pages/proposals.tsx:59-66 | the initials are the first two word-opening characters, upper-cased |
| ProposalsPage.CompanyInitialsOfTwoWords | client/src/pages/clients.tsx:73-80 | "Bus Co" gives "BC" |
| ProposalsPage.CompanyInitialsSkipsEmptyWords | client/src/pages/clients.tsx:73-80 | "  acme" gives "A": the empty words before it add nothing |
| ProposalsPage.SendAction | client/src/pages/proposals.tsx:214-219 | sending is offered exactly for drafts, and it requests status "sent" and nothing else |
| ProposalsPage.SendActionOnce | client/src/pages/proposals.tsx:214-219 | once applied by the store, the request leaves the proposal "sent", so sending is not offered again |
| ClientsPage.FilterCompanies | client/src/pages/clients.tsx:67-71 | a company is listed exactly when its name, contact or e-mail contains the term case-insensitively; a missing field matches nothing; every copy of a listed company is kept, in order; none before loading |
| ClientsPage.FilterCompaniesEmptyTerm | client/src/pages/clients.tsx:67-71 | an empty term lists every company |
| ClientsPage.FilterCompaniesFindsName | client/src/pages/clients.tsx:68 | a company whose name contains the term verbatim is still listed once the search lowers both sides |
| ClientsPage.CompanyProposalsCount | client/src/pages/clients.tsx:82-85 | 0 before loading; otherwise `CountOf`, the number of proposals referring to the company counted one by one, which is positive exactly when the company has one |
| ClientsPage.FilterByCompanyCounts | client/src/pages/clients.tsx:84 | filtering by company keeps as many proposals as refer to the company |
| ClientsPage.OwnProposalsListed | client/src/pages/clients.tsx:84 | filtering by company keeps every proposal of that company |
| ClientsPage.LastProposalDate | client/src/pages/clients.tsx:87-97 | none exactly when the company has no loaded proposal; otherwise the date of one of its proposals, and no earlier than any of them |
| ClientsPage.ActiveClientCount | client/src/pages/clients.tsx:235 | 0 before either list loads, and never more than the number of companies |
| ClientsPage.ActiveClientCountIsCompaniesWithProposals | client/src/pages/clients.tsx:235 | the count equals the number of companies that some proposal refers to |

## Left out

- HTTP plumbing (route handlers, status codes, JSON encoding, `console.error`): only the parse-then-compute path of the ROI endpoint is modelled (`RoiEngine.ParseAndCalculate`).
- RoiEngine.CalculateRoi: requires a nonzero fleet size and distance; the source would divide by zero and return Infinity or NaN, but its only caller validates both to be at least 1 and 1000.
- IEEE-754 doubles: every quantity is an exact real, so the bit-level results of `toFixed`, `Math.round` and `Math.ceil` on doubles are not modelled.
- Schema.Parse: issues carry a path and a code, not Zod's messages, and requests whose fields have the wrong JSON type are not modelled.
- Decimal columns (fuel price, ROI, savings, CO2, cost per km) are stored as strings in the source; the model keeps their numeric value, so `parseFloat` of a malformed string is not modelled.
- Storage.MemStorage: the store spreads the insert record, so the column defaults of `status` ("draft") and `pdfGenerated` (false) are not applied by it; `Schema.ColumnStatus` models what a database would store.
- `proposalsThisMonth` in `getStats` and "Nouveaux ce mois" on the clients page: they depend on the current month of the clock.
- `getRecentActivity`: it draws random timestamps and identifiers.
- Storage.MemStorage.GetProposals: states the descending order and the permutation, not that equal dates keep insertion order (the sort is stable).
- Storage.MemStorage.GetProposalsByCompany: states the descending order and the permutation of the company's proposals, not that equal dates keep insertion order (the sort is stable).
- The async/Promise wrappers of the store: the methods are synchronous.
- `formatCurrency`, `formatNumber` and `formatPercentage`: locale and floating-point formatting.
- Unicode case mapping: `toLowerCase`/`toUpperCase` are modelled over ASCII letters only.
- ProposalsPage.FilterProposals: a proposal whose company is missing makes the page throw in the source; the model's rows always carry a company.
- ClientsPage.LastProposalDate: dates that `new Date` cannot parse (NaN comparisons) are not modelled.
- React state, queries, mutations and rendering: only the pure list logic of the pages is modelled.
