# Airdrop ranking engine — a Dafny model

This project models the core of a small airdrop-ranking web application. The
application keeps three SQLite tables:

- `projects`
- `airdrops`, each belonging to a project
- `risk_factors`, one row per airdrop

It seeds the store with three sample airdrops when the `airdrops` table is
empty. It scores every airdrop from four risk factors (sybil, scam, task, KYC)
and a status bonus. It lists airdrops with optional filters (chain, status,
name/title search, risk bounds) and one of five sort orders. It also accepts
JSON import batches that upsert project/airdrop/risk triples in one
transaction.

Module layout, following the program's files:

| file | module | models |
|---|---|---|
| `wrappers.dfy` | `Wrappers` | `Option` and `Result` |
| `rows.dfy` | `Rows` | the table rows, the `Tables` state, the schema's constraints (`ValidTables`) |
| `scoring.dfy` | `Scoring` | the SQL risk score and rank score of `src/lib/db.ts` |
| `schema.dfy` | `Schema` | the zod validation schemas of `src/lib/schema.ts`, modelled on a JSON value type, and `riskScoreOf` |
| `tables.dfy` | `TableOps` | each SQL statement (plain `INSERT`, `INSERT OR REPLACE` with the `ON DELETE CASCADE` it triggers), the import transaction and the seed transaction, as functions on `Tables` |
| `query.dfy` | `Query` | the joined view row, the `WHERE` clauses, the `ORDER BY` orders and what a correct listing is |
| `store.dfy` | `Store` | the database handle as `class Db`, with one map field per table, and its methods |
| `import_route.dfy` | `ImportRoute` | `POST /api/import` |
| `airdrops_route.dfy` | `AirdropsRoute` | `GET /api/airdrops` |
| `page.dfy` | `Page` | the helpers of the home page: `riskColor`, `pick`, `isStatus`, `isSort`, the option mapping |
| `seed_listing.dfy` | `SeedListing` | facts about the seeded store: scores, ranks and the default order |

Scores are kept as exact scaled integers:

- `W = 35·sybil + 25·scam + 20·task + 20·kyc` is 100 times the weighted risk.
- The SQL `risk_score` is `ROUND(W/100)`, where SQLite's `ROUND` rounds halves away from zero.
- `rank_score` ×100 is `10000 − W + 100·bonus`, with bonus 5 for live, 2 for upcoming and 0 for ended. It uses the unrounded sum.
- `riskScoreOf` in `schema.ts` uses `Math.round`, which rounds halves up. It agrees with SQL for every non-negative `W` and differs on negative halves.

Each SQL statement is a function on `Tables`. The statements that can fail
return `Result<Tables, StoreError>`; `ReplaceProject` and `DeleteProject` always
succeed and return `Tables`.
The `Db` methods are proved to change the three map fields exactly as those
functions say. A transaction that fails leaves the store as it was before the
transaction started.

Behaviours of the code that are easy to miss:

- The first seed airdrop (sybil 40, scam 35, task 50, kyc 0) has weighted risk 32.75. Its `risk_score` is therefore 33 (`SeedListing.SeedScores`).
- The seeded ranks ×100 are 7225 (live), 6450 (upcoming) and 6025 (ended), so the default order is SOL, EVM, MULTI (`SeedListing.SeededFullListing`).
- `INSERT OR REPLACE` deletes the old row before inserting the new one. With `foreign_keys = ON` that deletion cascades, so re-importing an existing project removes every airdrop of that project, and its risk row, through the cascade (`TableOps.ReimportDropsSiblings`). The cascade also reaches rows written earlier in the same batch: a batch keeps, of each project, only the airdrops written after that project's last replace (`TableOps.SameProjectLaterItemDropsEarlierAirdrop`).
- zod leaves an absent `.optional()` key out of its result, and better-sqlite3 refuses to run a statement whose named parameter is missing. So an item that leaves out `website`, `twitter`, `start_date`, `end_date`, `reward`, `link` or `notes` makes its statement fail, the batch rolls back and `POST /api/import` answers with a server error. An explicit `null` is bound and stored as `NULL` (`ImportRoute.PayloadOmittingOptionalKeyFails`).
- The seed uses plain `INSERT`. When the `airdrops` table is empty but a seed project id already exists, seeding fails with a UNIQUE violation, the transaction rolls back and `ensureReady` throws (`TableOps.SeedConflict`).
- No tie-break key is added to any `ORDER BY`. The listing contract only fixes the order between rows whose sort keys differ.

## Model

| member | source | states |
|---|---|---|
| Rows.StatusOf | src/lib/db.ts:33 | a status text is accepted only if it is the name of the status it maps to |
| Rows.StatusNameRoundTrip | src/lib/db.ts:33 | the status names round-trip, and exactly 'upcoming', 'live' and 'ended' are accepted |
| Rows.ValidTables | src/lib/db.ts:19-48 | defines the schema's constraints: every row stored under its primary key, every airdrop's project and every risk row's airdrop present; preserved by TableOps.ReplaceProjectValid, ReplaceAirdropValid, ReplaceRiskValid, ApplyItemsValid and InsertAllValid |
| Scoring.SqlRound | src/lib/db.ts:115 | SQLite ROUND to an integer: the result is within half a unit of the value, and halves round away from zero on both signs |
| Scoring.WeightedRisk | src/lib/db.ts:115 | defines 100 times the weighted risk sum 0.35·sybil + 0.25·scam + 0.20·task + 0.20·kyc; its range is proved in Scoring.RiskScoreInRange |
| Scoring.RiskScore | src/lib/db.ts:115 | defines risk_score as SqlRound of the weighted sum; range in Scoring.RiskScoreInRange, agreement with riskScoreOf in Schema.RiskScoreOfAgreesWithSql |
| Scoring.StatusBonus | src/lib/db.ts:116-117 | defines the bonus 5 for live, 2 for upcoming and 0 for ended; its effect is proved in Scoring.RankStatusShift |
| Scoring.RankScore100 | src/lib/db.ts:116-117 | defines 100 times rank_score from the unrounded weighted sum and the bonus; proved in Scoring.RankOrdersAgainstRisk and Scoring.RankUsesUnroundedSum |
| Scoring.RiskScoreInRange | src/lib/db.ts:115 | for factors in 0..100, the weighted risk lies in 0..100 and risk_score is within one half of it and lies in 0..100 |
| Scoring.SqlRoundMonotone | src/lib/db.ts:115 | ROUND never reverses the order of two weighted sums |
| Scoring.RankStatusShift | src/lib/db.ts:116-117 | for the same risk row, the rank of a live airdrop exceeds that of an upcoming one by 3 points, which exceeds that of an ended one by 2 |
| Scoring.RankOrdersAgainstRisk | src/lib/db.ts:116-117 | at equal status, a higher-or-equal rank implies a lower-or-equal weighted risk and a lower-or-equal risk_score |
| Scoring.RankUsesUnroundedSum | src/lib/db.ts:116-117 | two rows with equal risk_score can have different rank_score, because rank uses the unrounded sum |
| Schema.RequiredString | src/lib/schema.ts:5-7 | a required string field is accepted exactly when the key is present and holds a string, and the result is that string |
| Schema.OptionalString | src/lib/schema.ts:8-9 | an optional, nullable string field is accepted exactly when it is absent, null or a string; the result is empty exactly when it is absent or null, and otherwise is that string |
| Schema.RiskFactor | src/lib/schema.ts:27-30 | a missing factor takes its default; a present one is accepted exactly when it is an integer in 0..100, and the result is that number |
| Schema.ParseProject | src/lib/schema.ts:4-10 | a project is accepted exactly when it is an object whose id, name and chain are strings and whose website and twitter are absent, null or strings; each field of the row is the object's value for its key, an absent or null optional key giving no value |
| Schema.StatusField | src/lib/schema.ts:17 | a status is accepted exactly when the status key holds one of the strings 'upcoming', 'live' or 'ended', and the result is the status of that name |
| Schema.ParseAirdrop | src/lib/schema.ts:13-22 | an airdrop is accepted exactly when it is an object whose id, project_id and title are strings, whose status is one of the three names and whose start_date, end_date, reward and link are absent, null or strings; each field of the row is the object's value for its key |
| Schema.ParseRisk | src/lib/schema.ts:25-32 | a risk object is accepted exactly when airdrop_id is a string, each present factor is an integer in 0..100 and notes is absent, null or a string; each factor is the given number or its default, and every factor is in 0..100 |
| Schema.ParseItem | src/lib/schema.ts:35-39 | an item is accepted exactly when it is an object whose project, airdrop and risk parts are each accepted; its rows are those parts' results, its risk is in range, and its unbound keys are exactly the optional keys absent from each part |
| Schema.ParseAll | src/lib/schema.ts:43 | an item array is accepted exactly when every element is, and the result is the elementwise parse in the same order |
| Schema.ParsePayload | src/lib/schema.ts:42-44 | a payload is accepted exactly when it is an object with an items array of at least one item, all accepted; the result has one item per element, each the parse of that element, in order |
| Schema.PayloadRisksInRange | src/lib/schema.ts:42-44 | every risk row of an accepted payload has its factors in 0..100 |
| Schema.ProjectRoundTrip | src/lib/schema.ts:4-10 | encoding a project row as JSON, leaving out any optional keys whose value is empty, and validating it gives the row back, and the left-out keys are reported absent |
| Schema.AirdropRoundTrip | src/lib/schema.ts:13-22 | encoding an airdrop row as JSON, leaving out any optional keys whose value is empty, and validating it gives the row back, and the left-out keys are reported absent |
| Schema.RiskRoundTrip | src/lib/schema.ts:25-32 | encoding an in-range risk row as JSON, leaving out notes if it is empty, and validating it gives the row back, and a left-out notes key is reported absent |
| Schema.ItemRoundTrip | src/lib/schema.ts:35-39 | encoding an import item, leaving out exactly its unbound optional keys, and validating it gives the item back, unbound keys included |
| Schema.ItemPartsRoundTrip | src/lib/schema.ts:35-39 | each part of an encoded item validates back to its row, and the absent optional keys of the three parts together are the item's unbound keys |
| Schema.ParsedItemEncodable | src/lib/schema.ts:35-39 | every item the schema accepts can be encoded again: its unbound keys are optional keys with empty values and its risk is in range |
| Schema.AbsentKeys | src/lib/schema.ts:8-9 | the optional keys an object leaves out are exactly the listed keys it does not contain |
| Schema.PayloadRoundTrip | src/lib/schema.ts:42-44 | encoding a non-empty batch of encodable items and validating it gives the batch back |
| Schema.EmptyPayloadRejected | src/lib/schema.ts:43 | a payload with an empty items array is rejected |
| Schema.RiskDefaults | src/lib/schema.ts:27-30 | a missing sybil, scam or task factor becomes 50, and a missing kyc factor becomes 0 |
| Schema.RiskFactorRejected | src/lib/schema.ts:27-30 | a factor that is present but not an integer in 0..100 rejects the risk object |
| Schema.BadStatusRejected | src/lib/schema.ts:17 | a status outside the three names rejects the airdrop object |
| Schema.OptionalTextAccepted | src/lib/schema.ts:8 | website is empty exactly when it is absent or null, and otherwise it is the given string |
| Schema.RiskScoreOf | src/lib/schema.ts:47-49 | riskScoreOf is the weighted risk rounded with halves rounded up |
| Schema.RiskScoreOfAgreesWithSql | src/lib/schema.ts:47-49 | for a non-negative weighted risk, riskScoreOf equals the SQL risk_score |
| Schema.RiskScoreOfInRange | src/lib/schema.ts:47-49 | for factors in 0..100, riskScoreOf lies in 0..100 |
| Schema.RoundingsDifferOnNegativeHalf | src/lib/schema.ts:48 | on a weighted risk of -0.5, riskScoreOf gives 0 while the SQL score gives -1 |
| TableOps.DeleteProject | src/lib/db.ts:31 | deleting a project removes it; the airdrops table loses exactly that project's airdrops and the risk table exactly their risk rows, every other row unchanged |
| TableOps.ReplaceProject | app/api/import/route.ts:32-34 | INSERT OR REPLACE of a project stores the new row and keeps every other project; if the id existed, that project's airdrops are deleted by the cascade and so are their risk rows, and otherwise airdrops and risks are unchanged |
| TableOps.ReplaceAirdrop | app/api/import/route.ts:35-38 | INSERT OR REPLACE of an airdrop succeeds exactly when its project exists, stores the row and drops the replaced airdrop's risk row; otherwise it fails on the foreign key |
| TableOps.ReplaceRisk | app/api/import/route.ts:39-42 | INSERT OR REPLACE of a risk row succeeds exactly when its airdrop exists, and then only the risk table changes |
| TableOps.InsertProject | src/lib/db.ts:54 | a plain INSERT of a project succeeds exactly when the id is new, and otherwise fails |
| TableOps.InsertAirdrop | src/lib/db.ts:55 | a plain INSERT of an airdrop succeeds exactly when its id is new and its project exists |
| TableOps.InsertRisk | src/lib/db.ts:56 | a plain INSERT of a risk row succeeds exactly when its airdrop has no risk row yet and exists |
| TableOps.ApplyItem | app/api/import/route.ts:45-49 | defines one import item: the project, airdrop and risk statements in order, each failing on an unbound parameter; its outcome is proved in TableOps.ApplyItemFailsIff and ApplyItemWrites |
| TableOps.ApplyItems | app/api/import/route.ts:44-50 | defines the batch: the items in order, stopping at the first failure; proved in TableOps.ApplyItemsValid, ApplyItemsLastWins and SelfContainedBatchCommits |
| TableOps.InsertTriple | src/lib/db.ts:59-69 | defines one seed triple as three plain INSERTs; its effect is proved in TableOps.InsertAllExtends |
| TableOps.InsertAll | src/lib/db.ts:58-71 | defines the seed transaction over the seed triples, stopping at the first failure; proved in TableOps.InsertAllExtends and InsertAllValid |
| TableOps.SeedTables | src/lib/db.ts:50-72 | defines seeding: nothing when an airdrop exists, otherwise the seed transaction; proved in TableOps.SeedKeepsExisting, SeedIdempotent, SeedEmptyStore and SeedConflict |
| TableOps.ReplaceProjectValid | src/lib/db.ts:29-47 | replacing a project keeps every key and foreign-key constraint |
| TableOps.ReplaceAirdropValid | src/lib/db.ts:29-47 | a successful airdrop replace keeps every key and foreign-key constraint |
| TableOps.ReplaceRiskValid | src/lib/db.ts:40-47 | a successful risk replace keeps every key and foreign-key constraint |
| TableOps.ApplyItemValid | app/api/import/route.ts:45-49 | one import item applied to a valid store leaves it valid |
| TableOps.ApplyItemsValid | app/api/import/route.ts:44-50 | a committed import batch leaves the store valid |
| TableOps.ApplyItemsInRange | app/api/import/route.ts:44-50 | a committed batch of in-range items on a store whose risks are in range keeps every risk in range |
| TableOps.ApplyItemWrites | app/api/import/route.ts:45-49 | after a successful item, its project, airdrop and risk row are all present |
| TableOps.ApplyItemFailsIff | app/api/import/route.ts:45-49 | an item fails exactly when one of its optional parameters is unbound, or its airdrop names a project that is neither the item's project nor already stored, or its risk row names an airdrop that is neither the item's airdrop nor stored after the project replace; an unbound project or airdrop parameter fails with a missing parameter, and otherwise a failure of a fully bound item is a foreign-key violation |
| TableOps.UnboundItemAbortsBatch | app/api/import/route.ts:44-52 | a batch with an item whose optional parameter is unbound fails as a whole |
| TableOps.SelfContainedBatchCommits | app/api/import/route.ts:44-52 | a batch whose every item binds all its parameters and whose every airdrop belongs to the project of its own item always commits |
| TableOps.ApplyItemsLastWins | app/api/import/route.ts:44-50 | after a committed batch, the last item's project, airdrop and risk row are the stored ones |
| TableOps.DuplicateAirdropLaterWins | app/api/import/route.ts:44-50 | when two items carry the same airdrop id, the later one's airdrop and risk row are stored |
| TableOps.ReimportDropsSiblings | src/lib/db.ts:31 | re-importing an existing project deletes its other airdrops and their risk rows through the cascade |
| TableOps.SameProjectLaterItemDropsEarlierAirdrop | src/lib/db.ts:31 | when a later item of the same batch replaces the same project with another airdrop, the earlier item's airdrop and its risk row are gone after the batch |
| TableOps.InsertAllExtends | src/lib/db.ts:58-71 | a successful seed transaction keeps every existing row unchanged and stores every project, airdrop and risk row of the seed triples as given |
| TableOps.InsertAllKeeps | src/lib/db.ts:58-71 | a successful seed transaction keeps every existing row unchanged |
| TableOps.InsertAllStores | src/lib/db.ts:58-71 | after a successful seed transaction every seed triple's rows are stored as given |
| TableOps.InsertAllValid | src/lib/db.ts:58-71 | a successful seed transaction leaves the store valid |
| TableOps.SeedKeepsExisting | src/lib/db.ts:50-72 | a successful seed leaves a valid store that keeps every row present before it |
| TableOps.SeedIdempotent | src/lib/db.ts:51-52 | after a successful seed the airdrops table is non-empty, and seeding again changes nothing |
| TableOps.SeedEmptyStore | src/lib/db.ts:58-71 | seeding an empty store succeeds; the projects are exactly the three seed project ids, and every seed project, airdrop and risk row is stored with the seed values |
| TableOps.SeedConflict | src/lib/db.ts:54-71 | with no airdrops but an existing seed project id, seeding fails with a UNIQUE violation |
| Query.SortOf | src/lib/db.ts:148-153 | a sort text is accepted only if it is the name of the sort it maps to |
| Query.SortNameRoundTrip | app/api/airdrops/route.ts:14-17 | sort names round-trip, and exactly the five sort names are accepted |
| Query.Join | src/lib/db.ts:156-184 | a view row carries its airdrop id, the SQL risk_score of its risk row and the rank score of its risk row and status |
| Query.JoinedIds | src/lib/db.ts:118-120 | the view lists exactly the airdrops whose project and risk row both exist (inner joins) |
| Query.LowerAscii | src/lib/db.ts:144 | LIKE folds ASCII letters case-insensitively, character by character |
| Query.FilteredIds | src/lib/db.ts:137-185 | the filtered view holds exactly the joined airdrops whose view row matches every given filter |
| Query.Matches | src/lib/db.ts:139-146 | defines the filters: chain equality, status equality, a case-insensitive search of project name or title, and inclusive risk bounds, each only when given; proved in Query.FiltersConjoin and Query.BuildWhere |
| Query.Precedes | src/lib/db.ts:148-153 | defines the five orders: rank descending, risk ascending or descending, start or end date ascending with nulls last; proved total and transitive in Query.PrecedesTotal and PrecedesTransitive |
| Query.IsListing | src/lib/db.ts:137-185 | defines a correct filtered listing: exactly the filtered view rows, each once, sorted by the effective order; established by Store.Db.SelectFiltered |
| Query.IsFullListing | src/lib/db.ts:98-124 | defines a correct full listing: exactly the joined view rows, each once, by rank descending; established by Store.Db.SelectAll |
| Query.BuildWhere | src/lib/db.ts:139-146 | the WHERE clauses built from the options hold for a row exactly when the row matches the options, and there are at most five |
| Query.StrLeTotal | src/lib/db.ts:150-151 | text comparison by code points is total |
| Query.StrLeTransitive | src/lib/db.ts:150-151 | text comparison by code points is transitive |
| Query.PrecedesTotal | src/lib/db.ts:148-153 | every sort order compares any two rows |
| Query.PrecedesTransitive | src/lib/db.ts:148-153 | every sort order is transitive |
| Query.InsertSorted | src/lib/db.ts:185 | inserting a row into a sorted listing puts it at one position and keeps the listing sorted |
| Query.ListingRowsJoined | src/lib/db.ts:156-185 | every listed row comes from an airdrop with its project and risk row, carries their scores and matches the filters |
| Query.ListingsAgree | src/lib/db.ts:98-185 | the filtered and the unfiltered listing produce the same row for the same airdrop |
| Query.NoOptionsIsFullListing | src/lib/db.ts:98-124 | a filtered listing with no options is exactly a full listing |
| Query.InvertedRiskBoundsEmpty | src/lib/db.ts:145-146 | a minimum risk above the maximum returns no rows |
| Query.FiltersConjoin | src/lib/db.ts:139-146 | a row matches exactly when it passes each given filter, and with no filters every row matches |
| Query.EmptyTextIgnored | src/lib/db.ts:142-144 | an empty chain or search text filters nothing, as an absent one does |
| Query.RiskBoundsInclusive | src/lib/db.ts:145-146 | both risk bounds are inclusive |
| Query.SearchIgnoresCase | src/lib/db.ts:144 | for any texts and queries that agree after ASCII lower-casing, the search gives the same answer, and lower-casing the query never changes the answer |
| Query.SearchFindsSubstring | src/lib/db.ts:144 | a query that occurs in the text at some position is found |
| Query.LowerAsciiIdempotent | src/lib/db.ts:144 | ASCII lower-casing twice is lower-casing once |
| Query.SearchExamples | src/lib/db.ts:144 | 'sol' is found in 'SOL XYZ' and 'EARLY' in 'Season 1 Early', while 'evm' is not found in 'SOL' |
| Query.DateSortNullsLast | src/lib/db.ts:150 | in the start-date order, rows with a start date come before rows without one, with dates ascending |
| Query.EndSortNullsLast | src/lib/db.ts:151 | in the end-date order, rows with an end date come before rows without one, with dates ascending |
| Store.Db.constructor | src/lib/db.ts:9-17 | the opened handle holds the given valid tables |
| Store.Db.Restore | src/lib/db.ts:58-71 | a rolled-back transaction puts the store back to the saved tables |
| Store.Db.ReplaceProjectRow | app/api/import/route.ts:32-34 | the store becomes ReplaceProject of the old store, and stays valid |
| Store.Db.ReplaceAirdropRow | app/api/import/route.ts:35-38 | the statement reports success exactly as ReplaceAirdrop does; on success the store is its result, otherwise unchanged |
| Store.Db.ReplaceRiskRow | app/api/import/route.ts:39-42 | the statement reports success exactly as ReplaceRisk does; on success the store is its result, otherwise unchanged |
| Store.Db.InsertTripleRows | src/lib/db.ts:59-69 | the three plain INSERTs of one seed triple succeed exactly as InsertTriple does; on success the store is its result, and a failure carries InsertTriple's error |
| Store.Db.Seed | src/lib/db.ts:50-72 | seeding succeeds exactly as SeedTables does and stores its result; on failure it returns the error and rolls the store back |
| Store.Db.EnsureReady | src/lib/db.ts:74-78 | afterwards the store has at least one airdrop; a store that already had one is unchanged; a seed failure is returned with the store unchanged |
| Store.Db.SelectAll | src/lib/db.ts:98-124 | the query returns every joined airdrop once, as its view row, in rank order |
| Store.Db.SelectFiltered | src/lib/db.ts:137-188 | the query returns every joined airdrop that matches the options once, as its view row, in the requested order |
| Store.Db.ListAirdrops | src/lib/db.ts:98-124 | after seeding if needed, returns the full listing of the ready store; on a seed failure returns SeedTables' error with the store unchanged |
| Store.Db.ListAirdropsFiltered | src/lib/db.ts:137-188 | after seeding if needed, returns the filtered listing of the ready store; on a seed failure returns SeedTables' error with the store unchanged |
| ImportRoute.ApplyBatch | app/api/import/route.ts:44-52 | the batch transaction commits exactly when ApplyItems succeeds and stores its result; on failure it returns the error and rolls back |
| ImportRoute.PayloadOmittingOptionalKeyFails | app/api/import/route.ts:26-52 | an accepted payload in which some item leaves out an optional key of its project, airdrop or risk object cannot commit |
| ImportRoute.Post | app/api/import/route.ts:23-54 | a seed failure gives a server error; an invalid body gives 400 with nothing written; a valid batch gives the item count and the ApplyItems result, or a server error with the ready store unchanged |
| AirdropsRoute.Param | app/api/airdrops/route.ts:23-28 | a search parameter is present exactly when its key is, with its value |
| AirdropsRoute.ParseStatus | app/api/airdrops/route.ts:10-13 | exactly the three status names parse, each to its own status |
| AirdropsRoute.ParseSort | app/api/airdrops/route.ts:14-17 | a sort name parses to its own sort, and an absent or unknown one falls back to rank |
| AirdropsRoute.RiskParam | app/api/airdrops/route.ts:26-27 | a risk bound is given exactly when the parameter is present and non-empty, and it is then the numeric value |
| AirdropsRoute.RouteOptions | app/api/airdrops/route.ts:23-30 | defines the list options the handler builds from the query string; its fields are proved in AirdropsRoute.RouteOptionsFromParams |
| AirdropsRoute.RouteOptionsFromParams | app/api/airdrops/route.ts:23-30 | an absent parameter leaves its option unset (the sort becomes rank); chain and q keep the given text, empty or not; status is set exactly for the three names, to the status of that name; an empty risk bound is unset and a non-empty one is its numeric value; a known sort name gives its sort and any other gives rank |
| AirdropsRoute.NoParamsNoFilter | app/api/airdrops/route.ts:23-30 | with no filtering parameter every row matches, and with no sort parameter the order is rank |
| AirdropsRoute.Get | app/api/airdrops/route.ts:19-33 | the response is the filtered listing of the ready store for the options mapped from the parameters, or SeedTables' error with the store unchanged |
| Page.RiskColor | app/page.tsx:11-15 | scores up to 30 are green, those above 30 up to 60 are yellow, and those above 60 are red |
| Page.RiskColorMonotone | app/page.tsx:11-15 | a higher score is never a safer colour |
| Page.Pick | app/page.tsx:17-20 | a page parameter is picked exactly when it is a single value, and then it is that value |
| Page.IsStatus | app/page.tsx:21-23 | exactly the three status names are statuses |
| Page.IsSort | app/page.tsx:24-26 | exactly the five sort names are sorts |
| Page.PageOptions | app/page.tsx:29-45 | defines the list options the page builds; proved equal to the route's options in Page.PageAgreesWithRoute |
| Page.PageAgreesWithRoute | app/page.tsx:29-45 | the page's options are the API route's options for the single-valued parameters |
| Page.ArrayParamIgnored | app/page.tsx:17-20 | a repeated parameter is treated as absent |
| Page.Items | app/page.tsx:29-45 | on success the store is the seeded store and the page shows its filtered listing for the page's options; on a seed failure it gives SeedTables' error with the store unchanged |
| SeedListing.SeedScores | src/lib/db.ts:59-69 | the seed risk scores are 33, 38 and 40, and their ranks ×100 are 7225, 6450 and 6025 |
| SeedListing.RankOrderForced | src/lib/db.ts:121 | in rank order, three rows with strictly decreasing ranks are listed in that order |
| SeedListing.SeededView | src/lib/db.ts:58-71 | the seeded store's view has exactly the three seed airdrops, with their ranks |
| SeedListing.SeededFullListing | src/lib/db.ts:98-124 | the default listing of a freshly seeded store is SOL, EVM, MULTI |

## Left out

- Opening the database: the file path, `mkdirSync`, WAL journal mode and the separate handle that `app/api/import/route.ts` opens are not modelled. The model has one in-memory store with foreign keys enforced.
- `db.exec(SCHEMA)` with `CREATE TABLE IF NOT EXISTS` is treated as changing nothing. The schema's constraints are the invariant `ValidTables`, and the status `CHECK` is enforced by the `Status` type.
- `created_at` and its `datetime('now')` default are not modelled, since nothing reads them.
- The SQL `DEFAULT` values of `risk_factors` are never reached, because every insert names all columns. The defaults are modelled where they take effect, in the risk validation.
- Floating point: scores are computed exactly on scaled integers. A weighted sum whose binary rounding lands at a different side of a half may differ from the real engine.
- `LIKE` wildcards: `%` and `_` inside the search text are matched literally. Case folding covers ASCII only, as SQLite's `LIKE` does by default.
- `Number()` on `riskMin`/`riskMax` is a parameter `toNumber` of the route. `NaN` and fractional bounds are not modelled.
- Request decoding: `req.json()` is not modelled. The body is already a `JsonValue`, and a body that is not JSON is not modelled.
- ImportRoute.Post: the 400 response carries no `flatten()` field-error description.
- The driver's missing-parameter error is modelled as one `StoreError` value. The message text and the name of the missing parameter are not modelled.
- Store.Db.SelectAll and Store.Db.SelectFiltered: rows with equal sort keys may come in any order, since the SQL names no tie-break.
- Store.Db.InsertTripleRows: after a failure the contract states only that the store is valid. `Seed` rolls it back.
- HTTP status codes and JSON response bodies, `FilterBar`, the page's JSX, and the rendering of numbers are not modelled.
- Concurrency between requests is not modelled: each handler runs alone on the store.
- `components/filters/FilterBar.tsx` is not part of this model.
