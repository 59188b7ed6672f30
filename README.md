# LookupTables — a Dafny model

This project models `LookupTables`, the inventory application's in-memory
cache of six reference tables: categories, country codes, order statuses,
payment types, shippers and tax types. The service has two phases.

- **Initialization.** `InitializeAsync` fetches the six tables in a fixed
  order. Each fetcher narrows the fetched rows to display records. Country
  codes are also sorted by name. The first fetch that throws ends the
  initialization.
- **Lookup.** Seven accessors translate a key into a display name, a rate
  text or a rate. Each takes the first row whose key matches. A miss gives
  the default value (null, or zero for the rate), never an exception.

Layout:

- `wrappers.dfy` (`Wrappers`): `Option` (None is C#'s `null`), `Result`
  (a fetch's rows or its exception) and `Outcome` (how the initialization ends).
- `ordinal.dfy` (`Ordinal`): the ordinal string order `Le`, with proofs that
  it is reflexive, total, transitive and antisymmetric.
- `decimals.dfy` (`Decimals`): the C# `decimal` as a significand and a scale.
  The scale is kept because `ToString()` prints it: 20.0m and 20.00m are equal
  but read differently.
- `linq.dfy` (`Linq`): the LINQ operators the service uses. `Select` keeps
  length and order. `FirstIndex` and `FirstOrNone` give the meaning of
  `Where(p).Select(f).FirstOrDefault()`. `OrderBy` is a stable insertion
  sort. It is proved sorted, a permutation and stable. Stability is stated this
  way: for every key `n`, the elements with key `n` come out in input order
  (`WithKey`). It is also proved to be the only such arrangement, so any
  stable sort by the same key gives the same list.
- `data.dfy` (`Data`) and `models.dfy` (`Models`): the fetched row types and
  the stored display records. Only the fields the service reads are declared.
- `lookup_tables.dfy` (`Services`): the class `LookupTables`. It has six
  `Option<seq<…>>` fields, one per list property (`None` is the null list
  before a fetch assigns it), the six fetchers (as static functions),
  `Initialize` and the seven lookups.
- `scenarios.dfy` (`Scenarios`): clients that initialize the service with
  concrete rows and prove what the lookups return.

The lookups are functions, so none of them can change the six tables. The
model follows the code where the code's behaviour is specific:

- A missed name lookup returns `None`, because `FirstOrDefault` on strings
  yields `null`, not an empty string.
- A lookup in a list that is still null would throw (`Enumerable.Where`
  rejects a null source with `ArgumentNullException`). So each lookup
  requires only its own list to be assigned, not the whole service. After a
  run that faulted, the lists assigned before the fault can be searched. The
  exceptions are `GetPaymentType` and `GetShipper` with a null id. They never
  touch the list, so they need nothing.
- `InitializeAsync` can run again. A later run that faults leaves the
  tables partly replaced.

## Model

| member | source | states |
|---|---|---|
| `Linq.Select` | src/Inventory.App/Services/LookupTables.cs:75-80 | the projection has the input's length, and element i is f of input element i |
| `Linq.FirstIndex` | src/Inventory.App/Services/LookupTables.cs:38 | none exactly when no element satisfies the predicate; otherwise an index whose element satisfies it, with no earlier element satisfying it |
| `Linq.FirstOrNone` | src/Inventory.App/Services/LookupTables.cs:36-49 | `Where(p).Select(f).FirstOrDefault()` is null exactly when nothing matches; otherwise it is f of the earliest matching row |
| `Linq.FirstOrNoneAppend` | src/Inventory.App/Services/LookupTables.cs:36-49 | rows after a match never change a lookup (the earliest duplicate wins); a prefix without a match contributes nothing |
| `Linq.Insert` | src/Inventory.App/Services/LookupTables.cs:89 | inserting adds exactly one element to the multiset of rows |
| `Linq.OrderBy` | src/Inventory.App/Services/LookupTables.cs:89 | the sorted sequence is a permutation of its input |
| `Linq.InsertSorted` | src/Inventory.App/Services/LookupTables.cs:89 | inserting into a sorted sequence keeps it sorted |
| `Linq.OrderBySorted` | src/Inventory.App/Services/LookupTables.cs:89 | every pair of elements of the result is in non-decreasing key order |
| `Linq.WithKeyInsert` | src/Inventory.App/Services/LookupTables.cs:89 | an insertion places the new element ahead of every element with an equal key |
| `Linq.OrderByStable` | src/Inventory.App/Services/LookupTables.cs:89 | elements with equal keys keep their input order |
| `Linq.WithKeyNonEmpty` | src/Inventory.App/Services/LookupTables.cs:89 | some element has key n exactly when the elements with key n are not none |
| `Linq.SortedStableUnique` | src/Inventory.App/Services/LookupTables.cs:89 | two sequences sorted by key with the same elements of every key, in the same order, are equal |
| `Linq.OrderByUnique` | src/Inventory.App/Services/LookupTables.cs:89 | a sequence sorted by key that keeps each key's elements in input order is the result of `OrderBy`, so every stable sort agrees with it |
| `Linq.SelectInsert` | src/Inventory.App/Services/LookupTables.cs:89-94 | projecting after an insertion equals inserting the projection, when the projection keeps the key |
| `Linq.SelectOrderBy` | src/Inventory.App/Services/LookupTables.cs:89-94 | sorting and then projecting equals projecting and then sorting, when the projection keeps the key |
| `Ordinal.LeReflexive` | src/Inventory.App/Services/LookupTables.cs:89 | every name sorts at or before itself |
| `Ordinal.LeTotal` | src/Inventory.App/Services/LookupTables.cs:89 | any two names are comparable |
| `Ordinal.LeTransitive` | src/Inventory.App/Services/LookupTables.cs:89 | the name order is transitive |
| `Ordinal.LeAntisymmetric` | src/Inventory.App/Services/LookupTables.cs:89 | two names that sort at or before each other are equal; this is what makes the stable sort unique |
| `Services.LookupTables.constructor` | src/Inventory.App/Services/LookupTables.cs:12-24 | a new service keeps the given rate formatter, and all six lists are null |
| `Services.LookupTables.Initialize` | src/Inventory.App/Services/LookupTables.cs:26-34 | each list becomes the projection of its own fetch when that fetch and all earlier ones succeed, and otherwise keeps its old value (null on a first run); the outcome is the first fault in source order, or success; after a successful run all six lists are assigned |
| `Services.LookupTables.LoadCategories` | src/Inventory.App/Services/LookupTables.cs:70-82 | one record per fetched row |
| `Services.LookupTables.LoadCategoriesFields` | src/Inventory.App/Services/LookupTables.cs:75-79 | record i has the id and the name of fetched row i |
| `Services.LookupTables.LoadCountryCodes` | src/Inventory.App/Services/LookupTables.cs:84-96 | one stored record per fetched row |
| `Services.LookupTables.LoadCountryCodesIsSortedProjection` | src/Inventory.App/Services/LookupTables.cs:89-94 | the stored country codes are the projected rows sorted by name |
| `Services.LookupTables.LoadCountryCodesPermutation` | src/Inventory.App/Services/LookupTables.cs:89-94 | the stored country codes are a permutation of the projected fetched rows |
| `Services.LookupTables.LoadCountryCodesSorted` | src/Inventory.App/Services/LookupTables.cs:89 | the stored country codes are in non-decreasing order of name |
| `Services.LookupTables.LoadCountryCodesStable` | src/Inventory.App/Services/LookupTables.cs:89 | country codes with the same name are stored in the order they were fetched |
| `Services.LookupTables.LoadCountryCodesIsAnyStableSort` | src/Inventory.App/Services/LookupTables.cs:89-94 | any list of the projected rows in name order that keeps the fetched order among equal names is the stored list |
| `Services.LookupTables.LoadOrderStatus` | src/Inventory.App/Services/LookupTables.cs:98-110 | one record per fetched row |
| `Services.LookupTables.LoadOrderStatusFields` | src/Inventory.App/Services/LookupTables.cs:103-107 | record i has the status code and the name of fetched row i |
| `Services.LookupTables.LoadPaymentTypes` | src/Inventory.App/Services/LookupTables.cs:112-124 | one record per fetched row |
| `Services.LookupTables.LoadPaymentTypesFields` | src/Inventory.App/Services/LookupTables.cs:117-121 | record i has the id and the name of fetched row i |
| `Services.LookupTables.LoadShippers` | src/Inventory.App/Services/LookupTables.cs:126-139 | one record per fetched row |
| `Services.LookupTables.LoadShippersFields` | src/Inventory.App/Services/LookupTables.cs:131-136 | record i has the id, the name and the phone of fetched row i |
| `Services.LookupTables.LoadTaxTypes` | src/Inventory.App/Services/LookupTables.cs:141-154 | one record per fetched row |
| `Services.LookupTables.LoadTaxTypesFields` | src/Inventory.App/Services/LookupTables.cs:146-151 | record i has the id, the name and the rate (scale included) of fetched row i |
| `Services.LookupTables.GetCategory` | src/Inventory.App/Services/LookupTables.cs:36-39 | needs the category list assigned; null exactly when no category has the id; otherwise the name of the first category with that id |
| `Services.LookupTables.GetCountry` | src/Inventory.App/Services/LookupTables.cs:41-44 | needs the country list assigned; null exactly when no country code has the code; otherwise the name of the first country with that code |
| `Services.LookupTables.GetOrderStatus` | src/Inventory.App/Services/LookupTables.cs:46-49 | needs the order-status list assigned; null exactly when no order status has the code; otherwise the name of the first one with that code |
| `Services.LookupTables.GetPaymentType` | src/Inventory.App/Services/LookupTables.cs:51-54 | a null id gives "" and needs no list; otherwise null exactly on a miss, or the name of the first payment type with that id |
| `Services.LookupTables.GetShipper` | src/Inventory.App/Services/LookupTables.cs:56-59 | a null id gives "" and needs no list; otherwise null exactly on a miss, or the name of the first shipper with that id |
| `Services.LookupTables.GetTaxDesc` | src/Inventory.App/Services/LookupTables.cs:61-64 | null exactly when no tax type has the id; otherwise the formatter's text for the first match's rate, scale included, followed by " %" |
| `Services.LookupTables.GetTaxRate` | src/Inventory.App/Services/LookupTables.cs:65-68 | zero when no tax type has the id; otherwise the rate, scale included, of the first tax type with that id |
| `Services.LookupTables.TaxDescMatchesRate` | src/Inventory.App/Services/LookupTables.cs:61-68 | a tax description is the text of the rate `GetTaxRate` returns followed by " %"; with no description the rate is zero |
| `Scenarios.CategoryLookups` | src/Inventory.App/Services/LookupTables.cs:26-39 | after loading Beverages (1) and Condiments (2), ids 1 and 2 give those names and id 99 gives null |
| `Scenarios.CountryOrder` | src/Inventory.App/Services/LookupTables.cs:84-96 | United States then France, as fetched, are stored as France then United States |
| `Scenarios.TaxLookups` | src/Inventory.App/Services/LookupTables.cs:61-68 | a 20.0 rate is described as its text plus " %" and rated 20.0; an unknown id is rated 0 |
| `Scenarios.TaxRateScaleKept` | src/Inventory.App/Services/LookupTables.cs:61-64 | rates 20.0 and 20.00 reach the formatter as the decimals they are, scale included |
| `Scenarios.NullIdsBeforeInitialize` | src/Inventory.App/Services/LookupTables.cs:51-59 | null payment-type and shipper ids give "" on a service whose lists are all null |
| `Scenarios.FailedFetch` | src/Inventory.App/Services/LookupTables.cs:26-38 | a fault in the third fetch reports that fault; the categories assigned before it can be searched; the payment types stay null and the service is not fully initialized |

## Left out

- Asynchrony: `async`, `await` and `Task` are not modelled. Each fetch's result (rows or exception) is a parameter of `Initialize`, and the fetches after a fault are ignored.
- The data-service factory, the `CreateDataService` call and the `using` disposal of each handle (lines 72, 86, 100, 114, 128, 142) are resource handling against types that are not part of this model. The `DataServiceFactory` property (line 17) is left out with them.
- `ILookupTables`, the `Inventory.Models` record classes and the data-service row types are not part of this model. Only the fields the service reads are declared for them.
- Services.LookupTables.LoadCountryCodes: sorts with the ordinal order `Ordinal.Le` (code point by code point) instead of the culture-sensitive default comparer of `OrderBy`. Dafny characters are Unicode scalar values, not UTF-16 code units. The proofs use only the facts that the order is total, reflexive, transitive and antisymmetric.
- Services.LookupTables.GetTaxDesc: `decimal.ToString()` depends on the current culture. It is the formatter `RateToString` that the constructor receives, applied to the rate with its scale (`Decimals.Decimal`). The contract fixes the text only up to that formatter, plus the `" %"` suffix.
- A lookup in a list that is still null throws in C#. The model does not model that exception. Each lookup requires its list to be assigned instead.
- The list properties return a mutable `IList`, so a caller could add, remove or replace records and change later lookups. The model stores immutable sequences and does not capture that aliasing.
- Null `Name`, `Phone` or country-code strings in fetched rows are not modelled. A C# lookup that finds a row with a null name cannot be told apart from a miss.
- `int` is unbounded. The service does no arithmetic on ids, so 32-bit width does not matter. A `decimal` is an unbounded significand and scale; the 96-bit significand and the scale limit of 28 are not modelled, since the service only copies rates.
