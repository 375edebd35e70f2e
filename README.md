# Farm stores: herd, vaccinations, milk ledger and users

A Dafny model of the two state stores of a farm-management dashboard.

- **The animal store** (`project/src/stores/animalStore.ts`) keeps:
  - the herd;
  - the vaccination records;
  - the daily milk production entries, each with its expenses;
  - an archive with one record per closed year.

  It derives these views:
  - the active herd and its species counts;
  - a financial summary of purchases and sales;
  - the vaccinations due in the next thirty days;
  - a milk summary of the current year, with per-farm and per-month buckets;
  - the age text of an animal.

  Computing the milk summary first archives last year's entries when any entry lies outside the current year.
- **The auth store** (`project/src/stores/authStore.ts`) keeps the logged-in user and the user list. It enforces the user-administration policy:
  - emails are unique on creation;
  - the only admin keeps the admin role and cannot be deleted;
  - the last active admin cannot be deactivated;
  - no user can deactivate or delete themselves.

Layout:

- `options.dfy` holds `Option` and `Result`.
- `seqs.dfy` holds JavaScript's `filter`, `findIndex`, `find` and sum-`reduce` as functions, with lemmas about them.
- `decimal.dfy` renders integers the way `toString()` does, with a reader that undoes it.
- `farm_types.dfy` holds the records of `project/src/types/index.ts`.
- `milk_ledger.dfy` is the milk summary and the yearly archive. It has:
  - the specification functions `Sum`, `GroupMap` and `Select`;
  - the loops proved against them;
  - the conservation and ordering laws.
- `herd.dfy` holds the pure queries, the partial-update merges and `calculateAge`.
- `animal_store.dfy` is the animal store as a class whose methods update its collections.
- `auth_store.dfy` is the auth store as a class, with its policy guards and what they preserve.

Representation choices:

- Money, liters and prices are integers.
- A milk entry's date is a (year, month, day) triple, and its month key is the (year, month) pair. The key is ordered year first, then month, as `localeCompare` orders zero-padded `"YYYY-MM"` strings.
- Vaccination due dates and the current moment are instants in milliseconds.
- The clock is a parameter: the current year for the milk summary, the current instant for the vaccination window.
- So are the `Date.now()` ids: a fresh-id parameter.

Consequences the proofs make explicit:

- After a deletion, the length-based id of `addAnimal` can repeat an id in use (`Animals.NextIdCanRepeatAfterDelete`).
- `updateUser` checks roles only. It can therefore deactivate the last active admin (`Auth.UpdateCanDeactivateLastActiveAdmin`) and give a user another user's email (`Auth.UpdateCanDuplicateEmail`).
- `deleteUser` removes every user with the id. Two admins sharing an id therefore pass the only-admin guard and are both deleted (`Auth.SharedIdDeletesEveryAdmin`).

Where the code departs from what it evidently intends:

- **The archive prune.** The last step of `archiveLastYearData` (animalStore.ts:405-408) filters by `currentYearStart` and `currentYearEnd`. Those are locals of `milkProductionSummary` (animalStore.ts:280-281), not of the archiver. As written, the prune throws after the archive record has been pushed. The entries are then never pruned, and every later summary appends another archive of the same year. Here the model follows the intent, not the code: `ArchiveLastYearData` takes the current year and keeps exactly the current-year entries.
- **Entries of other years.** Only last year is ever archived. With no entries from last year, the archiver returns before pruning (animalStore.ts:361), so entries of other years stay in the list; with some, the prune as intended drops every entry outside the current year without archiving it (as written it throws instead, see above). Either way an entry two or more years old is never archived. A future-dated entry that stays in the list is archived once its year has become last year. The model follows the code for the early return and the one archived year, and the intent for the prune.

## Model

| member | source | states |
|---|---|---|
| Seqs.Filter | project/src/stores/animalStore.ts:170-172 | `filter` keeps exactly the elements that pass, and never more than it was given |
| Seqs.FilterOfFilter | project/src/stores/animalStore.ts:174-180 | filtering by one predicate and then another is filtering once by their conjunction |
| Seqs.FilterAppend | project/src/stores/animalStore.ts:170-172 | filtering a concatenation filters each part and concatenates the results, so kept elements stay in their original order |
| Seqs.FindIndex | project/src/stores/animalStore.ts:421-426 | `findIndex` is -1 exactly when nothing matches, and otherwise the first matching position |
| Seqs.Find | project/src/stores/animalStore.ts:412-414 | `find` is absent exactly when nothing matches, and otherwise the element at the first matching position |
| Seqs.FilterSplit | project/src/stores/animalStore.ts:217-263 | splitting by two complementary predicates loses no element and no amount: counts and sums of the two parts add up to the whole |
| Seqs.FilterUpdateAt | project/src/stores/authStore.ts:97 | replacing one element changes the number passing a filter only by what the old element took away and the new one adds |
| Seqs.OnlyOnePasses | project/src/stores/authStore.ts:84 | when the element at `i` passes, exactly one element passes precisely when no other position passes |
| Seqs.FilterAllBut | project/src/stores/authStore.ts:153 | when only the element at `i` fails the filter, filtering removes exactly that element |
| Decimal.NatToString | project/src/stores/animalStore.ts:417 | `toString()` of a non-negative number is a non-empty string of digits with no leading zero |
| Decimal.ValueOfNatToString | project/src/stores/animalStore.ts:417 | reading back the digits of `toString()` gives the number rendered |
| Decimal.NatToStringInjective | project/src/stores/animalStore.ts:417 | different numbers get different id strings |
| Decimal.ReadIntToString | project/src/stores/animalStore.ts:456-459 | an integer rendered in a template literal, followed by non-digit text, reads back as that integer and that text |
| MilkLedger.Contribution | project/src/stores/animalStore.ts:299-301 | defines one entry's figures: its liters, income = liters × price per liter, expenses = the sum of its expense amounts, and balance = income − expenses |
| MilkLedger.Sum | project/src/stores/animalStore.ts:303-306 | defines the overall figures as the entries' figures added up in list order, starting from zero |
| MilkLedger.SumBalanced | project/src/stores/animalStore.ts:299-306 | adding up entries keeps the balance equal to the income less the expenses (total balance = total income − total expenses) |
| MilkLedger.InYear | project/src/stores/animalStore.ts:293-295 | the current-year filter keeps exactly the entries dated in that calendar year |
| MilkLedger.SelectIdempotent | project/src/stores/animalStore.ts:293-295 | filtering the already-pruned list by the current year again changes nothing, so the summary sees the same entries whether or not it archived first |
| MilkLedger.GroupMapIsGrouped | project/src/stores/animalStore.ts:308-319 | the bucket map built entry by entry has a key for exactly the farms (or months) that occur, and each bucket holds the sum of that key's entries |
| MilkLedger.GroupMapBalanced | project/src/stores/animalStore.ts:390-393 | every bucket built entry by entry balances: balance = income − expenses |
| MilkLedger.GroupsConserve | project/src/stores/animalStore.ts:308-335 | the buckets of distinct keys that cover every entry add up to the overall figures |
| MilkLedger.FarmBucketsConserve | project/src/stores/animalStore.ts:308-320 | summing a summary's farm buckets, each farm once, gives exactly its total liters, income, expenses and balance |
| MilkLedger.InsertBucket | project/src/stores/animalStore.ts:339-340 | inserting a bucket for a new month keeps the list strictly ascending, adds exactly that bucket and its key |
| MilkLedger.SortMonthBuckets | project/src/stores/animalStore.ts:339-340 | the month map's buckets come out strictly ascending by key, one per key, each with the map's figures |
| MilkLedger.MonthBucketsUnique | project/src/stores/animalStore.ts:322-340 | the month list of a set of entries is unique, whatever order the months were first met in |
| MilkLedger.MonthBucketsConserve | project/src/stores/animalStore.ts:322-340 | the month buckets add up to the overall figures |
| MilkLedger.AccumulateEntries | project/src/stores/animalStore.ts:297-336 | the summary loop leaves the overall figures equal to the sum of all entries, and the farm and month maps equal to the per-key sums |
| MilkLedger.SummarizeEntries | project/src/stores/animalStore.ts:265-343 | the summary of a list of entries: totals, one bucket per farm that occurs, one bucket per month ascending, each holding its entries' sums |
| MilkLedger.SummaryOfFolds | project/src/stores/animalStore.ts:338-340 | the folded totals, farm map and sorted month list together form the summary of the entries |
| MilkLedger.ArchiveMonthStep | project/src/stores/animalStore.ts:382-394 | the archive loop's month update (add liters, income, expenses; recompute the balance) equals adding the entry's figures |
| MilkLedger.BuildYearlyArchive | project/src/stores/animalStore.ts:363-399 | the archive record carries the year, the sums of its entries with balance = income − expenses, and the ascending month buckets of those entries |
| MilkLedger.HistoricalMonthlyData | project/src/stores/animalStore.ts:490-496 | a found bucket has the requested month key and comes from an archive of that year; with no archive of that year the result is absent |
| MilkLedger.HistoricalLookup | project/src/stores/animalStore.ts:490-496 | looking up a month of the first archive of a year gives that month's sums from the archived entries, and nothing for a month without entries |
| Herd.ActiveAnimals | project/src/stores/animalStore.ts:170-172 | the active animals are exactly the listed animals whose status is active, no more than there are animals |
| Herd.CattleCount | project/src/stores/animalStore.ts:174-176 | the number of active animals that are cattle: the length of the active herd filtered by species Ganado; at most the number of animals, and zero exactly when no active animal is cattle |
| Herd.HorseCount | project/src/stores/animalStore.ts:178-180 | the number of active animals that are horses: the length of the active herd filtered by species Caballos; at most the number of animals, and zero exactly when no active animal is a horse |
| Herd.SpeciesCountsAddUp | project/src/stores/animalStore.ts:174-180 | the cattle count plus the horse count equals the number of active animals |
| Herd.FinancialSummaryOf | project/src/stores/animalStore.ts:217-263 | defines the summary: investment = sum of purchase prices of the purchased animals, sales = sum of sale prices of the sold ones, balance = sales − investment, and count and total per species for each |
| Herd.FinancialSummaryAddsUp | project/src/stores/animalStore.ts:217-263 | balance = sales − investment; the ganado and caballos purchase counts and totals add up to all purchases and the total investment, and likewise for sales |
| Herd.InvestmentIsSumOfPrices | project/src/stores/animalStore.ts:218-223 | the total investment is the sum of purchase prices over all animals, those without purchase data counting zero |
| Herd.UpcomingVaccinations | project/src/stores/animalStore.ts:208-215 | a record is listed exactly when its due date lies between now and thirty days from now, both ends included |
| Herd.UpcomingWindowEdges | project/src/stores/animalStore.ts:210-214 | due now or in exactly thirty days is listed; a moment before now or after thirty days is not |
| Herd.GetAnimalById | project/src/stores/animalStore.ts:412-414 | absent exactly when no animal has the id; otherwise a listed animal with that id |
| Herd.LookupFindsEarliest | project/src/stores/animalStore.ts:412-414 | with several animals sharing an id, the lookup returns the earliest |
| Herd.MergeAnimal | project/src/stores/animalStore.ts:424 | defines `{ ...animal, ...updates }`: each field the update supplies replaces the stored one, every other field is kept |
| Herd.MergeVaccination | project/src/stores/animalStore.ts:193-196 | defines `{ ...record, ...updates }` the same way for vaccination records |
| Herd.MergeProduction | project/src/stores/animalStore.ts:479 | defines `{ ...production, ...updates }` the same way for milk entries |
| Herd.MergeAnimalLaws | project/src/stores/animalStore.ts:421-426 | merging no fields changes nothing; two merges equal one merge of the combined update (later fields win); repeating a merge changes nothing |
| Herd.MergeVaccinationLaws | project/src/stores/animalStore.ts:189-198 | the same laws for `{ ...record, ...updates }` on vaccination records |
| Herd.MergeProductionLaws | project/src/stores/animalStore.ts:476-481 | the same laws for `{ ...production, ...updates }` on milk entries |
| Herd.JsRem | project/src/stores/animalStore.ts:454 | `% 12` keeps the dividend's sign: the remainder lies strictly between −12 and 12 and is negative only for a negative month difference, and differs from the dividend by a multiple of 12, which together determine JavaScript's truncating remainder |
| Herd.FormatAge | project/src/stores/animalStore.ts:456-459 | defines the age text: "Y año(s)", then " y M mes(es)" when there are months or a trailing space when not; "M mes(es)" under one year; the plural is used for every count but 1 |
| Herd.CalculateAge | project/src/stores/animalStore.ts:450-460 | defines `calculateAge` as that text of the whole years and of the month difference `% 12`, with JavaScript's sign rule |
| Herd.ParseFormatAge | project/src/stores/animalStore.ts:450-460 | the age text reads back as (years, months) when both show; as (years, 0) when there are no further months (trailing space included); as (0, months) under one year |
| Herd.YearsAndMonthsExample | project/src/stores/animalStore.ts:457 | two years and three months is the text "2 años y 3 meses" |
| Herd.WholeYearExample | project/src/stores/animalStore.ts:456-457 | one whole year with no further months is the text "1 año " with a trailing space |
| Herd.FutureBirthExample | project/src/stores/animalStore.ts:453-459 | a birth date five months in the future shows as "-5 meses" |
| Animals.NextIdIsFresh | project/src/stores/animalStore.ts:416-419 | as long as ids were only ever assigned by appending, the next length-based id is not in use |
| Animals.AppendKeepsNumbering | project/src/stores/animalStore.ts:416-419 | appending under the next length-based id keeps the ids assigned by appending, so `NextIdIsFresh` applies again after each `addAnimal` |
| Animals.NextIdCanRepeatAfterDelete | project/src/stores/animalStore.ts:416-448 | deleting "1" from animals "1","2" and then adding gives the new animal id "2" again, and a lookup of "2" finds the older one |
| Animals.SpliceRemovesOne | project/src/stores/animalStore.ts:483-488 | `splice(index, 1)` removes exactly the one element at `index` |
| Animals.AnimalsWithout | project/src/stores/animalStore.ts:436 | the filtered list holds exactly the animals whose id differs |
| Animals.DeleteProductionKeepsLaterTwin | project/src/stores/animalStore.ts:483-488 | with two entries sharing an id, deleting that id removes only the first and leaves the second |
| Animals.AnimalStore.constructor | project/src/stores/animalStore.ts:8-164 | the store holds the given animals, vaccination records and milk entries, and no archived year |
| Animals.AnimalStore.AddVaccinationRecord | project/src/stores/animalStore.ts:182-187 | appends the record under the fresh id; nothing else changes |
| Animals.AnimalStore.UpdateVaccinationRecord | project/src/stores/animalStore.ts:189-198 | merges the updates into the first record with the id only; no change when the id is absent |
| Animals.AnimalStore.DeleteVaccinationRecord | project/src/stores/animalStore.ts:200-206 | removes every record with the id; no change when the id is absent |
| Animals.AnimalStore.AddAnimal | project/src/stores/animalStore.ts:416-419 | appends the animal with id = number of animals + 1 |
| Animals.AnimalStore.UpdateAnimal | project/src/stores/animalStore.ts:421-426 | merges the updates into the first animal with the id only; no change when the id is absent |
| Animals.AnimalStore.DeleteAnimal | project/src/stores/animalStore.ts:428-448 | true exactly when some animal has the id, and then every animal with the id is removed; false and no change otherwise |
| Animals.AnimalStore.AddMilkProduction | project/src/stores/animalStore.ts:463-466 | appends the entry with id = number of entries + 1 |
| Animals.AnimalStore.AddMilkExpense | project/src/stores/animalStore.ts:468-474 | appends the expense, numbered one past that entry's expenses, to the first entry with the id; no change when there is none |
| Animals.AnimalStore.UpdateMilkProduction | project/src/stores/animalStore.ts:476-481 | merges the updates into the first entry with the id only; no change when the id is absent |
| Animals.AnimalStore.DeleteMilkProduction | project/src/stores/animalStore.ts:483-488 | removes only the first entry with the id; no change when the id is absent |
| Animals.AnimalStore.ArchiveLastYearData | project/src/stores/animalStore.ts:350-409 | with no entries from last year nothing changes; otherwise it appends one archive record of last year's entries, keeps the earlier records, and keeps exactly the current-year entries in order |
| Animals.AnimalStore.MilkSummary | project/src/stores/animalStore.ts:265-343 | the result is the summary of the current-year entries; when some entry lies outside the current year and some entry is from last year, last year is archived and only current-year entries remain; otherwise the entries and archives are unchanged |
| Auth.IndexOfId | project/src/stores/authStore.ts:77 | -1 exactly when no user has the id; otherwise the first position with it |
| Auth.FindLogin | project/src/stores/authStore.ts:29 | absent exactly when no active user has that email and password; otherwise the first listed user that is active and has them |
| Auth.UpdatedRecord | project/src/stores/authStore.ts:93-97 | the stored record becomes the submitted one in every field but the password; an empty submitted password keeps the stored one, and a non-empty one replaces it |
| Auth.LosesOnlyAdmin | project/src/stores/authStore.ts:83-86 | defines the update guard: exactly one admin-role user, the user at the index is that admin, and the new role is not admin |
| Auth.IsLastActiveAdmin | project/src/stores/authStore.ts:115-118 | defines the toggle guard: the user at the index is an active admin and there is exactly one active admin |
| Auth.IsOnlyAdmin | project/src/stores/authStore.ts:140-142 | defines the delete guard: the user at the index is an admin and there is exactly one admin-role user |
| Auth.OnlyAdminHasNoRival | project/src/stores/authStore.ts:140-142 | the delete guard holds exactly when the user at the index is an admin and no other user has the admin role |
| Auth.LastActiveAdminHasNoRival | project/src/stores/authStore.ts:115-118 | the toggle guard holds exactly when the user at the index is an active admin and no other user is one |
| Auth.Without | project/src/stores/authStore.ts:153 | the filtered list holds exactly the users whose id differs |
| Auth.CreateKeepsEmailsUnique | project/src/stores/authStore.ts:61-74 | creation refuses registered emails, so unique emails stay unique |
| Auth.UpdateKeepsAnAdmin | project/src/stores/authStore.ts:82-97 | an update that passes the only-admin guard leaves at least one admin-role user |
| Auth.ToggleKeepsAnActiveAdmin | project/src/stores/authStore.ts:114-129 | a toggle that passes the last-active-admin guard leaves at least one active admin |
| Auth.ToggleKeepsAdminCount | project/src/stores/authStore.ts:129 | a toggle changes no role, so the number of admin-role users is unchanged |
| Auth.DeleteKeepsAnAdmin | project/src/stores/authStore.ts:139-153 | with unique ids, a deletion that passes the only-admin guard removes just the user found and leaves at least one admin-role user |
| Auth.SharedIdDeletesEveryAdmin | project/src/stores/authStore.ts:139-153 | two admins sharing an id pass the guard and are both removed, leaving no admin |
| Auth.UpdateCanDeactivateLastActiveAdmin | project/src/stores/authStore.ts:82-97 | an update that keeps the role but clears `active` passes the guard and leaves no active admin |
| Auth.UpdateCanDuplicateEmail | project/src/stores/authStore.ts:76-97 | an update passes with another user's email, so emails stop being unique |
| Auth.AuthStore.constructor | project/src/stores/authStore.ts:7-20 | nobody is logged in and the seeded administrator is the only user |
| Auth.AuthStore.Login | project/src/stores/authStore.ts:28-39 | succeeds exactly when an active user has that email and password, then logs in the first such user; on failure nothing changes |
| Auth.AuthStore.Logout | project/src/stores/authStore.ts:41-47 | nobody is logged in afterwards, whatever the state before |
| Auth.AuthStore.CreateUser | project/src/stores/authStore.ts:61-74 | a registered email is refused and nothing changes; otherwise exactly the new user with the fresh id is appended |
| Auth.AuthStore.UpdateUser | project/src/stores/authStore.ts:76-106 | refuses an unknown id, then a role change of the only admin, leaving everything unchanged; otherwise replaces only the first user with the id, keeps the stored password when the new one is empty, and refreshes the current user when it is the one updated |
| Auth.AuthStore.ToggleUserStatus | project/src/stores/authStore.ts:108-131 | refuses an unknown id, the last active admin, then the current user, leaving everything unchanged; otherwise flips only that user's `active` |
| Auth.AuthStore.DeleteUser | project/src/stores/authStore.ts:133-155 | refuses an unknown id, the only admin, then the current user, leaving everything unchanged; otherwise removes every user with the id |

Every method of `Auth.AuthStore` keeps the session consistent. Logged in means there is a current user, and the current user is one of the listed users (`Auth.AuthStore.Valid`).

## Left out

- Session persistence: the `sessionStorage` reads and writes, the JSON round trip and `initAuth` (authStore.ts:34-35, 45-46, 50-58, 102). They are browser I/O; only `user` and `isAuthenticated` are modelled.
- The console logging in the vaccination actions and `deleteAnimal`, and `deleteAnimal`'s `try/catch`. Nothing in that block can throw on the modelled values.
- Vue/Pinia plumbing: `ref`, `computed`, and the getters that only expose state (`allAnimals`, `currentUser`, `authStatus`, `users`). Also left out is `availableFarms`, a constant list, and the seed data. `Animals.AnimalStore` starts from given collections; the auth store's one seeded user is modelled.
- The date library: `parseISO`, `startOfYear`, `endOfYear`, `isWithinInterval`, `addDays`, `differenceInYears` and `differenceInMonths`. Dates are given already split into year, month and day, or as instants. `Herd.CalculateAge` takes the year and month differences as inputs.
- Herd.UpcomingVaccinations: the window is thirty times 24 hours. `addDays` adds calendar days in local time, which can differ by the daylight-saving hour.
- Herd.UpcomingVaccinations, Herd.UpcomingWindowEdges: due dates are instants. In the source a date-only `nextDueDate` is parsed to local midnight, so a record due on today's date is listed only at exactly midnight; counted in dates, the listed range is tomorrow through the thirtieth day. "Due now is listed" holds for instants, not for the source's date strings at any later time of day.
- MilkLedger.AccumulateEntries, MilkLedger.SummarizeEntries: the farm buckets are a map. The source's `farmData` is a plain object (animalStore.ts:275), so a farm named like an inherited property (`constructor`, `toString`, `__proto__`) finds a truthy value at line 309, gets no bucket of its own, and the `+=` at lines 317-320 writes NaN onto the inherited object. The model gives such a farm an ordinary bucket; farm names come from the fixed `availableFarms` list (animalStore.ts:345-347).
- Floating point: JavaScript numbers are doubles; liters, prices and amounts are integers here, without rounding.
- Animals.AnimalStore.ArchiveLastYearData: models the prune by the current year that the code names. The `ReferenceError` the code throws at that point is not modelled, nor are the repeated archives of the same year it leads to.
- MilkLedger.Before: orders month keys as `localeCompare` orders `"YYYY-MM"` strings only for four-digit years and months 1-12. The same holds for `MilkLedger.HistoricalMonthlyData`'s zero-padded key.
- Partial updates that set a required field to `undefined`: they fall outside the record types and are not modelled. An optional field may be set to absent.
- Animals.AnimalStore.AddAnimal, AddMilkProduction, AddVaccinationRecord: the `Omit<…, 'id'>` argument is a full record whose id is overwritten. This matches the spread order, where `id` is written last.
- Auth.AuthStore.UpdateUser: mutating the caller's object when the password is empty is not modelled, since values are not shared. The merged record equals the argument with the password filled in, because a `User` supplies every field.
- Animals.AnimalStore.AddMilkProduction, UpdateMilkProduction, AddMilkExpense: the shared `expenses` array is not modelled. The spreads at animalStore.ts:465 and 479 copy shallowly, so a stored entry shares its `expenses` array with the caller's object. `production.expenses.push` (animalStore.ts:472) then mutates that array in place, and the expense also appears in the caller's object and in every other entry built from the same array. The model's entries are values, and only the entry found changes.
- Aliasing between `user` and the list entry it was found in is not modelled. Toggling and deleting the current user are refused, and updating it refreshes `user`, so the two never diverge.
