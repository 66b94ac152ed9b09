# CleanPath spot directory — a Dafny model

CleanPath is a single-page React app. It lists public spots (toilets, cafes,
stations and the like) with a search box, "Clean Only" and "Free Only" filters,
a distance-sorted list and a map. An admin mode, unlocked by a PIN, can add,
verify/unverify and delete spots. This project models the app's state and view
logic, all of which lives in `src/App.js`:

- **Seed data**: the `BASE_SPOTS` loop builds 80 name/category/address records.
  `spotsData` then gives each record an id, a grid position, a random
  cleanliness level with its derived `clean` label, and random `free` and
  `verified` flags.
- **Component state**: the `useState` hooks (`spots`, `query`, `filterClean`,
  `filterFree`, `userLoc`, `isAdmin`, `newSpot`) become the fields of the class
  `App.Directory`. Each handler becomes a method whose field-level `modifies`
  clause names exactly the fields it sets. The pure bodies of the `setSpots`
  updates are functions in `Store`, and the lemmas are proved about those.
- **View pipeline**: the `filtered` chain becomes functions in `View`. It is a
  case-insensitive search over name, address and category, then the clean
  and free filters, then the distance annotation (`null` when the location
  is unknown), then a stable sort on `distance ?? 9999`.
- **Admin gate**: the flag becomes true only when the PIN is `"1234"`, and
  nothing ever clears it. The add form and the Verify/Delete buttons are
  rendered only while the flag holds (src/App.js:309, 413). So `AddSpot`,
  `ToggleVerify`, `DeleteSpot` and the form edits require `isAdmin`.

The model keeps the code's representations. `clean` and `free` are the strings
`"Yes"`/`"No"`, and `level` is one of the strings in `LEVELS`. `Math.random()`
results are supplied as values of the subset type `Random` (0 ≤ r < 1), in the
order the code draws them. `Date.now()` is supplied as the new spot's `id`.
`calcDistance` is a function parameter `dist`. The prompt, alert and confirm
dialogs are inputs and outputs of the methods.

Modules (one file each): `Wrappers` (Option), `Seqs` (filter and
subsequence), `Text` (lower-casing, `includes`, decimal rendering), `Spots`
(the record and its labels), `Seed`, `Store`, `View` and `App`.

Behaviours of the code the model keeps:

- There is no `sponsored` field. So there is no sponsored-first sort key and
  no sponsor toggle.
- There is no persistence.
- Validation does not trim. Only an empty name or address is rejected.
- `toggleVerify` flips the flag; it does not set a given value.
- An added spot's latitude and longitude are moved by the same random offset.
- Ids are not guaranteed unique. `Store.AddPreserves` keeps them distinct only
  when the new id is fresh.
- `handleAddSpot` reads `userLoc.lat` after validation. While the location is
  still `null`, that throws and nothing changes. This is modelled as the
  outcome `NoLocation`.

## Model

| member | source | states |
|---|---|---|
| Seqs.Filter | src/App.js:169 | `Array.prototype.filter`: never longer than its input; what it keeps is given by FilterMembers, FilterCount and FilterIsSubseq |
| Seqs.FilterIsSubseq | src/App.js:173-179 | every `.filter` result is a subsequence of its input |
| Seqs.FilterMembers | src/App.js:173-179 | an element survives a filter iff it is in the input and passes the test |
| Seqs.FilterCount | src/App.js:169 | every copy of an element that passes is kept and every copy of one that fails is dropped |
| Seqs.FilterFusion | src/App.js:173-179 | two filters in a row equal one filter by the conjunction of their tests |
| Seqs.FilterCommutes | src/App.js:178-179 | the order of two filters does not matter |
| Seqs.FilterKeepsAll | src/App.js:178-179 | a filter whose test every element passes returns its input unchanged |
| Seqs.FilterExt | src/App.js:173-177 | filters with tests that agree everywhere return the same list |
| Text.ToLower | src/App.js:175-176 | `toLowerCase` on a string: same length and no upper-case letter left; character by character it is LowerChar |
| Text.LowerChar | src/App.js:175-176 | maps `A`–`Z` to `a`–`z` (code + 32), leaves every other character alone, never returns an upper-case letter |
| Text.ToLowerIdempotent | src/App.js:175-176 | lower-casing twice is lower-casing once |
| Text.Includes | src/App.js:176 | `String.prototype.includes` as a scan for a prefix match; IncludesIffOccurs proves it equal to occurrence at some position |
| Text.IncludesIffOccurs | src/App.js:176 | `includes` holds iff the needle occurs at some position of the text |
| Text.IncludesEmpty | src/App.js:176 | every text includes the empty string |
| Text.MissingCharNotContained | src/App.js:176 | a text missing one of the needle's characters does not contain the needle |
| Text.NatToString | src/App.js:34 | the rendering of a number is a non-empty string of decimal digits |
| Text.DecimalRoundTrip | src/App.js:34 | reading the digits back gives the number |
| Text.NatToStringInjective | src/App.js:34-36 | different numbers render differently |
| Spots.RandomLevel | src/App.js:27-28 | the drawn level is always one of LEVELS |
| Spots.RandomLevelBands | src/App.js:28 | level k is drawn exactly when k ≤ 3·r < k+1 (a third of the unit interval each) |
| Spots.CleanLabel | src/App.js:48 | `clean` is "No" iff the level is bronze, and otherwise "Yes" |
| Spots.YesNo | src/App.js:49 | the stored flag is "Yes" iff the coin flip is true, otherwise "No" |
| Seed.BaseSpotAt | src/App.js:33-37 | the record pushed when the list holds i records; BuildBaseSpots proves the loop pushes exactly these |
| Seed.BaseSpots | src/App.js:31-38 | the 80 records in closed form; BuildBaseSpots proves the loop returns this list |
| Seed.BuildBaseSpots | src/App.js:31-38 | the loop stops at 80 records, record i is "CleanPath Spot i+1" / "Public Toilet" / "Area i+1, Parbhani" |
| Seed.SeedSpot | src/App.js:40-51 | seed idx gets id idx+1, keeps its name/category/address, a level from its draw with the derived `clean`, free "Yes" iff draw > 0.5, verified iff draw > 0.5 |
| Seed.GridPosition | src/App.js:45-46 | seed idx sits at column idx % 10 and row idx / 10, 0.004 degrees apart; GridPositionInjective proves no two seeds share a position |
| Seed.GridPositionInjective | src/App.js:45-46 | different seed indices get different grid positions |
| Seed.SpotsData | src/App.js:40-52 | one spot per base record; spot idx has id idx+1, grid position idx, the record's name/category/address, is well formed, has the level drawn from draw 3·idx, free "Yes" iff draw 3·idx+1 > 0.5, verified iff draw 3·idx+2 > 0.5 |
| Seed.SeedFacts | src/App.js:27-52 | for every draw sequence: 80 spots, ids 1..80 in increasing order and distinct, all "Public Toilet", level in LEVELS, clean "No" iff bronze |
| Seed.SeedNamesDistinct | src/App.js:34-36 | seed names and addresses are pairwise distinct |
| Store.ToggleVerified | src/App.js:162-165 | same length; `verified` flips exactly on spots with that id; every other field of every spot is unchanged |
| Store.ToggleTwice | src/App.js:162-165 | toggling the same id twice is the identity |
| Store.ToggleUnknownId | src/App.js:162-165 | toggling an id no spot carries is a no-op |
| Store.TogglePreserves | src/App.js:162-165 | toggling keeps records well formed and ids distinct |
| Store.RemoveId | src/App.js:169 | `prev.filter(s => s.id !== id)`; its meaning is given by RemoveIdSpec, RemoveUnknownId and RemoveOne |
| Store.RemoveIdSpec | src/App.js:167-169 | after delete, a spot remains iff it was there and its id differs; every copy of a kept spot stays and no copy of a removed one; in original relative order |
| Store.RemoveUnknownId | src/App.js:167-169 | deleting an id no spot carries leaves the list unchanged |
| Store.RemoveOne | src/App.js:167-169 | with distinct ids, deleting a present id shortens the list by exactly one |
| Store.RemovePreserves | src/App.js:167-169 | deleting keeps records well formed and ids distinct |
| Store.Offset | src/App.js:144 | the random offset lies in [-0.005, 0.005) |
| Store.AddAttempt | src/App.js:140-157 | MissingInfo iff name or address is empty; NoLocation iff they are present but the location is null; otherwise the new spot has the given id, the form's name/address/category, verified, free "Yes", a level from LEVELS with clean "No" iff bronze, and both coordinates moved by the same offset |
| Store.AfterAdd | src/App.js:158 | on success exactly one spot is appended after the unchanged old list; otherwise the list is unchanged |
| Store.AddMissingInfo | src/App.js:142 | an empty name or address leaves the collection unchanged |
| Store.AddPreserves | src/App.js:147-158 | adding keeps records well formed, and ids distinct when the new id is fresh |
| View.SearchFilter | src/App.js:173-177 | the search `.filter`; SearchFilterSpec states what it keeps |
| View.CleanFilter | src/App.js:178 | the "Clean Only" `.filter`; CleanFilterSpec states what it keeps |
| View.FreeFilter | src/App.js:179 | the "Free Only" `.filter`; FreeFilterSpec states what it keeps |
| View.Filtered | src/App.js:172-179 | the three `.filter` steps in the code's order; FilteredSpec and FilteredCount state what they keep |
| View.SearchFilterSpec | src/App.js:173-177 | the search keeps a spot iff lower(name + " " + address + " " + category) contains lower(query) |
| View.EmptyQueryKeepsAll | src/App.js:173-177 | an empty query keeps every spot |
| View.SearchIgnoresQueryCase | src/App.js:175-176 | queries that lower-case alike select the same spots |
| View.LowerToilet | src/App.js:176 | "TOILET" lower-cases to "toilet" |
| View.ToiletMatches | src/App.js:173-177 | a "Public Toilet" spot matches the query "TOILET" |
| View.HotelDoesNotMatch | src/App.js:173-177 | a "Hotel" spot does not match the query "TOILET" |
| View.SearchToiletExample | src/App.js:173-177 | searching "TOILET" over a toilet and a hotel returns just the toilet |
| View.CleanFilterSpec | src/App.js:178 | with "Clean only" on, every survivor has clean "Yes" and every such spot survives; off, nothing is removed |
| View.FreeFilterSpec | src/App.js:179 | with "Free only" on, every survivor has free "Yes" and every such spot survives; off, nothing is removed |
| View.CleanFreeCommute | src/App.js:178-179 | the clean and free filters commute |
| View.FilteredIsOneFilter | src/App.js:172-179 | the three filter steps equal one filter by the conjunction of their tests |
| View.FilteredSpec | src/App.js:172-179 | the filtered list is a subsequence of `spots` and holds exactly the spots matching the query and the active filters |
| View.FilteredCount | src/App.js:172-179 | every copy of a spot that passes the search and the active filters is kept, and no copy of any other |
| View.Annotate | src/App.js:180-185 | same length, each spot kept as is, distance null iff the location is null, otherwise dist(userLoc, spot position) |
| View.AnnotateKeepsSpots | src/App.js:180-185 | dropping the added distance gives back the input list |
| View.SortKey | src/App.js:186 | the comparator's key `distance ?? 9999`; SortByDistance and SortExample state the order it gives |
| View.Insert | src/App.js:186 | inserting adds exactly the one element (as a multiset) |
| View.InsertSorted | src/App.js:186 | inserting into a list sorted by `distance ?? 9999` keeps it sorted |
| View.SortByDistance | src/App.js:186 | the sort returns a permutation of its input, ordered by non-decreasing `distance ?? 9999` |
| View.InsertWithKey | src/App.js:186 | an inserted element goes in front of the elements with its own key, and the other keys' elements are untouched |
| View.SortStable | src/App.js:186 | the sort is stable: for each key, the elements with that key keep their pre-sort order |
| View.SortedUnique | src/App.js:186 | two sorted lists with the same elements in the same order under every key are equal |
| View.StableSortIsSortByDistance | src/App.js:186 | every sorted, stable reordering of a list (so the engine's stable `Array.prototype.sort`) equals `SortByDistance` |
| View.SortConstantKey | src/App.js:186 | when every key is equal the sort returns its input unchanged |
| View.SortPair | src/App.js:186 | two elements out of key order are swapped |
| View.SortExample | src/App.js:186 | distance 5 goes before distance 10, and distance 0 (key 0, not 9999) before an unknown distance |
| View.Compute | src/App.js:172-186 | the whole `filtered` expression: filter, annotate, sort; ComputeSpec and ComputeWithoutLocation state what it returns |
| View.ComputeSpec | src/App.js:172-186 | the view is a permutation of the annotated filtered list, sorted by `distance ?? 9999`, with ties in filter order |
| View.ComputeWithoutLocation | src/App.js:182-186 | with the location null every distance is null and the view lists the filtered spots in filter order |
| App.AdminAfterLogin | src/App.js:134-137 | admin mode is never left, the right PIN always grants it, and it is granted only by the PIN "1234" |
| App.Directory.constructor | src/App.js:101-115 | the initial state: `spots` is the seed data, empty query, both filters off, no location, not admin, empty form with category "Public Toilet" |
| App.Directory.Filtered | src/App.js:172-186 | the list rendered from the current fields; View.ComputeSpec states what it holds |
| App.Directory.ResolveLocation | src/App.js:123-132 | the location becomes the reported position, or the fallback 19.27, 76.77 on error |
| App.Directory.Login | src/App.js:134-138 | accepted iff the PIN is "1234"; the flag becomes AdminAfterLogin of the old flag and the PIN; nothing else changes |
| App.Directory.AddSpot | src/App.js:140-160 | callable only in admin mode (the form exists only then); the outcome is AddAttempt on the current form and location; the spots become AfterAdd of the old spots; the form is reset only on success; records stay well formed |
| App.Directory.ToggleVerify | src/App.js:162-165 | callable only in admin mode (the button exists only then); the spots become ToggleVerified of the old spots; no other field changes |
| App.Directory.DeleteSpot | src/App.js:167-169 | callable only in admin mode (the button exists only then); confirmed: the spots become RemoveId of the old spots; not confirmed: unchanged; no other field changes |
| App.Directory.SetQuery | src/App.js:264 | the query becomes the typed text |
| App.Directory.ToggleFilterClean | src/App.js:278 | the "Clean Only" flag is negated |
| App.Directory.ToggleFilterFree | src/App.js:291 | the "Free Only" flag is negated |
| App.Directory.EditName | src/App.js:324-326 | admin mode only; the form's name becomes the text, the rest of the form is unchanged |
| App.Directory.EditAddress | src/App.js:339-341 | admin mode only; the form's address becomes the text, the rest of the form is unchanged |
| App.Directory.EditCategory | src/App.js:353-355 | admin mode only; the form's category becomes the selected text, the rest of the form is unchanged |

## Left out

- `calcDistance` (haversine on floating point) is left out. It is the parameter `dist`, so no geometric property of it (symmetry, zero for equal points) is modelled.
- Coordinates are `real`. The grid positions, the add offset and the fallback location are computed exactly, without IEEE-754 rounding.
- Distances are any `real` given by `dist`. NaN and infinite distances, which would break the comparator, are not modelled.
- `Math.random()` is replaced by supplied draws in [0, 1). The model says which draw gives which value; it says nothing about how likely each value is.
- `Date.now()` is the `id` parameter. Nothing makes it fresh, because the code does not either.
- `toLowerCase` is modelled for ASCII letters only. Unicode case mapping is not modelled.
- `View.SortByDistance`: the browser engine's own sort algorithm (stable since ES2019) is not modelled. The model uses an insertion sort, and `View.StableSortIsSortByDistance` proves that any stable sort gives the same list.
- `navigator.geolocation` is asynchronous. It is reduced to one call of `ResolveLocation` with the optional reported position.
- React's deferred state updates and handler closures are not modelled. Each method applies its update at once. A handler that reads a stale render's `newSpot` or `userLoc` is not modelled.
- `prompt`, `alert` and `window.confirm` are method inputs and results. Their UI is not modelled.
- UI-only parts are not modelled: the splash screen and its timer, the selected spot and `MapFlyTo`, `CleanBadge`, the Leaflet icon fix, map markers and popups, the "Showing N spots" line, `toFixed` formatting and the rest of the JSX markup.
