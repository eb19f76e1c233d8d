# firebase-admin-panel: the dummy-listing generator, the auth provider and the admin pages in Dafny

This project models the logic of a small Firebase admin panel for garage-sale listings.

- **The dummy-listing generator** (`generateDummyListings` in `src/services/dummyData.js`).
  - It checks that the caller is a signed-in admin.
  - It stages three merge-upserts of fixed seed users into one write batch.
  - For each listing it composes a document from fixed pools: an author, a category, three distinct items, three distinct tags, event dates, a Sydney location (a geocoder hit or a synthetic fallback), views and a featured flag.
  - It stages the listing write, an `arrayUnion` of the new id into the author's `listings`, and a `views/{id}` document.
  - It commits the whole batch atomically.
- **The auth provider** (`src/context/AuthContext.js`). It is a state machine over `user`, `isAdmin` and `loading`, driven by auth events and by the settling of the awaited admin check.
- **The admin pages.** These are `src/pages/users/UsersPage.js`, `src/components/users/UserList.js` and `src/pages/listings/ListingsPage.js`. Each one maps a fetched snapshot to rows, updates its list locally after a remote action (make admin, delete), and applies display rules to each row.

Modules follow the program:

| module | file | models |
|---|---|---|
| `Wrappers`, `Documents` | `wrappers.dfy`, `documents.dfy` | Option/Result; JavaScript/Firestore values, truthiness, `d.k \|\| fallback` |
| `RandomDraws` | `random_draws.dfy` | `Math.random()` as a finite stream of reals in [0,1); `Math.floor(r * n)` |
| `DummyPools` | `dummy_pools.dfy` | the seed users, Sydney bounds and regions, categories, items, tags, street stems |
| `DummySampling` | `dummy_sampling.dfy` | `getRandomItems`, `getRandomTags` (while loops over a Set) |
| `DummyCompose` | `dummy_compose.dfy` | event dates, coordinates, geocoded and fallback locations, title, description |
| `DummyStore` | `dummy_store.dfy` | the users/listings/views collections, staged batch operations, the atomic commit |
| `DummyGenerator` | `dummy_generator.dfy` | `generateDummyListings`: authorization, the generation loop, staging, commit |
| `AuthContext` | `auth_context.dfy` | `AuthProvider` as a class with two-step callback handling |
| `Rows` | `rows.dfy` | snapshot-to-row mapping, `toDate()` fallbacks, the shared make-admin update |
| `UsersPage`, `UserList`, `ListingsPage` | `users_page.dfy`, `user_list.dfy`, `listings_page.dfy` | each component's state class, its row mapping and its display rules |

How the effects are modelled:

- **Randomness.** Every `Math.random()` call consumes the next element of an explicit `seq<Draw>`, in source order. Each consumer returns the unused suffix.
- **Running out of draws.** A finite stream can run out, which never happens in JavaScript. The model reports this as `None` or as the error `Exhausted`. Functions such as `DummyGenerator.ListingRest` say how many draws each step takes. The contracts state that `None` and `Exhausted` happen exactly when the auto-ids, the clock readings or the draws run out.
- **The geocoder** is a total function from coordinates to `Threw | Results(hits)`. A hit without `address_components` stands for the TypeError thrown at `addressComponents.find`.
- **Other remote calls** are parameters saying how they settled: the caller's `getDoc`, the batch commit, `makeUserAdmin`, `deleteDoc`, `getDocs`, `checkIsAdmin` and `window.confirm`.
- **Listing ids.** Listing auto-ids are a parameter too.
- **The clock.** Each listing's `generateEventDates` reads `new Date()`. The model takes these readings as a list of integers in milliseconds, one per listing in loop order.
- **`serverTimestamp()`** is one opaque token.
- **`toLocaleDateString`** is a parameter of type `int -> string`.

Where the code may surprise, the model follows it:

- **The synthetic fallback location has no `suburb` key.** The code spreads the region object (`...region`), so the fallback carries the region's `name` instead (`src/services/dummyData.js:133-140`, `145-152`). `DummyCompose.Location` has two constructors for this reason.
- **The catch path draws its own values.** When the geocoder throws, the code draws a new region and new coordinates; it does not reuse the ones drawn before the call (`src/services/dummyData.js:141-152`).
- **A failed page fetch shows the empty list.** The code logs the error and stops loading, so the page keeps its empty list; there is no inline error state (`src/pages/users/UsersPage.js:26-30`, `src/pages/listings/ListingsPage.js:35-39`).

## Model

| member | source | states |
|---|---|---|
| RandomDraws.Pick | src/services/dummyData.js:53 | `Math.floor(r * n)` for r in [0,1) is an index below n, and it is the floor of r·n |
| DummyPools.PoolsWellFormed | src/services/dummyData.js:6-47 | there are 3 seed users with uids dummy1..3 and 5 regions; each of the 9 categories has 5 distinct items; there are 13 distinct tags |
| DummySampling.Sample | src/services/dummyData.js:52-53 | a complete sample has reached its target; an incomplete one has used up every draw and is still below its target |
| DummySampling.SampleSound | src/services/dummyData.js:49-64 | the Set-filling loop keeps distinct pool elements and extends what it started with; it never exceeds its target and stops complete exactly when the target is reached |
| DummySampling.DistinctWithinPool | src/services/dummyData.js:52 | pigeonhole: distinct elements drawn from a pool are at most as many as the pool |
| DummySampling.OverlargeTargetNeverCompletes | src/services/dummyData.js:58-64 | a target above the pool size is never reached, whatever the draws: the unbounded tag loop would not terminate |
| DummySampling.SampleByIndex | src/services/dummyData.js:49-64 | over a pool of distinct names, whether the loop completes, and the draws it leaves, depend only on the pool positions drawn (`IndexSample`) |
| DummySampling.GetRandomItems | src/services/dummyData.js:49-56 | the loop computes the sample with target min(count, pool size); the items are distinct and from `ITEMS[category]`; there are at most that many, and exactly that many unless the draws ran out |
| DummySampling.GetRandomTags | src/services/dummyData.js:58-64 | the loop computes the sample of `TAGS` with target count; a complete result has exactly max(count, 0) distinct tags; for count > 13 it is never complete |
| DummyCompose.GenerateEventDates | src/services/dummyData.js:66-79 | exactly one entry, 09:00-16:00; it starts 0..13 whole days after now; the end equals the start for a one-day sale and is 1 or 2 days later for a multi-day one |
| DummyCompose.GetRandomCoordinate | src/services/dummyData.js:81-83 | `r * (max - min) + min` lies in [min, max], and below max when min < max |
| DummyCompose.DrawnCoordinatesInSydney | src/services/dummyData.js:99-101 | coordinates drawn between the bounds lie inside the Sydney box |
| DummyCompose.FindComponent | src/services/dummyData.js:116-118 | `find(c => c.types.includes(t))` returns the first component of type t, or none when no component has it |
| DummyCompose.ComponentName | src/services/dummyData.js:116-118 | `?.long_name \|\| fallback` is the first matching component's non-empty name, or else the fallback |
| DummyCompose.GeocodedLocation | src/services/dummyData.js:111-130 | address is "{street_number} {route}" with '' for missing parts; suburb is the first locality or else the region name (so it is never empty); state and postcode come from the region |
| DummyCompose.DecimalString | src/services/dummyData.js:134 | a template literal renders a number as a non-empty string of digits |
| DummyCompose.DecimalRoundTrip | src/services/dummyData.js:134 | parsing the rendered digits gives back the number |
| DummyCompose.FallbackHouseNumber | src/services/dummyData.js:134 | `Math.floor(Math.random() * 200) + 1` is in 1..200 |
| DummyCompose.FallbackStem | src/services/dummyData.js:134 | the street stem is one of Park, Beach, Forest, Hill |
| DummyCompose.FallbackLocation | src/services/dummyData.js:132-152 | the fallback has "{n} {stem} Street" and the region's name, postcode and state spread in, with no suburb |
| DummyCompose.FallbackAddressDecodes | src/services/dummyData.js:134 | the house number and the stem can be read back from a synthetic address |
| DummyCompose.LocationRest | src/services/dummyData.js:85-154 | the draws left after a location are a suffix of the stream, at least 3 shorter |
| DummyCompose.GenerateRandomLocation | src/services/dummyData.js:85-154 | the result is inside the box with a region's state and postcode. A usable hit gives the geocoded location (3 draws). No result gives the fallback with the same region and coordinates (5 draws). A throw or a hit without components takes the catch path (8 draws): the fallback with a new region, new address draws and new coordinates. It fails exactly when `LocationRest` says the draws run out, and then leaves the draws `LocationRest` names. On success the location is `RandomLocation(rs, geocode)`, the three cases above written as one function of the draws and the geocoder. |
| DummyCompose.DescriptionSuffix | src/services/dummyData.js:196 | the description ends in 'Multi-day sale!' iff multi-day, and in 'One day only!' iff not |
| DummyCompose.Title | src/services/dummyData.js:195 | the title begins with the author's display name and ends with "{category} Sale" |
| DummyCompose.Join | src/services/dummyData.js:196 | `items.join(', ')` begins with the first item and ends with the last; a single item is the whole text; no items give the empty text |
| DummyCompose.Description | src/services/dummyData.js:196 | the description begins with the joined items and ends with 'Multi-day sale!' for a multi-day sale and 'One day only!' otherwise |
| DummyStore.ArrayUnion | src/services/dummyData.js:216 | `arrayUnion(e)` always holds e; on an array it keeps the array as a prefix, grows by at most one, and holds exactly the old elements and e; on anything else it gives `[e]` |
| DummyStore.ApplyOp | src/services/dummyData.js:177-225 | a merge-set adds and overwrites only its fields; an update of a missing user fails and is the only failure; an arrayUnion update changes that one field; a listing or views set replaces that one document; nothing else changes |
| DummyStore.ApplyAll | src/services/dummyData.js:228 | the empty batch changes nothing |
| DummyStore.ApplyAllWithoutUpdates | src/services/dummyData.js:228 | a batch without updates never fails |
| DummyStore.ApplyAllKeepsKeys | src/services/dummyData.js:228 | a successful batch never removes a document from any collection |
| DummyStore.ApplyAllAppend | src/services/dummyData.js:228 | committing a + b is committing a, then b on the result, failing if either fails |
| DummyStore.StagedBatchSnoc | src/services/dummyData.js:186-226 | staging one more listing appends exactly its three writes to the batch |
| DummyStore.ListingsOpsShape | src/services/dummyData.js:210-225 | the per-listing writes are 3 per listing, in listing order |
| DummyStore.StagedBatchShape | src/services/dummyData.js:175-228 | the batch has 3 + 3·n operations: the 3 seed merges, then for listing j the listing set, the arrayUnion of its id into its author's `listings`, and the views doc with count = views and no visitors |
| DummyStore.AuthorIdsExact | src/services/dummyData.js:214-217 | the ids arrayUnion collects for a user are distinct and are exactly the ids of that user's listings |
| DummyStore.SeedsApplied | src/services/dummyData.js:175-183 | the three seed merges never fail and produce the merged users |
| DummyStore.SeedsCommitted | src/services/dummyData.js:175-183 | after the seeds each seed user has the merged fields with `listings: []`; all other users and all listings are unchanged |
| DummyStore.SeedUserStep | src/services/dummyData.js:214-217 | one listing's writes keep every seed user's committed state up to date with the listings so far |
| DummyStore.ListingsStep | src/services/dummyData.js:210-225 | one listing's writes keep the listings and views collections up to date with the listings so far |
| DummyStore.ListingCommitted | src/services/dummyData.js:210-225 | the three writes of one listing succeed on a state where its author exists, and extend the committed state by that listing |
| DummyStore.CommittedSnoc | src/services/dummyData.js:210-225 | if the batch for some listings commits, so does the batch for one more listing by a seed author, and it extends the committed state |
| DummyStore.ListingsCommitted | src/services/dummyData.js:175-228 | when every author is a seed user the whole batch succeeds. Afterwards each seed user is merged and holds the call's ids. The last listing with each id and its views doc are written. Users and listings the batch does not name are unchanged. |
| DummyStore.BatchResetsSeedListings | src/services/dummyData.js:175-217 | because the reset to [] precedes the unions, each seed user's `listings` ends up as exactly this call's ids by that author, each once |
| DummyStore.Store.constructor | src/services/dummyData.js:157 | the store starts with the given collections |
| DummyStore.Store.Commit | src/services/dummyData.js:228 | all or nothing: a transport error or a failing write leaves every collection unchanged; otherwise the new state is the whole batch applied in order |
| DummyGenerator.Rethrown | src/services/dummyData.js:233 | `error.message \|\| default` is the message when non-empty, otherwise the permissions message |
| DummyGenerator.ListingOf | src/services/dummyData.js:193-208 | the listing literal names the author, has one category, status 'active', no images and the server timestamps; its title begins with the author's name and ends with "{category} Sale", and its description ends with the suffix for its multi-day flag |
| DummyGenerator.AuthorshipOf | src/services/dummyData.js:194-206 | a seed author, the fixed status, no images, the timestamps and views below 50 make the authorship part well formed |
| DummyGenerator.TextOf | src/services/dummyData.js:196 | a description of three sampled items makes the text part well formed |
| DummyGenerator.ListingOfWellFormed | src/services/dummyData.js:193-208 | the listing literal built from the drawn parts is well formed (author, status, views, images, category, title, description suffix, dates, tags, location) |
| DummyGenerator.AssembleListing | src/services/dummyData.js:192-211 | the returned listing is exactly the `ListingOf` literal of the author `DUMMY_USERS[a]` and the drawn category, items, multi-day flag, dates, location, tags, views and featured flag, stored under the given id; and it is well formed |
| DummyGenerator.DrawEventDates | src/services/dummyData.js:66-71 | the dates are `GenerateEventDates` of the clock reading, the flag and the first draw (and the second when multi-day); they satisfy the schedule (one 09:00-16:00 entry, 0..13 days out, end 0 or 1..2 days after the start) |
| DummyGenerator.DrawItems | src/services/dummyData.js:196 | the three description items are distinct items of the category, and on success they are what `Sample(ITEMS[category], 3, [], rs)` picks; it fails exactly when the sample runs out of draws, and otherwise leaves the draws `IndexSample` and `Sample` name |
| DummyGenerator.DrawLocation | src/services/dummyData.js:188 | the location is inside the box, has a region's state and postcode, and is `RandomLocation(rs, geocode)`; it fails exactly when `LocationRest` says the draws run out, and otherwise leaves the draws `LocationRest` names |
| DummyGenerator.DrawTags | src/services/dummyData.js:202 | the listing gets three distinct tags from `TAGS`, and on success they are what `Sample(TAGS, 3, [], rs)` picks; it fails exactly when the sample runs out of draws, and otherwise leaves the draws `IndexSample` and `Sample` name |
| DummyGenerator.GenerateListing | src/services/dummyData.js:186-211 | one loop iteration yields a well-formed listing under the given id for its clock reading. On success the listing document is `GeneratedDoc(now, rs, geocode)`: author `DUMMY_USERS[floor(rs[0] * 3)]`, then `RandomLocation` of the next draws, then category `floor(r * 9)`, multi-day `r > 0.7`, and `FinishedDoc` of the rest. It fails exactly when `ListingRest` (equally `GeneratedDoc`) says the draws run out, and otherwise leaves the draws `ListingRest` names. |
| DummyGenerator.FinishListing | src/services/dummyData.js:196-208 | after the author, location, category and multi-day draws, the remaining draws complete a well-formed listing equal to `FinishedDoc` of them: the items `Sample` picks from `ITEMS[category]`, the dates from the next one or two draws, the tags `Sample` picks from `TAGS`, views `floor(r * 50)` and featured `r > 0.8`. It fails exactly when `FinishRest` says the items, dates, tags, views or featured draw run out, and otherwise leaves the draws `FinishRest` names. |
| DummyGenerator.FinishDated | src/services/dummyData.js:199-208 | once the items are drawn, the event dates and the rest of the draws give the listing `DatedDoc` names; it fails exactly when `DatedRest` says the draws run out, and otherwise leaves the draws `DatedRest` names |
| DummyGenerator.FinishTagged | src/services/dummyData.js:202-208 | once the items and dates are drawn, the tags, the views draw `floor(r * 50)` and the featured draw `r > 0.8` give the listing `TaggedDoc` names; it fails exactly when `TaggedRest` says the draws run out, and otherwise leaves the draws `TaggedRest` names |
| DummyPools.ItemPool | src/services/dummyData.js:30-40 | the item pool of every category is five distinct names |
| DummyGenerator.GeneratedUnderSnoc | src/services/dummyData.js:211 | pushing a well-formed listing with the next auto id keeps the returned list in generation order under the auto ids |
| DummyGenerator.GeneratedRunSnoc | src/services/dummyData.js:186-211 | one more iteration extends the run by the listing that iteration's `GeneratedDoc` builds under the next id, and leaves the draws `ListingRest` names |
| DummyGenerator.StageNext | src/services/dummyData.js:187-226 | one iteration fails only when the ids or clock readings are used up or the remaining listings do not fit the draws. Otherwise it appends under the next id the listing `GeneratedDoc` builds from the draws left, plus its three writes, so the state is `GeneratedRun` of one more iteration. The listings still to generate fit the draws left exactly when they did before. |
| DummyGenerator.StageListings | src/services/dummyData.js:185-226 | the loop succeeds exactly when the ids, the clock readings and the draws suffice for count listings (`StreamsSuffice`). It then produces max(count, 0) listings, each well formed for its own clock reading, under the first auto ids. They are exactly `GeneratedRun(max(count, 0))`: listing j is the `GeneratedDoc` of the draws the first j iterations leave, for clock reading j. The batch it staged is the seed merges followed by each listing's three writes. |
| DummyGenerator.StagingOutcome | src/services/dummyData.js:187 | the loop runs all `count` iterations exactly when the streams suffice, and then it has made max(count, 0) of them |
| DummyGenerator.GenerateDummyListings | src/services/dummyData.js:156-235 | Not signed in, a failed caller read and a non-admin caller each reject with their message, and nothing is written. For an admin caller the result is `Exhausted` exactly when the streams do not suffice; otherwise a commit error rejects with its message (or the default one) and no commit error means success. A success means an admin caller and a successful commit. It returns max(count, 0) well-formed listings, and they are exactly the listings of `GeneratedRun(max(count, 0))` in loop order. The store becomes exactly the staged batch of those listings applied. Any failure leaves the store unchanged. |
| AuthContext.AdminStatus | src/context/AuthContext.js:19-26 | isAdmin becomes true only when the check resolves true; a rejected check gives false |
| AuthContext.AuthProvider.constructor | src/context/AuthContext.js:9-14 | initially user is null, isAdmin is null (unknown) and loading is true, with the listener registered |
| AuthContext.AuthProvider.OnAuthStateChanged | src/context/AuthContext.js:14-31 | every event sets user. A signed-out event sets isAdmin false and loading false without starting a check. A signed-in event starts a check and leaves isAdmin and loading as they were. After the unsubscribe nothing changes. It keeps the invariant that once loading is false, isAdmin is a boolean. |
| AuthContext.AuthProvider.AdminCheckSettled | src/context/AuthContext.js:19-31 | the settled check sets isAdmin to its result (false on a throw) and then loading to false, unless the provider was torn down; it keeps the invariant |
| AuthContext.AuthProvider.Unsubscribe | src/context/AuthContext.js:34 | teardown deregisters the listener and changes nothing visible |
| AuthContext.SignInTrace | src/context/AuthContext.js:14-31 | a sign-in whose check settles leaves the user set, isAdmin equal to the check's result and loading false |
| AuthContext.LateCheckAfterSignOut | src/context/AuthContext.js:14-31 | the callback applies a check after a later sign-out: sign in, sign out, then the first check resolving true leaves isAdmin true with no user |
| AuthContext.EventsAfterUnsubscribe | src/context/AuthContext.js:14-34 | after teardown, neither later auth events nor the settling of a running check change user, isAdmin or loading |
| Rows.BaseRow | src/pages/users/UsersPage.js:20-22 | `{ id: doc.id, ...doc.data() }` has the data's keys plus id; the doc id is used unless the data has its own `id` field |
| Rows.DateText | src/pages/users/UsersPage.js:23 | `v?.toDate().toLocaleDateString() \|\| fallback` gives the fallback for a missing or null value. A timestamp gives its formatted date, or the fallback when that date is ''. Any other value throws and yields None. The text is never empty when the fallback is not. |
| Rows.MapRows | src/pages/users/UsersPage.js:20-24 | the mapping succeeds iff every row does, and then has one row per document, in order |
| Rows.MakeAdmin | src/pages/users/UsersPage.js:39-41 | length and order are kept; each row with the uid gets admin = true with every other field kept; the other rows are unchanged |
| Rows.AdminGrantedKeepsId | src/pages/users/UsersPage.js:40 | granting admin does not change the row's id |
| Rows.MakeAdminIdempotent | src/pages/users/UsersPage.js:39-41 | making the same uid admin twice gives the list of doing it once |
| Rows.MakeAdminAbsent | src/pages/users/UsersPage.js:39-41 | a uid that no row carries leaves the list unchanged |
| Rows.MakeAdminCommutes | src/pages/users/UsersPage.js:39-41 | making two uids admin gives the same list in either order |
| UsersPage.UserRow | src/pages/users/UsersPage.js:20-24 | the row throws iff lastSignIn is present and neither null nor a timestamp. Otherwise it has the document's keys plus id and lastSignIn, and keeps the other fields. lastSignIn is always non-empty text. It is 'Never' when absent or null; a timestamp shows its formatted date, or 'Never' when formatting gives ''. |
| UsersPage.UserRows | src/pages/users/UsersPage.js:20-24 | the mapping succeeds iff every document's row does, and then row i is the row of document i |
| UsersPage.FetchedUserRows | src/pages/users/UsersPage.js:20-24 | a fetch maps successfully iff every document's lastSignIn is absent, null or a timestamp; then every row has a non-empty lastSignIn and its doc id |
| Rows.NameOr | src/pages/users/UsersPage.js:80 | the name is the displayName when truthy, otherwise the fallback, so it is truthy whenever the fallback is non-empty. UsersPage passes 'No name'; UserList passes 'N/A' (src/components/users/UserList.js:68). |
| UsersPage.RoleChip | src/pages/users/UsersPage.js:85-88 | the label is 'Admin' iff admin, else 'User'; the chip is primary iff admin, and default otherwise |
| UsersPage.StatusChip | src/pages/users/UsersPage.js:92-95 | the label is 'Disabled' iff disabled, else 'Active'; error colour for disabled, success otherwise |
| UsersPage.ShowsMakeAdmin | src/pages/users/UsersPage.js:98 | the Make Admin button shows iff the role reads 'User' |
| UsersPage.MakeAdminDisplay | src/pages/users/UsersPage.js:84-106 | after the update every row with the uid reads Admin and has no button; the other rows show the same chips |
| UsersPage.MakeAdminKeepsOtherCells | src/pages/users/UsersPage.js:80-95 | the update changes neither the name cell nor the status chip of any row |
| UsersPage.State.constructor | src/pages/users/UsersPage.js:12-13 | the list starts empty and loading |
| UsersPage.State.FetchSettled | src/pages/users/UsersPage.js:15-31 | a successful fetch installs the mapped rows; a rejected query or a throwing row leaves the list; loading ends either way |
| UsersPage.State.HandleMakeAdmin | src/pages/users/UsersPage.js:36-45 | after a successful call the list is the make-admin update of the old list; after a throw it is unchanged |
| UserList.ListRows | src/components/users/UserList.js:19-22 | one row per document, in order, each with the document's keys plus id (the doc id unless the data has its own), and every data field carried over with its value |
| UserList.RoleCell | src/components/users/UserList.js:69 | 'Admin' iff admin, else 'User' |
| UserList.ShowsMakeAdmin | src/components/users/UserList.js:71 | the button shows iff the role reads 'User' |
| UserList.MakeAdminDisplay | src/components/users/UserList.js:67-71 | after the update every row with the uid reads Admin without a button, and no name cell changes |
| UserList.State.constructor | src/components/users/UserList.js:11-12 | the list starts empty and loading |
| UserList.State.FetchSettled | src/components/users/UserList.js:14-29 | a successful fetch installs the rows, a rejected one leaves the list; loading ends either way |
| UserList.State.HandleMakeAdmin | src/components/users/UserList.js:34-45 | after a successful call the list is the make-admin update; after a throw it is unchanged |
| ListingsPage.FirstElement | src/pages/listings/ListingsPage.js:30-31 | `eventDates?.[0]` is the first entry of a non-empty array, and nothing for a missing, null or empty one |
| ListingsPage.Member | src/pages/listings/ListingsPage.js:30-31 | `e?.startDate` is present exactly when e is an object with that field |
| ListingsPage.ListingDates | src/pages/listings/ListingsPage.js:29-31 | the three date cells exist iff none of the three `toDate` calls throws. Each is non-empty, and they are the `DateText` of dateCreated and the `EventDateText` of the first entry's startDate and endDate, in that order. |
| ListingsPage.ListingRow | src/pages/listings/ListingsPage.js:26-32 | the row has the document's keys plus id, dateCreated, startDate and endDate, keeps every other field, and carries the three date cells as text |
| ListingsPage.ListingRows | src/pages/listings/ListingsPage.js:26-32 | the mapping succeeds iff every document's row does, and then row i is the row of document i |
| ListingsPage.EventDateText | src/pages/listings/ListingsPage.js:30-31 | the cell throws exactly when the first entry has the field and it is neither null nor a timestamp; without a first entry it is 'N/A'; it is never empty |
| ListingsPage.DatesFromFirstEntry | src/pages/listings/ListingsPage.js:30-31 | start and end cells depend only on `eventDates[0]` |
| ListingsPage.MissingEventDatesShowNA | src/pages/listings/ListingsPage.js:30-31 | missing, null or empty eventDates show 'N/A' for start and end |
| ListingsPage.TimestampEventDates | src/pages/listings/ListingsPage.js:30-31 | a first entry that is an object whose start and end fields are timestamps (whatever other fields it has) shows their formatted dates, or N/A when formatting gives "" |
| ListingsPage.WithoutId | src/pages/listings/ListingsPage.js:49 | the filtered list holds exactly the entries whose id differs from the target |
| ListingsPage.WithoutIdAppend | src/pages/listings/ListingsPage.js:49 | the filter distributes over concatenation, so survivors keep their relative order |
| ListingsPage.WithoutIdAbsent | src/pages/listings/ListingsPage.js:49 | deleting an id no entry carries leaves the list unchanged |
| ListingsPage.WithoutIdLength | src/pages/listings/ListingsPage.js:49 | the list shrinks by exactly the number of entries with the id |
| ListingsPage.WithoutIdIdempotent | src/pages/listings/ListingsPage.js:49 | deleting the same id twice is deleting it once |
| ListingsPage.StatusColor | src/pages/listings/ListingsPage.js:150-155 | 'active' gets success, 'completed' gets default, and any other status gets error |
| ListingsPage.GeneratedListingsShowActive | src/pages/listings/ListingsPage.js:153 | every generated listing is active, so its chip is success |
| ListingsPage.DateRange | src/pages/listings/ListingsPage.js:143-147 | "start - end" when isMultiDay is truthy, otherwise the start alone |
| ListingsPage.DateRangeShowsEndIffMultiDay | src/pages/listings/ListingsPage.js:143-147 | the cell begins with the start and is longer than it exactly for multi-day listings |
| ListingsPage.ViewsCell | src/pages/listings/ListingsPage.js:158 | `views \|\| 0`: the views when truthy, otherwise 0 |
| ListingsPage.State.constructor | src/pages/listings/ListingsPage.js:14-16 | the list starts empty and loading, with the snackbar closed, empty and of success severity |
| ListingsPage.State.FetchSettled | src/pages/listings/ListingsPage.js:18-40 | a successful fetch installs the mapped rows; otherwise the list is unchanged; loading ends either way |
| ListingsPage.State.HandleDelete | src/pages/listings/ListingsPage.js:45-54 | a confirmed, successful delete filters out the id; a declined or failed one leaves the list |
| ListingsPage.State.StartGenerateDummy | src/pages/listings/ListingsPage.js:56-58 | generation starts by setting loading |
| ListingsPage.State.FinishGenerateDummy | src/pages/listings/ListingsPage.js:59-85 | the list takes the refreshed rows and the success snackbar shows only if generation and refresh both succeed; otherwise the list is kept and the error snackbar shows; loading ends in every outcome |
| ListingsPage.State.CloseSnackbar | src/pages/listings/ListingsPage.js:188 | closing keeps the snackbar's message and severity and clears `open` |

## Left out

- The distribution of `Math.random()` (multi-day with probability 0.3, featured 0.2, uniform picks) is not modelled. Only the decisions over the supplied draws (`r > 0.7`, `r > 0.8`, `floor(r * n)`) are.
- The stream of draws, the auto-ids and the clock readings are finite. Running out of any of them is reported as `None` or `Exhausted`, which has no JavaScript counterpart.
- Waiting for the maps script (`window.google` polling with `setInterval`, `src/services/dummyData.js:88-97`) is timer plumbing and is left out.
- The geocoder's network call and its latency are left out, since the geocoder is an oracle. Components always have a `types` array.
- Coordinates are reals, not IEEE doubles.
- Stored timestamps are read back as `Timestamp` values. A `ServerTimestamp` token in a read document is treated like any other value without `toDate`.
- DummyCompose.GenerateEventDates: it adds whole 24-hour days to the clock. The source's `setDate` keeps the local wall-clock time, so across a daylight-saving change the real gap differs from whole days by the DST offset.
- Dates are rendered by the `format` parameter. Locale and time-zone behaviour of `toLocaleDateString` are not modelled.
- DummySampling.GetRandomItems: it requires a category that has an item pool. With any other category the source throws a TypeError at `items.length`, but its only caller passes categories from `CATEGORIES`, which all have pools.
- DummyStore.Store.Commit: the only failing write it models is an update of a missing document. It also models an injected transport error. The message "No document to update" is the model's own, and Firestore's 500-writes-per-batch limit is not modelled.
- Firebase SDK internals are left out. This covers `getDoc`, `writeBatch`, `getDocs` with its ordering (documents arrive in query order), `deleteDoc`, callable functions and token refresh. Only the outcome of each call is a parameter.
- `src/services/adminService.js` is not part of this model. `checkIsAdmin` and `makeUserAdmin` are oracles. So `AuthContext.LateCheckAfterSignOut` shows only what the callback does with a late answer; whether the real check can still answer true after a sign-out depends on that file.
- React scheduling is not modelled. This covers render-time closures (handlers read the current list), batching of state updates, and the mount fetch racing with `handleGenerateDummy`.
- The `loading` spinner branch and all MUI rendering are left out.
- Display parts with no rule worth stating are left out: the avatar letter (`src/pages/users/UsersPage.js:77-79`), the location cell and image avatar (`src/pages/listings/ListingsPage.js:129-140`), and the view/edit links.
- Row ids are compared structurally. JavaScript `===` compares objects by reference, but ids are strings in practice.
- Numbers are integers, and NaN is not modelled in truthiness.
- ListingsPage.State.FinishGenerateDummy: it takes the outcome of `generateDummyListings(10)` as a parameter rather than running the generator itself with a count of 10.
- DummyStore.ApplyOp: a merge-set is a shallow merge (`current + fields`), while Firestore's `merge: true` merges nested maps deeply. The seed user documents hold no nested maps, so for them the two agree.
- DummyGenerator.GenerateDummyListings: the default argument `count = 10` is not modelled, so every call passes a count. The only caller, `ListingsPage.State.FinishGenerateDummy`, stands for `generateDummyListings(10)`.
- Console logging is left out. So are the other files of the repository (routing, layout, dashboard counts, login popup, maps loader, configuration), which hold no logic of this core.
