# VATSIM data handler, modelled in Dafny

The library keeps a local copy of the VATSIM network's JSON feed
(`vatsimData.json`) and answers queries about it. Before each query it
refreshes the file when it is older than a threshold. In the current
revision, a refresh also keeps the previous file as `oldData.json`. It then
diffs the `pilots` and `controllers` lists of the two files with the
structural comparator `compareJson`. The clients the diff reports as created
are announced as `newController` and `newPilot` events.

The repository holds three revisions side by side, and the model covers all three:

- **Current**: `src/fileHandler.ts` with `src/methods.ts`, plus the compiled
  copies `build/cjs/fileHandler.js` and `build/esm/methods.js`. It refreshes
  after one whole minute. It diffs `pilots` and `controllers` and splits the
  created clients by altitude.
- **ClientList**: `src/fileHandler.js` with `src/methods.js`. It refreshes
  after two whole minutes, diffs the single `clients` list, and announces every
  created client as a new controller.
- **Earliest**: `handler.js`. It refreshes after more than two whole minutes.
  It keeps no backup and runs no diff.

Modules:

- `Wrappers`: `Option`, `Result`, `Max`, `Min`.
- `Strings`: `includes`, `startsWith`, `substr(1)`, and the decimal keys
  under which JavaScript enumerates array positions.
- `Seqs`: order-preserving selection (`filter`, push loops, `filter(...)[0]`,
  and a loop that keeps the last match).
- `JsonDiff`: `compareJson.map` and `compareValues` over a JSON value type.
  `Absent` stands for `undefined`, and `Date` holds milliseconds.
- `Refresh`: the `FileHandler` class of all three revisions (a `Revision`
  field selects one). It covers the staleness test, the stamp, the update with
  backup and diff, the classification into buckets, the split by altitude, and
  the events. The two files are fields of the class. The download and the
  clock are parameters.
- `Tally`: the popular-airport tally shared by every revision. It increments or
  appends, then runs a stable descending sort by count and keeps the first ten.
- `Queries`: the query methods of `src/methods.ts`, on typed records.
- `EarliestQueries`: the query methods of `handler.js`.
- `ClientQueries`: the query methods of `src/methods.js`, including the
  defective controller fallback as written and the corrected one.

## Model

| member | source | states |
|---|---|---|
| Strings.IncludesIffOccurs | src/methods.ts:195 | `includes` holds exactly when the text occurs at some position |
| Strings.IncludesEmpty | handler.js:85 | every callsign includes the empty string |
| Strings.Substr1 | src/methods.ts:200 | `substr(1)` is the string without its first character; empty stays empty |
| Strings.ParseDecimal | src/fileHandler.ts:175 | the key of array position n parses back to n |
| JsonDiff.CompareValues | src/fileHandler.ts:197-215 | unchanged iff the two values are equal; created iff only the old one is undefined; deleted iff only the new one is undefined; updated otherwise |
| JsonDiff.Compare | src/fileHandler.ts:161-196 | a leaf iff either side is not a container, tagged by compareValues, with the old value as data unless it is undefined; otherwise one entry per own key of either side (inherited properties are left out, see below) |
| JsonDiff.CompareAt | src/fileHandler.ts:175-193 | each key of a container diff holds the comparison of the two members under that key |
| JsonDiff.ChildOutsideKeys | src/fileHandler.ts:180-183 | reading a key that is not a member gives undefined |
| JsonDiff.NewKeyComparedWithAbsent | src/fileHandler.ts:187-193 | a key present only on the new side is compared as undefined against its new value |
| JsonDiff.CanonicalRoundTrip | src/fileHandler.ts:187 | a canonical index key is the decimal key of the position it names |
| JsonDiff.CompareSelf | src/fileHandler.ts:197-200 | diffing a value with itself reports every leaf unchanged |
| JsonDiff.ArrayDiff | src/fileHandler.ts:175-193 | two arrays give one entry per position up to the longer length, comparing the elements there |
| JsonDiff.ArrayEntries | src/fileHandler.ts:67 | `Object.values` of an array diff lists the entries in ascending position order |
| JsonDiff.EntryCreated | src/fileHandler.ts:165-169 | a position inside the old array is never created; one beyond it is created with the new element as data |
| JsonDiff.CreatedAreTail | src/fileHandler.ts:58-81 | the created entries of an array diff are exactly the new array's elements beyond the old length, in order |
| JsonDiff.ClassificationExample | src/fileHandler.ts:161-215 | `{a:1,b:2}` vs `{a:1,b:3,c:4}` gives a unchanged, b updated with 2, c created with 4 |
| JsonDiff.DeletionExample | src/fileHandler.ts:211-213 | `{a:1}` vs `{}` gives a deleted with data 1 |
| Seqs.FilterMembers | src/methods.ts:184-188 | filtering keeps exactly the elements that pass, never more than the input |
| Seqs.FilterCount | src/fileHandler.ts:84-91 | each element is kept as often as it occurs if it passes, never otherwise |
| Seqs.FilterNone | handler.js:78-82 | when nothing passes, the filtered list is empty |
| Seqs.FilterSame | src/methods.js:67-73 | two tests that agree on every element select the same elements |
| Seqs.FilterHead | src/methods.ts:283-285 | the filtered list is empty iff nothing passes; its head is the first passing element |
| Seqs.First | src/methods.ts:283-285 | `filter(...)[0]` is undefined iff nothing passes, else the first passing element |
| Seqs.Last | src/methods.ts:210-216 | a loop that overwrites on every match leaves undefined iff nothing matches, else the last match |
| Seqs.Collect | handler.js:139-144 | a loop pushing every passing element builds the filtered list |
| Seqs.FindLast | src/methods.ts:210-216 | the overwriting loop computes the last match |
| Refresh.Stamp | src/fileHandler.ts:51 | the stamp sets `updated_date` to the current instant and changes no other field |
| Refresh.StampOf | src/fileHandler.ts:33-35 | the stamp is readable iff the file holds a date under `updated_date` |
| Refresh.StampRoundTrip | src/fileHandler.ts:33-53 | a written stamp reads back as the instant written |
| Refresh.Minutes | src/fileHandler.ts:37-38 | the whole minutes elapsed, rounded down |
| Refresh.StaleIff | src/fileHandler.ts:37-40 | stale iff at least one (current), two (client list) or three (earliest) full minutes have passed |
| Refresh.EarliestWaitsThreeMinutes | handler.js:16-19 | the earliest revision refreshes iff at least 180000 ms have passed |
| Refresh.ClientListWaitsTwoMinutes | src/fileHandler.js:20-23 | the client-list revision refreshes iff at least 120000 ms have passed |
| Refresh.FreshNotStale | src/fileHandler.ts:31-40 | a file just created is never refreshed in the same call |
| Refresh.MirrorIndex | src/fileHandler.ts:111 | the random index is within the mirror list (0 for an empty list) |
| Refresh.PickMirror | src/fileHandler.ts:111 | the picked URL is undefined iff the list is empty, else a member of the list |
| Refresh.FixedMirrorAlwaysPicked | src/fileHandler.js:71-76 | every draw picks one of the three fixed mirrors |
| Refresh.Classify | src/fileHandler.ts:67-73 | each bucket grows by the data of the entries of its tag, in entry order; no bucket is ever empty |
| Refresh.SplitByAltitude | src/fileHandler.ts:84-91 | throws a TypeError iff a created client is null or undefined; otherwise clients with a truthy altitude are pilots, the rest controllers, in order |
| Refresh.Emissions | src/fileHandler.ts:92-97 | `newController` comes before `newPilot`; each is sent exactly once when its list is non-empty and never otherwise, and nothing else is sent |
| Refresh.CreatedOf | src/fileHandler.ts:58-62 | the created bucket of a list diff; defined when both lists are arrays |
| Refresh.CreatedClients | src/fileHandler.ts:58-81 | fails only for lists outside the model (not arrays) |
| Refresh.ClassifyLists | src/fileHandler.ts:67-80 | the pilot entries, then the controller entries, fill one set of buckets |
| Refresh.AnnounceClients | src/fileHandler.js:44-55 | the client-list update announces exactly the client-list events |
| Refresh.AnnounceNewClients | src/fileHandler.ts:58-98 | the current update announces exactly the current-revision events |
| Refresh.CreatedAreAppended | src/fileHandler.ts:58-81 | the created clients of a list are the elements appended beyond its old length |
| Refresh.TaggedNone | src/fileHandler.ts:67-73 | with no entry of a tag, its bucket stays empty |
| Refresh.NothingCreatedFromSelf | src/fileHandler.ts:58-81 | comparing a list with itself creates nothing |
| Refresh.UnchangedFeedAnnouncesNothing | src/fileHandler.ts:81-98 | when neither list changed, no event is sent |
| Refresh.SplitKeepsEveryClient | src/fileHandler.ts:84-91 | the split by altitude loses and duplicates no client |
| Refresh.AnnouncedAreCreated | src/fileHandler.ts:58-98 | the events hold exactly the appended clients, split by altitude, each once |
| Refresh.ClientListAnnouncesAppended | src/fileHandler.js:44-55 | the client-list revision sends one `newController` with every appended client, or nothing |
| Refresh.CreatedClientsAppended | src/fileHandler.ts:58-81 | the created bucket is the appended pilots followed by the appended controllers |
| Refresh.AnnounceControllerThenPilot | src/fileHandler.ts:84-97 | a flying pilot and a controller created in that order are announced controller first |
| Refresh.NewControllerThenNewPilot | src/fileHandler.ts:45-98 | controller B after A and pilot P2 at 35000 ft after P1 give `newController [B]`, then `newPilot [P2]` |
| Refresh.ParkedPilotAnnouncedAsController | src/fileHandler.ts:86-90 | a new pilot at altitude 0 is announced as a new controller |
| Refresh.FileHandler.constructor | src/fileHandler.ts:23-26 | the handler starts over the files on disk |
| Refresh.FileHandler.InitialUpdate | src/fileHandler.ts:101-107 | the stamped download becomes the file; a failed download changes nothing |
| Refresh.FileHandler.Update | src/fileHandler.ts:45-99 | backup first (except earliest), then the stamped download becomes the file, and the outcome is the revision's announcements against the backup |
| Refresh.FileHandler.ShouldUpdate | src/fileHandler.ts:30-43 | creates a missing file, refreshes a stale one, leaves a fresh one untouched |
| Refresh.FileHandler.LoadFile | src/fileHandler.ts:147-152 | returns the file after the staleness check: the newly created file, the old one when fresh, or the stamped refresh when stale; rejects with the download error when a fetch fails, and with the update's error (missing backup, TypeError) when the refresh throws; the backup is taken exactly when a stale file is refreshed |
| Tally.Bump | src/methods.ts:236-248 | one tally step increments the airport's record if listed, else appends it with count 1 |
| Tally.TallySnoc | src/methods.ts:233-265 | tallying one more airport is one more step |
| Tally.BumpedListed | src/methods.ts:236-248 | after a step, exactly the earlier airports and the new one are listed |
| Tally.BumpedCounts | src/methods.ts:236-248 | a step counts one more occurrence of its airport and no other |
| Tally.TallyListed | src/methods.ts:233-265 | the tally lists each visited airport exactly once |
| Tally.TallyCounts | src/methods.ts:233-265 | each record counts exactly the occurrences of its airport |
| Tally.TallyLength | src/methods.ts:233-265 | the tally has one record per distinct airport |
| Tally.InsertFacts | src/methods.ts:267 | inserting into a sorted list keeps it sorted and adds exactly one record |
| Tally.SortFacts | src/methods.ts:267 | the sort is a permutation with non-increasing counts |
| Tally.SortDistinct | src/methods.ts:267 | sorting keeps the ids distinct and the records the same |
| Tally.Top10 | src/methods.ts:269 | `slice(0, 10)` keeps min(10, n) records |
| Tally.SortedTallyFacts | src/methods.ts:229-269 | the sorted tally has one record per airport, with exact counts, largest first |
| Tally.PopularShape | src/methods.ts:267-269 | at most ten records, one per airport, counts non-increasing |
| Tally.PopularCounts | src/methods.ts:233-269 | each popular airport was visited, and its count is its number of visits |
| Tally.PopularTopTen | src/methods.ts:267-269 | an airport left out was visited no more often than the tenth, and the list is full |
| Tally.PopularLeftOut | src/methods.ts:267-269 | in a list sorted by count, a record beyond the first ten counts no more than the tenth |
| Tally.TallyEndpoint | src/methods.ts:235-249 | a counted airport is tallied; a missing one is skipped |
| Tally.EndpointsStep | src/methods.ts:233-265 | one pilot contributes its departure, then its arrival |
| Tally.PopularAirports | src/methods.ts:228-270 | the loop, the sort and the cut compute the popular list of the airports visited in order |
| Queries.GetCount | src/methods.ts:150-162 | defined exactly for `all`, `pilots` and `controllers`: the unique users, the pilot count, the controller count |
| Queries.GetClients | src/methods.ts:294-297 | every connected pilot, in feed order, as many as `getCount("pilots")` reports |
| Queries.ServesAirportIff | src/methods.ts:192-206 | a controller is listed iff not an observer and its callsign holds the code, or the code minus "K" and "_" for a K code |
| Queries.GetAirportInfo | src/methods.ts:171-220 | undefined iff the code is missing or empty; otherwise the pilots using the airport, the controllers working it, and the last matching ATIS |
| Queries.AirportInfoMembers | src/methods.ts:184-216 | every listed pilot and controller matches the rule, every matching one is listed, and the ATIS names the airport |
| Queries.AirportRuleExamples | src/methods.ts:199-204 | JFK_TWR works KJFK; LL_TWR does not work EGLL; an observer works nothing |
| Queries.GetPopularAirports | src/methods.ts:228-270 | the popular list of the departures, then arrivals, of pilots with a plan and a non-null field |
| Queries.GetFlightInfo | src/methods.ts:280-286 | the first pilot with the callsign, undefined iff none |
| Queries.GetClientDetails | src/methods.ts:307-313 | the first pilot with the CID, undefined iff none |
| Queries.GetSupervisors | src/methods.ts:321-332 | exactly the controllers rated 11 or 12, in order |
| Queries.GetControllers | src/methods.ts:340-351 | exactly the controllers with facility other than 0, in order |
| EarliestQueries.GetCount | handler.js:60-72 | defined exactly for `all`, `pilots` and `controllers`; `pilots` and `controllers` give the list lengths |
| EarliestQueries.CountAllIsSum | handler.js:63-68 | `all` is the sum of the pilot and controller counts |
| EarliestQueries.PilotStep | handler.js:78-82 | one more pilot examined is kept at the end iff its plan uses the airport |
| EarliestQueries.ControllerStep | handler.js:84-88 | one more controller examined is kept at the end iff it is not an observer and its callsign contains the airport |
| EarliestQueries.GetAirportInfo | handler.js:74-90 | one list: the pilots whose plan uses the airport, then the non-observer controllers whose callsign contains it (`"null"` without a code) |
| EarliestQueries.AirportInfoEdgeCases | handler.js:74-88 | an empty code lists every non-observer controller; no code lists no pilot |
| EarliestQueries.GetPopularAirports | handler.js:92-133 | the popular list of the non-empty plan departures and arrivals |
| EarliestQueries.NoEmptyAirport | handler.js:98-113 | the empty string is never tallied |
| EarliestQueries.GetClientDetails | handler.js:135-145 | the first pilot with the member CID, undefined iff none |
| EarliestQueries.GetSupervisors | handler.js:147-158 | exactly the controllers rated 11 or 12, in order |
| ClientQueries.GetCount | src/methods.js:18-44 | `all` gives the client list, `pilots` the PILOT clients, `controllers` the ATC clients; anything else undefined |
| ClientQueries.PilotsAndControllersDisjoint | src/methods.js:24-40 | no client is in both lists, so together they are no longer than the client list |
| ClientQueries.GetAirportInfoAsWritten | src/methods.js:53-83 | the loop as written: a ReferenceError as soon as a client reaches the fallback condition |
| ClientQueries.GetAirportInfo | src/methods.js:53-83 | corrected: undefined iff no code; else the PILOT clients using the airport and the ATC clients working it |
| ClientQueries.AsWrittenAgreesWhenItResolves | src/methods.js:67-73 | whenever the code as written resolves, it resolves with the corrected lists |
| ClientQueries.CorrectedListsMore | src/methods.js:68-73 | every controller listed as written is listed by the corrected rule |
| ClientQueries.UsTowerRejected | src/methods.js:71 | KJFK with an ATC client JFK_TWR rejects as written; the corrected rule lists the tower |
| ClientQueries.GetPopularAirports | src/methods.js:91-132 | the popular list of the non-empty plan departures and arrivals |
| ClientQueries.GetFlightInfo | src/methods.js:142-152 | the first pilot with the callsign, undefined iff none |
| ClientQueries.GetClientDetails | src/methods.js:173-183 | the first pilot with the member CID, undefined iff none |
| ClientQueries.GetSupervisors | src/methods.js:191-202 | exactly the controllers rated 11 or 12, in order |
| ClientQueries.GetControllers | src/methods.js:210-221 | exactly the controllers not on frequency 99998, in order |

## Left out

- HTTP: `downloadFile`, `getUrls` and the `request` calls are one `Fetch` input, either `Fetched(doc)` or `FetchFailed`. A body that fails `JSON.parse` counts as a failed fetch. The status-code branch is not modelled: after `reject(error)` it goes on to read `response.statusCode`.
- JsonDiff.Compare: every key is an own key of its container. The source reads `obj2[key]` and `diff[key]` through the prototype chain, so keys naming inherited properties behave differently there: a new key `toString` is skipped, an old key `constructor` missing on the new side is compared with `Object` (updated, not deleted), an object key `length` reads an array's length, and `__proto__` replaces the diff's prototype instead of adding an entry. The feed's keys are none of these.
- `Math.random()`: it is a real number in [0, 1) given to `MirrorIndex`. The status-file mirror list of the current revision is any sequence of URLs.
- The filesystem: the two files are the fields `data` and `backup`. Writes and reads are assignments, and a missing file is `None`.
- `JSON.stringify`/`JSON.parse` are treated as lossless, except that the `Date` stamp is kept as `Date(ms)`.
- Numbers are integers. Floating-point fields are only ever compared for equality, so NaN is not modelled.
- The `setInterval` timer, the un-awaited `copyFile` and overlapping refreshes: these are concurrency, not sequential logic. The backup is taken before the download, as if `copyFile` finished first.
- `process.emit` and `this.emit`: the events are returned as a sequence in emission order.
- `console.log`, and the `isFunction` branches: parsed JSON holds no functions.
- `Date.now()`: it is the `now` parameter, one value per call.
- The `__awaiter` helpers, the `.d.ts` declarations, and the test files, which depend on the live network.
- Refresh.CreatedOf: a list field that is not an array on both sides gives `Fail(Unmodelled)`. In the source, a leaf diff (one side not a container) yields its type string and its data to `Object.values`; that adds no created entry when the data is an array, and throws a TypeError when the data is `null` or `undefined`. When one side is a plain object, the entries follow that object's key order. The model follows none of these cases.
- Refresh.FileHandler.ShouldUpdate: the value `shouldUpdate` resolves with is always `false`, so the model returns the refresh outcome (events or error) in its place.
- Refresh.FileHandler.ShouldUpdate: the earliest revision's constructor starts `shouldUpdate` without awaiting it. The model's constructor does not start a refresh; a caller calls ShouldUpdate or LoadFile.
- Queries: the records keep only the fields the queries read (callsign, CID, altitude, plan airports, frequency, facility, rating, ATIS code). Loose and strict equality coincide on these.
- Queries.GetPopularAirports: a plan airport that is missing (`undefined`, not `null`) is not modelled. The interface declares both fields as strings.
- Tally.SortByCount: the stability of `Array.prototype.sort` is built into the definition, which places ties in first-seen order. Stability is not stated as a separate lemma.

## Findings

| source | as written | input that shows it | evidently intended | confidence | as-written member | corrected member |
|---|---|---|---|---|---|---|
| src/methods.js:71 | The fallback branch reads `controller`, a name declared nowhere in the method, and joins its last two tests with `**` | airport "KJFK" and an ATC client "JFK_TWR" on frequency 118300: the first test fails and `"JFK_TWR".includes("JFK_")` holds, so reading `controller` throws a ReferenceError and the call rejects | list the client when it is not an observer and a "K" code minus its "K", followed by "_", occurs in the callsign (the rule of src/methods.ts:199-204) | high; not executed | ClientQueries.UsTowerRejected | ClientQueries.GetAirportInfo |
