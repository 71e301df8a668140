# PokePWA caching core in Dafny

PokePWA is a Pokédex progressive web app. It keeps working offline through
two caching layers, and this project models both of them and proves
properties about them:

- **The service workers** (`public/*.js`). Each worker intercepts every
  request and classifies it by an ordered chain of predicates: app shell,
  upstream API, image, or passthrough. It then runs a cache-first or
  network-first strategy against named cache partitions. On failure it
  falls back to a cached copy, a synthesized page or placeholder, or a fixed
  status. On activation it deletes every partition whose name is not
  current. The registered worker (`service-worker.js`) and its three
  variants (`sw-optimized.js`, `sw-final.js`, `service-worker-simple.js`)
  are modelled one module each, because their routing, fallbacks and
  partitions differ.
- **The foreground reconciler** (`fetchPokemon` in `src/App.js` and in its
  earlier version `src/App-new.js`). It publishes a stored list from
  `localStorage`, reloads every record in slices of 50, persists the result
  down a ladder of fallbacks when the storage quota runs out, and heals a
  stored value that does not parse. Beside it sits the case-insensitive
  search filter.
- **The milestone tracker and permission gate** in
  `src/NotificationManager.js`.

Modules:

- `Base`: option type, string search, ASCII lower-casing.
- `Http`: the request record, responses, and the network outcome
  `Fail | Resp(r)`.
- `Partitions`: the Cache Storage API. It is the class `CacheStorage` over
  `map<partition, map<url, Response>>`, plus the cache-first and
  revalidation steps shared by the workers.
- `ServiceWorker`, `SwOptimized`, `SwFinal`, `SwSimple`: one per worker.
- `Pokedex`: the record, the batched load and the name filter.
- `WebStorage`: the class `LocalStorage` with a quota oracle.
- `AppEvents`: the React state setters, as events.
- `App`, `AppNew`: the two loaders.
- `Notifications`: the class `NotificationManager`.

How the environment is represented:

- Every handler is a method on `CacheStorage`, proved against a pure step
  function. The step function returns the response served and the
  partitions afterwards, and the lemmas are stated about the step
  functions.
- The network is a parameter. A background revalidation that the source
  does not await is returned as a `Refresh` task; `CacheStorage.Revalidate`
  runs it later with its own network outcome.
- `navigator.onLine`, `Date.now()` and the prompt's answer are parameters.
- `localStorage` keeps abstract text values: the JSON of a list of
  records, the decimal text of a number, or any other string. A sequence
  of booleans says which of the coming `setItem` calls fit in the quota.
- A cache key is the full URL. `cache.match('/')` in a worker is a lookup
  of the worker's origin followed by `/`.

`public/service-worker.js` tests `isAppResource` before the image test,
so a same-origin `/static/` image goes to the shell partition, not the
image partition; `ServiceWorker.RoutingPrecedence` proves that order.

## Model

| member | source | states |
|---|---|---|
| Base.Contains | public/service-worker.js:76 | `includes`: true exactly when the needle occurs at some position of the string |
| Partitions.Opened | public/service-worker.js:134 | `caches.open` creates the named partition when absent and changes no existing one |
| Partitions.Stored | public/service-worker.js:146-147 | `cache.put` makes the key answer the response and changes no other (partition, key) |
| Partitions.Retained | public/service-worker.js:45-54 | the partitions left are exactly those listed, each unchanged |
| Partitions.RevalidationOverwritesOnlyOnOk | public/service-worker.js:244-267 | a background refresh overwrites its one key only with an ok response; a failure or non-ok response leaves every partition as it was |
| Partitions.CacheFirstHitIgnoresNetwork | public/service-worker.js:134-142 | a hit serves the cached entry, writes nothing, gives the same result whatever the network does, and schedules a refresh exactly when the strategy revalidates |
| Partitions.CacheFirstMissStoresOnlyOk | public/service-worker.js:186-192 | a miss serves the network response whatever its status and stores it only when ok; every other key is unchanged |
| Partitions.CacheFirstSecondRequestHits | public/service-worker.js:175-192 | after an ok miss, the same request is served from the partition without the network |
| Partitions.OnlyOkWritesSteps | public/service-worker.js:146-147 | opening a partition and storing only ok responses change entries only to ok ones, and such steps compose |
| Partitions.OnlyOkWritesKeep | public/sw-final.js:270-271 | steps that write only ok responses never lose an entry and keep a partition whose entries are all ok that way |
| Partitions.CacheFirstOnlyOkWrites | public/sw-final.js:256-274 | cache-first steps and background refreshes write only ok responses |
| Partitions.AddedEachIndependent | public/service-worker.js:21-31 | install adds each listed URL on its own: it is cached exactly when its fetch was ok (or it was already cached), whatever happened to the others |
| Partitions.AddedEachUnlisted | public/service-worker.js:21-31 | install leaves every unlisted URL's entry as it was |
| Partitions.CacheStorage.Open | public/service-worker.js:134 | new partitions are `Opened` of the old ones |
| Partitions.CacheStorage.Put | public/service-worker.js:146-147 | new partitions are `Stored` of the old ones |
| Partitions.CacheStorage.Delete | public/service-worker.js:50 | removes exactly the named partition |
| Partitions.CacheStorage.PurgeExcept | public/service-worker.js:45-54 | loop over the partition names; the result is `Retained` of the old partitions |
| Partitions.CacheStorage.CacheFirst | public/service-worker.js:173-192 | the served response and new partitions are those of the cache-first step |
| Partitions.CacheStorage.Revalidate | public/service-worker.js:257-267 | the new partitions are those of the refresh step |
| Partitions.CacheStorage.AddEach | public/service-worker.js:21-31 | loop over the URLs; the partition becomes `AddedEach` of its old entries |
| ServiceWorker.RouteOf | public/service-worker.js:67-111 | first match in the order app shell, URL contains "pokeapi.co", image, passthrough; each route stated as an if-and-only-if of the predicates |
| ServiceWorker.SpritesRouteAsImages | public/service-worker.js:76-110 | a record's sprite URL requested from another origin takes the image route |
| ServiceWorker.RoutingPrecedence | public/service-worker.js:71-83 | a same-origin `/static/` image is an app resource; a pokeapi.co URL ending in an image extension is an API request |
| ServiceWorker.NavigationIsNetworkFirst | public/service-worker.js:116-131 | a navigation returns the network response unchanged and stores it only when ok, changing no other entry; when the fetch throws, no entry changes and it serves cached "/", else cached "/index.html", else the 200 text/html offline page |
| ServiceWorker.HitsNeverWaitOnNetwork | public/service-worker.js:134-142 | a shell, API or image hit serves the cached entry, writes nothing and does not depend on the network; shell and API hits schedule a refresh, image hits do not |
| ServiceWorker.MissReturnsNetworkResponse | public/service-worker.js:145-150 | a miss returns the network response whatever its status and writes the route's partition only when it is ok, changing no entry but the request's own |
| ServiceWorker.TotalFailureResponses | public/service-worker.js:152-240 | with a miss and a throwing fetch: shell asset 404, API 503 JSON with the offline flag, image empty 404, passthrough 503 "Offline" |
| ServiceWorker.ApiSecondRequestFromCache | public/service-worker.js:173-192 | an ok API response is served again from the API partition, with a refresh scheduled |
| ServiceWorker.HandleAppResource | public/service-worker.js:114-170 | served response and new partitions as the app-resource step |
| ServiceWorker.HandleApiRequest | public/service-worker.js:173-213 | cache-first on the API partition with refresh, offline JSON on total failure |
| ServiceWorker.HandleImageRequest | public/service-worker.js:216-241 | cache-first on the image partition without refresh, empty 404 on total failure |
| ServiceWorker.HandleRequest | public/service-worker.js:67-89 | served response and new partitions as the routed step |
| ServiceWorker.Install | public/service-worker.js:15-36 | each critical URL added independently to the shell partition |
| ServiceWorker.Activate | public/service-worker.js:39-59 | keeps exactly the three current partitions |
| SwOptimized.RouteOf | public/sw-optimized.js:63-88 | "pokeapi.co" first, then raw.githubusercontent.com, "sprites" or destination image, then everything else to the app handler; there is no passthrough route |
| SwOptimized.SpritesRouteAsImages | public/sw-optimized.js:67-76 | a record's sprite URL takes the image route whatever its destination |
| SwOptimized.NoPassthrough | public/sw-optimized.js:215-238 | a non-navigation request that is neither API nor image is cached when the miss is answered ok |
| SwOptimized.NavigationFallback | public/sw-optimized.js:188-212 | with the fetch throwing, a navigation gets cached "/", else cached "/index.html", else a 503 text/html response |
| SwOptimized.HitsNeverWaitOnNetwork | public/sw-optimized.js:91-104 | hits serve the cached entry independent of the network; API and app hits schedule a refresh, image hits do not |
| SwOptimized.TotalFailureResponses | public/sw-optimized.js:117-246 | with a miss and a throwing fetch: API 503 JSON with the offline flag, image empty 404, app resource 404 |
| SwOptimized.HandleApiRequest | public/sw-optimized.js:91-151 | cache-first with refresh on the API partition |
| SwOptimized.HandleImageRequest | public/sw-optimized.js:154-182 | cache-first without refresh on the image partition |
| SwOptimized.HandleAppRequest | public/sw-optimized.js:185-247 | network-first navigation, stale-while-revalidate otherwise |
| SwOptimized.HandleFetch | public/sw-optimized.js:63-88 | served response and new partitions as the dispatched step |
| SwOptimized.Install | public/sw-optimized.js:16-40 | each app URL added independently |
| SwOptimized.Activate | public/sw-optimized.js:42-61 | keeps exactly the three named partitions, the image one at v4 |
| SwFinal.RouteOf | public/sw-final.js:165-217 | app resource by path only, then hostname exactly "pokeapi.co", then image, then a plain fetch; each as an if-and-only-if |
| SwFinal.SpritesRouteAsImages | public/sw-final.js:175-216 | a record's sprite URL on the sprite host, from another origin, takes the image route |
| SwFinal.OfflineNavigationAlwaysOk | public/sw-final.js:187-200 | once the shell is installed, a navigation with no network is answered with an ok response |
| SwFinal.OfflineNonNavigation | public/sw-final.js:237-245 | a non-navigation, non-image miss with a throwing fetch ends in the outer catch's 503 "Offline" |
| SwFinal.RouteAttemptOnlyOkWrites | public/sw-final.js:219-300 | every handler writes only ok responses |
| SwFinal.RequestsKeepShellReady | public/sw-final.js:165-201 | requests keep the installed shell: "/" stays cached and every cached entry stays ok |
| SwFinal.RevalidationKeepsShellReady | public/sw-final.js:257-263 | background refreshes keep the installed shell |
| SwFinal.InstallValue | public/sw-final.js:108-121 | a critical URL gets an entry iff its fetch was ok or it is "/" or "/index.html", and the entry is always ok |
| SwFinal.InstalledEach | public/sw-final.js:108-121 | each listed URL ends with its own install value, others' failures notwithstanding |
| SwFinal.InstalledUnlisted | public/sw-final.js:108-121 | unlisted URLs are untouched by install |
| SwFinal.InstalledAllOk | public/sw-final.js:108-121 | install keeps a partition whose entries are all ok that way |
| SwFinal.InstallGuaranteesRootDocuments | public/sw-final.js:115-119 | after install "/" and "/index.html" are always cached |
| SwFinal.FreshInstallIsReady | public/sw-final.js:98-148 | install then activate on an empty cache leaves a ready shell |
| SwFinal.HandleAppResource | public/sw-final.js:219-246 | cache-first without refresh; a navigation miss with no network gets the offline page, others throw |
| SwFinal.HandleApiRequest | public/sw-final.js:248-275 | cache-first; a hit refreshes only when online; a miss with no network throws |
| SwFinal.HandleImageRequest | public/sw-final.js:277-300 | cache-first in the API partition; the SVG placeholder when the fetch throws |
| SwFinal.HandleFetch | public/sw-final.js:165-201 | served response and new partitions as the routed step with the outer catch |
| SwFinal.Install | public/sw-final.js:98-130 | loop over the critical URLs; the shell partition becomes `Installed` of its old entries |
| SwFinal.Activate | public/sw-final.js:133-158 | keeps exactly the shell and API partitions |
| SwSimple.RouteOf | public/service-worker-simple.js:58-110 | navigation before static (script, style, image or "/static/"), then other |
| SwSimple.SpritesStaticOnlyAsImages | public/service-worker-simple.js:74-78 | a record's sprite URL is cached as static exactly when its destination is script, style or image |
| SwSimple.RequestsNeverWriteInstallPartition | public/service-worker-simple.js:58-110 | requests never write the static partition, and only static requests write anything |
| SwSimple.TotalFailureResponses | public/service-worker-simple.js:96-109 | static miss with a throwing fetch: 404 "Not found"; other: 503 "Network error" |
| SwSimple.AddAllAtomic | public/service-worker-simple.js:16-27 | `addAll` stores every URL when all fetches are ok, and nothing otherwise |
| SwSimple.OfflineNavigationAfterInstall | public/service-worker-simple.js:65-71 | after a successful install an offline navigation gets the installed "/index.html", ahead of "/" |
| SwSimple.HandleFetch | public/service-worker-simple.js:58-110 | served response and new partitions as the routed step |
| SwSimple.Install | public/service-worker-simple.js:13-29 | the static partition becomes `AddedAll` of its old entries |
| SwSimple.Activate | public/service-worker-simple.js:32-51 | keeps exactly the two current partitions |
| Pokedex.SpriteUrlIsImage | src/App.js:166 | the record's image URL is on raw.githubusercontent.com, contains "sprites" and ends in ".png" whatever the case |
| Pokedex.SpriteUrlAvoids | src/App.js:166 | the record's image URL contains neither "pokeapi.co" nor "/static/" |
| Pokedex.SuccessesAppend | src/App.js:185-186 | the loaded list of two runs of outcomes is the concatenation of their loaded lists |
| Pokedex.SuccessesExactly | src/App.js:157-186 | the loaded list holds exactly the records of successful detail fetches, in order; its length plus the number of failures is the number of entries |
| Pokedex.BatchPrefixesGrow | src/App.js:189 | every list published during the load is a prefix of the final list |
| Pokedex.LastPrefixIsAll | src/App.js:153-190 | the last list published is the whole loaded list |
| Pokedex.SuccessesOfPrefix | src/App.js:186 | loading a prefix of the listing gives a prefix of the list |
| Pokedex.BatchCountCovers | src/App.js:153 | the slices of 50 cover the listing and the last one is not empty |
| Pokedex.LoadInBatches | src/App.js:150-190 | the loop's list is the successful records in order, and it publishes one prefix per slice of 50 |
| Pokedex.FilterByName | src/App.js:649-651 | keeps exactly the records whose lower-cased name contains the lower-cased term |
| Pokedex.FilterAppend | src/App.js:649-651 | filtering distributes over concatenation, so the original order is kept |
| Pokedex.FilterCounts | src/App.js:649-651 | each matching record is kept as often as it occurs, a non-matching one never |
| Pokedex.EmptyTermKeepsAll | src/App.js:649-651 | the empty search term keeps the whole list |
| Pokedex.FilterIdempotent | src/App-new.js:104-106 | filtering twice by the same term is filtering once |
| WebStorage.Store.Set | src/App.js:194 | `setItem` writes exactly when the quota allows, reports the failure otherwise, leaves every other key and uses one quota answer |
| WebStorage.Store.Remove | src/App.js:133 | `removeItem` clears exactly that key |
| WebStorage.LocalStorage.SetItem | src/App.js:194 | the new state and result are `Set` of the old state |
| WebStorage.LocalStorage.RemoveItem | src/App.js:133 | the new state is `Remove` of the old state |
| App.WritePairEffect | src/App.js:194-195 | a persist attempt succeeds exactly when both writes fit, then stores the list and the time; the list key only ever holds the old value or the new list; no other key changes |
| App.RemoveLegacyEffect | src/App.js:203-206 | exactly the four legacy keys are removed |
| App.PersistOutcomes | src/App.js:192-225 | afterwards the stored list is the full list, its first 500 records, or its previous value; the legacy keys are removed exactly when the first attempt failed; no other key changes; when both first writes fit, the full list and the time are stored |
| App.PersistThenLoad | src/App.js:192-225 | what the ladder leaves under the list key either is unchanged or parses back to the full list or its first 500 records |
| App.LoadingAlwaysEnds | src/App.js:104-105 | `loading` is set first and always ends false |
| App.StoredListShownFirst | src/App.js:113-127 | a parseable stored list is published with `cacheLoaded` and `loading` false before anything else; offline, the run stops there with storage untouched |
| App.OfflineWithoutStoredList | src/App.js:139-144 | offline with nothing stored publishes the empty list and requests nothing |
| App.CorruptStoredListHealed | src/App.js:131-135 | a stored value that does not parse never survives: both keys are removed, and what is left under the list key always parses |
| App.ReloadPublishesProgress | src/App.js:146-225 | online, the progress of every slice is published right after the stored list, and the storage is the ladder's result |
| App.ReloadChecksMilestones | src/App.js:230-233 | the milestone check runs exactly when notifications are enabled and something loaded |
| App.FailedReloadFallsBack | src/App.js:234-252 | when the request throws, the stored list is republished, an unparseable one removed with its time, and with nothing stored the empty list published |
| App.PersistList | src/App.js:192-225 | the new storage is `Persisted` of the old |
| App.LoadStored | src/App.js:110-136 | events and storage as the first step |
| App.ReloadList | src/App.js:146-252 | events and storage as the request step |
| App.FetchPokemon | src/App.js:104-256 | events and storage as the whole run |
| AppNew.FreshListUsedWithoutRequest | src/App-new.js:21-30 | a stored list under a day old is published with no request and no write |
| AppNew.StaleListReloaded | src/App-new.js:32-80 | otherwise the progress of every slice is published, and when the writes fit the list and the time are stored |
| AppNew.QuotaFailureRepublishesStoredList | src/App-new.js:79-90 | with no quota fallback, a failed write leaves the storage as it was and republishes the stored list after the fresh progress |
| AppNew.CorruptFreshListRejects | src/App-new.js:25-27 | a fresh stored value that does not parse makes the promise reject, and is never removed |
| AppNew.LoadingAlwaysEnds | src/App-new.js:91-93 | `loading` always ends false, even when the promise rejects |
| AppNew.Recover | src/App-new.js:83-90 | events and rejection as the catch block |
| AppNew.FetchPokemon | src/App-new.js:15-94 | events, storage and rejection as the whole run |
| Notifications.Merge | src/NotificationManager.js:179-190 | `{...defaults, ...options}`: every key of either, the caller's value where given |
| Notifications.Displayed | src/NotificationManager.js:173-176 | a notification is displayed iff the permission is "granted" |
| Notifications.CallerOptionsWin | src/NotificationManager.js:179-190 | a caller's option overrides the default of the same name |
| Notifications.Requested | src/NotificationManager.js:20-47 | resolves true iff supported and already granted or the prompt grants; the permission changes only to the prompt's answer |
| Notifications.GrantedIsFinal | src/NotificationManager.js:26-28 | once granted, a request resolves true whatever the prompt would say |
| Notifications.FailedRequestChangesNothing | src/NotificationManager.js:21-23 | an unsupported browser or a thrown prompt leaves the permission unchanged |
| Notifications.MilestoneMessage | src/NotificationManager.js:92-101 | a message exists exactly for the five milestones |
| Notifications.MilestoneNotices | src/NotificationManager.js:91-124 | a milestone notification is displayed iff the permission is granted and the value is in the table |
| Notifications.FirstQualifying | src/NotificationManager.js:410-416 | the chosen milestone is the smallest above the marker and at most the count; none exactly when no milestone qualifies |
| Notifications.OneMilestonePerCheck | src/NotificationManager.js:406-417 | one check displays at most one notification and writes only the marker, which moves up to a milestone at most the count |
| Notifications.NothingQualifiesNoChange | src/NotificationManager.js:410-416 | when no milestone qualifies, storage and display are unchanged |
| Notifications.UnreadableMarkerBlocksAll | src/NotificationManager.js:408-411 | a marker that parses to NaN blocks every milestone |
| Notifications.CheckFollowsFirstQualifying | src/NotificationManager.js:408-414 | with room in storage, the marker written is the milestone chosen |
| Notifications.FailedCheckShowsNothing | src/NotificationManager.js:406-417 | a check fails exactly when a milestone qualifies and the quota refuses the write; then nothing is shown and the marker is kept |
| Notifications.RepeatedChecksWriteAnnouncements | src/NotificationManager.js:406-417 | successive checks with room in storage write exactly the predicted markers; from five calls on, every milestone between marker and count once, smallest first |
| Notifications.QualifyingMembers | src/NotificationManager.js:407-411 | the milestones left to announce are exactly those above the marker and at most the count |
| Notifications.AfterFirst | src/NotificationManager.js:411-414 | after the first is announced, the rest remain |
| Notifications.RepeatedChecksAnnounceEachOnce | src/NotificationManager.js:406-417 | repeated checks with one count announce each qualifying milestone once, smallest first, and then do nothing |
| Notifications.MilestonesSettle | src/NotificationManager.js:406-417 | five checks announce exactly the milestones between the marker and the count, in increasing order; further checks announce nothing |
| Notifications.NotificationManager.Init | src/NotificationManager.js:8-18 | copies the browser's permission when notifications are supported |
| Notifications.NotificationManager.ShowNotification | src/NotificationManager.js:169-190 | appends the merged notice iff the permission is granted |
| Notifications.NotificationManager.RequestPermission | src/NotificationManager.js:20-57 | result and permission as `Requested`; a newly granted permission displays the welcome notice |
| Notifications.NotificationManager.ShowMilestoneNotification | src/NotificationManager.js:91-124 | displays as `MilestoneNotices` |
| Notifications.NotificationManager.CheckMilestones | src/NotificationManager.js:406-417 | loop with break: storage, display and failure as `Checked` |

## Left out

- Rejections of the Cache Storage API itself (`caches.open`, `match` or `put` failing) are not modelled. This includes the browser's refusal to store a 206 partial response: `Partitions.Added` and `Partitions.StoredIfOk` store any 200-299 response, a 206 included. The workers' outer `catch` blocks that only such a rejection can reach are therefore left out; the ones a network failure reaches are modelled.
- Concurrency: the detail requests of a slice are one sequence of outcomes; unawaited `cache.put` calls and revalidations are sequential steps.
- URL parsing is not modelled: a request carries its origin, host, path and URL already split.
- JSON is abstract: a stored value is a list text, a number text, or other text. A JSON text that parses to something other than a list is treated as a parse failure. `OtherText` is taken never to hold the JSON text of a list: the same stored string cannot be written both ways, so one written as `OtherText` always fails to parse.
- `parseInt` on text with a numeric prefix (such as "250abc") gives NaN here, not the prefix.
- `toLowerCase` folds ASCII letters only.
- Detail ids are natural numbers.
- Floating-point display code and React rendering are not modelled. The state setters are events (`AppEvents.Event`).
- Notification delivery is not modelled: the service-worker `postMessage`, the `Notification` object and its handlers, the in-app banner, sound and vibration, `setTimeout`/`setInterval` scheduling, and the random choice of messages and facts. The `data` and `actions` option values are kept only as far as the class builds them.
- App.Fetch: the milestone check and the "captured" notification are one `Milestones(count)` event, without the random message. The flag the loader closed over (`notify`) is a parameter. At the only call, on mount, it is false, so the check never fires from there.
- App.Fetch: a quota failure when `checkMilestones` writes its marker would throw into the loader's `catch`; the model does not follow that path.
- Notifications.CheckMilestones: its `failed` result stands for the QuotaExceededError escaping the method; the callers' reaction to it is not modelled.
- `showOfflineNotification`, `showOnlineNotification`, `showRandomPokemonFact`, `forceNotificationForMacOS` and `schedulePeriodicNotifications` only display notifications, so they are not modelled.
- `skipWaiting`, `clients.claim`, the message handlers and `notificationclick` in the workers are not modelled.
- src/App-broken.js, src/App-backup.js, src/App.jsx, src/NotificationDiagnostic.js, src/index.js and the tests are not part of this model.
