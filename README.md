# School dismissal manager: the data-synchronisation layer in Dafny

This project models the synchronisation layer of the school dismissal manager.
That layer has five parts:

- **The `dataSync` object** (`data-sync.js`). It holds the students, class groups, timestamp and system mode. It caches them in `localStorage` and reconciles them with a remote store by last-write-wins on timestamps. It fires a `dataUpdated` event when the state is replaced by the server's, or when a local change has been pushed.
- **The integration wrappers** (`data-sync-integration.js`). The page calls these to add, update, delete, bulk-import, reset, back up and restore. Each one reads the current list, transforms it, saves it into the `window.*` global and its cache key, and then hands it to `dataSync.updateData`.
- **The `studentData` function** (`netlify/functions/studentData.js`). This is the endpoint the store talks to. It keeps nothing between invocations.
- **The `data` function** (`netlify/functions/data.js`). It serves an environment variable and acknowledges POSTs without storing them.
- **Cache busting** (`cache-busting.js`). It appends `?v=<timestamp>` to asset URLs that have no query string.

How the pieces are modelled:

- **JavaScript values.** `JsValues.Value` covers undefined, null, booleans, integers, strings, arrays and objects. A record is a `map<string, Value>`. Object spread is map union, and a missing property reads as `undefined`.
- **The browser.** It is a `Browser.Window` object with typed `localStorage` slots and the three globals. It also carries one ordered trace of observable effects: cache writes, POSTs and `dataUpdated` events. Contracts can therefore state the order of effects, e.g. "cached before pushed" or "exactly one event".
- **`dataSync`** is the class `DataSync.SyncStore`. Each of its methods is proved against a function of the state before the call: `Fetched`/`FetchEffects`, `Updated`/`UpdateEffects` and `Pushed`/`PushEffects`. Lemmas about those functions state the last-write-wins rule, the effect order and the add/update behaviour.
- **The wrappers** are methods in `Integration`. Their list transforms (filter by id, reset statuses, backup) are functions with their own lemmas.
- **The serverless handlers** are pure functions from method, body and clock to a response. `Protocol` connects them to the client: what a GET reads as, and what a POST's acknowledgement makes the client adopt.
- **`Date.now()` and HTTP exchanges** are parameters. Every clock reading is a `nat`. Every exchange outcome is a `Reply` value: the parsed body of an OK response, or `Failure`.

## Where the code departs from its stated intent

- **Falsy local timestamp.** The comment above the comparison (`data-sync.js:66`) says the server's data is taken only when it is newer: plain last-write-wins. The condition below it (`data-sync.js:67`) also adopts whenever the local timestamp is falsy. This model follows the code:
  - `SyncModel.Decide` has the extra case.
  - `SyncModel.DecideIsLastWriteWinsAwayFromZero` shows that the two rules agree whenever the local timestamp is not zero.
  - `DataSync.FetchZeroTimestampRefires` shows the consequence: a server state stamped 0 is re-adopted, with a new event, on every poll.
- **Timestamps are not monotone.** Nothing in the code keeps the timestamp increasing across local changes. `updateData` sets it to the current clock reading and then to whatever the server acknowledges (`data-sync.js:123`, `data-sync.js:107`); neither is compared with the previous value. The model states what the code does (`DataSync.UpdateOutcome`) and promises no increase.

## Model

| member | source | states |
|---|---|---|
| JsValues.Spread | data-sync.js:120-124 | the keys of `{...a, ...b}` are those of both; a key of `b` reads as in `b`, any other key as in `a` |
| JsValues.StrictImpliesLoose | data-sync-integration.js:199 | two ids that are `===` are also `==`, so the wrappers' lookups match at least what the store's lookups match |
| JsValues.NumberToString | data-sync.js:147 | the decimal text of a clock reading is a non-empty string of digits with no leading zero except for 0 |
| JsValues.NumberToStringRoundTrip | data-sync.js:147 | reading the digits back gives the number |
| JsValues.NumberToStringInjective | data-sync.js:147 | different clock readings give different generated ids |
| Records.FindIndex | data-sync.js:160-163 | `findIndex` returns the first index whose `id` matches, and -1 (None) exactly when none matches |
| Records.UpdateFirst | data-sync.js:160-169 | None exactly when no id matches; otherwise the same length, the first match replaced by `{...old, ...updates}`, and every other record unchanged |
| Records.UpdateAfterAppend | data-sync.js:144-173 | updating the id of a record just appended to a list where that id did not occur rewrites that last record only |
| Records.FindAfterPrefix | data-sync.js:151-160 | a record appended after records that do not match is found at the end |
| SyncModel.Merge | data-sync.js:120-124 | the merged state carries the patch's properties where it has them, the old ones elsewhere, and the clock reading as timestamp |
| SyncModel.MergeIdempotent | data-sync.js:120-124 | merging the same patch twice at the same clock reading gives the same state as merging once |
| SyncModel.MergeIsSpread | data-sync.js:120-124 | `Merge` is exactly the object `{...this.data, ...newData, timestamp: Date.now()}` |
| SyncModel.Decide | data-sync.js:67-79 | adopt exactly when the local timestamp is falsy or the server's is greater; push exactly when the local one is non-zero and greater; otherwise neither |
| SyncModel.DecideIsLastWriteWinsAwayFromZero | data-sync.js:67 | with a non-zero local timestamp, the state is adopted exactly when the server's timestamp is greater |
| SyncModel.RecordsValue | data-sync.js:96 | a list of records, as the POST body serialises it, becomes an array of the same length holding those objects in order |
| SyncModel.ValueRecords | data-sync.js:64 | an array in a GET reply is read back as records only when every element is an object, element for element |
| SyncModel.FromObject | data-sync.js:64 | a GET reply's object is read as a state exactly when its lists are arrays of objects, its `timestamp` a number and its `systemMode` a string or absent; the state's lists, timestamp and mode are the object's |
| SyncModel.RecordsRoundTrip | data-sync.js:64-96 | reading back a serialised list of records gives the list |
| SyncModel.ObjectRoundTrip | data-sync.js:64-96 | reading back the object a state is posted as gives the state |
| DataSync.LoadFromLocalStorage | data-sync.js:35-45 | a state is loaded exactly when the `schoolData` entry is present and parses; it is the cached one; otherwise null |
| DataSync.SaveLoadRoundTrip | data-sync.js:35-54 | loading after saving a state gives that state |
| DataSync.Pushed | data-sync.js:107 | an acknowledged push sets the timestamp to the server's and leaves every other property as it was |
| DataSync.WithId | data-sync.js:146-148 | the added record always has a truthy id: its own when it has one, otherwise `prefix` followed by the clock digits |
| DataSync.FetchAdoptsServer | data-sync.js:67-74 | with a falsy or older local timestamp, the server state is taken wholesale and cached, exactly one event fires, and nothing is posted |
| DataSync.FetchKeepsLocal | data-sync.js:75-79 | otherwise the local state stays and no event fires; one POST is issued exactly when the local timestamp is newer; with equal timestamps nothing happens |
| DataSync.FetchTwiceQuiet | data-sync.js:57-86 | fetching the same non-zero-stamped server state twice: the second fetch changes nothing and fires no event, and does nothing at all unless the first one pushed |
| DataSync.FetchZeroTimestampRefires | data-sync.js:67 | a server state stamped 0 is adopted again, with another event, by the next fetch |
| DataSync.UpdateOutcome | data-sync.js:118-141 | `updateData` caches the merged state before its one POST; one event fires exactly when the push succeeds; the result has the patched lists and the acknowledged timestamp, or the clock reading when the push failed |
| DataSync.AddAppends | data-sync.js:144-155 | adding a student or a class appends exactly one record at the end, with a truthy id, and leaves the earlier records and the other collection as they were |
| DataSync.AddThenUpdate | data-sync.js:144-173 | add a student (its id generated when missing), then update by the id it ended up with, which no earlier student had: the old list plus the added record with the updates spread over it |
| DataSync.SyncStore.constructor | data-sync.js:4-8 | the store starts from `{students: [], classes: [], timestamp: 0}` |
| DataSync.SyncStore.SaveToLocalStorage | data-sync.js:48-54 | writes the state under `schoolData` and touches nothing else; the cache then holds the state |
| DataSync.SyncStore.Init | data-sync.js:11-32 | starts from the cached state when there is one, fetches once, swallows a failed fetch, and returns the resulting state; the cache changes only by the `schoolData` write of an adopting fetch, every other key stays |
| DataSync.SyncStore.FetchFromServer | data-sync.js:57-86 | a failed exchange is RemoteUnavailable and changes nothing; otherwise the state, cache and effects follow `Decide` |
| DataSync.SyncStore.PushToServer | data-sync.js:89-115 | posts the state; on acknowledgement adopts the server's timestamp and re-caches; on failure reports RemoteUnavailable and keeps the state |
| DataSync.SyncStore.UpdateData | data-sync.js:118-141 | merge, stamp, cache, push, and fire the event on success; a failed push is swallowed and the merged state stands cached |
| DataSync.SyncStore.AddStudent | data-sync.js:144-155 | appends the student, with an id generated as `student_<clock>` when missing, and runs `updateData` on the new list |
| DataSync.SyncStore.UpdateStudent | data-sync.js:158-173 | the first student whose id is `===` the given one is spread with the updates and saved; with no such student, NotFound and nothing changes |
| DataSync.SyncStore.AddClass | data-sync.js:176-187 | appends the class, with an id generated as `class_<clock>` when missing, and runs `updateData` on the new list |
| DataSync.SyncStore.UpdateClass | data-sync.js:190-205 | the first class whose id is `===` the given one is spread with the updates and saved; with no such class, NotFound and nothing changes |
| Integration.ReadList | data-sync-integration.js:175 | a missing entry reads as `[]`; a cached list as itself; a corrupt one throws |
| Integration.CurrentStudents | data-sync-integration.js:171-176 | with the store present, its students; otherwise the cached `students` list, `[]` when the key is missing, and a throw exactly when the cached entry is corrupt |
| Integration.CurrentClasses | data-sync-integration.js:234-239 | with the store present, its classes; otherwise the cached `classesData` list, `[]` when the key is missing, and a throw exactly when the cached entry is corrupt |
| Integration.RemoveMatching | data-sync-integration.js:222 | a record survives the filter exactly when it was in the list and its id is not `==` the given one |
| Integration.RemoveMatchingAppend | data-sync-integration.js:222 | filtering a concatenation is the concatenation of the filtered parts, so survivors keep their order |
| Integration.RemoveMatchingNone | data-sync-integration.js:222 | deleting an id that no record has leaves the list as it was |
| Integration.ResetStatus | data-sync-integration.js:325-330 | the student becomes `waiting`, with a null exit gate and an empty reason, and every other property is kept |
| Integration.ResetStatuses | data-sync-integration.js:325-330 | every student is reset, in place and in order |
| Integration.ResetStatusesIdempotent | data-sync-integration.js:325-330 | resetting twice is resetting once |
| Integration.ModeOr | data-sync-integration.js:357 | the mode, or `morning` when it is missing or empty; never empty |
| Integration.CreateDataBackup | data-sync-integration.js:340-361 | with the store present, its lists and mode; otherwise the cached ones, or a throw on a corrupt cache; always stamped with the clock reading and with a non-empty mode |
| Integration.BackupRestoreRoundTrip | data-sync-integration.js:340-394 | restoring a backup taken from the store gives back its lists, and its mode, or `morning` when it had none or an empty one |
| Integration.SaveStudentData | data-sync-integration.js:106-125 | sets `window.students` and the `students` cache, then runs `updateData` with the list when the store exists; nothing else the wrapper itself writes changes (the `dataUpdated` listener's copy into the globals is left out) |
| Integration.SaveClassData | data-sync-integration.js:128-147 | the same for `window.classesData` and the `classesData` cache (listener left out as above) |
| Integration.SaveSystemMode | data-sync-integration.js:150-166 | the same for `window.systemMode` and the `systemMode` cache (listener left out as above) |
| Integration.UpdateLocalDataFromSync | data-sync-integration.js:69-89 | copies the store's lists into the globals, and its mode when it is non-empty |
| Integration.AddStudentWrapper | data-sync-integration.js:169-186 | saves the current students plus the new one, without assigning an id; a corrupt cache throws and changes nothing |
| Integration.UpdateStudentWrapper | data-sync-integration.js:189-209 | saves the list with the first `==` match spread with the updates; with no match, nothing changes |
| Integration.DeleteStudentWrapper | data-sync-integration.js:212-229 | saves the current students without those whose id is `==` the given one |
| Integration.AddClassWrapper | data-sync-integration.js:232-249 | saves the current classes plus the new one |
| Integration.UpdateClassWrapper | data-sync-integration.js:252-272 | saves the list with the first `==` match spread with the updates; with no match, nothing changes |
| Integration.DeleteClassWrapper | data-sync-integration.js:275-292 | saves the current classes without those whose id is `==` the given one |
| Integration.BulkImportStudentsWrapper | data-sync-integration.js:295-312 | saves the current students followed by the imported ones |
| Integration.ResetAllStudentStatusesWrapper | data-sync-integration.js:315-337 | saves every student reset to `waiting` |
| Integration.RestoreDataFromBackupWrapper | data-sync-integration.js:364-394 | sets and caches the backup's students, classes and mode, with defaults for missing ones, in that order, then runs one `updateData` with all three |
| StudentDataFunction.Stamped | netlify/functions/studentData.js:41-44 | the stamped payload has the clock reading as timestamp and every other property of the payload |
| StudentDataFunction.Handle | netlify/functions/studentData.js:2-70 | CORS headers always; OPTIONS gives 200 with no body; GET gives empty lists stamped now; POST gives success with the stamp, or 500 on an unparseable body; any other method gives 405 |
| StudentDataFunction.PostAcknowledgesNow | netlify/functions/studentData.js:37-54 | a POST is acknowledged with success and the function's clock reading |
| StudentDataFunction.NothingPersists | netlify/functions/studentData.js:18-54 | a later GET shows nothing a POST sent: both lists are empty |
| DataFunction.StoredData | netlify/functions/data.js:20 | the environment value when it is set and non-empty, otherwise the empty-lists default; never empty |
| DataFunction.Handle | netlify/functions/data.js:2-55 | the status is 500 exactly for a POST with a null or undefined context, and then it has no headers; OPTIONS, GET and a good POST give 200; any other method gives 405 |
| DataFunction.PostStoresNothing | netlify/functions/data.js:29-42 | a POST is acknowledged without a timestamp, and GET serves the same data before and after |
| CacheBusting.Bust | cache-busting.js:9-11 | an empty URL, or one with a `?`, is kept; any other URL gets `?v=` and the timestamp digits; the result contains `?` whenever the URL is non-empty |
| CacheBusting.BustIdempotent | cache-busting.js:9-11 | a second pass, with any timestamp, changes nothing |
| CacheBusting.BustEach | cache-busting.js:8-12 | every element of the list is rewritten by the rule, from its old value |
| CacheBusting.ApplyCacheBusting | cache-busting.js:2-31 | scripts, stylesheets and images are each rewritten by the rule with one timestamp, even when the lists share elements |
| Protocol.ReadState | data-sync.js:59-64 | a GET reply is read as a state exactly when its status is OK (2xx) and its body is an object of the state's shape; the state carries the body's `timestamp` |
| Protocol.ReadAck | data-sync.js:103-107 | an acknowledgement is read exactly when the reply carries a numeric `timestamp`, and it carries that number |
| Protocol.GetReadsEmpty | netlify/functions/studentData.js:20-34 | a GET from the function reads as the empty state stamped with the function's clock |
| Protocol.FetchFromStubWipes | data-sync.js:67-74 | fetching from that function replaces local data with empty lists whenever the local timestamp is falsy or older than the function's clock |
| Protocol.PushAdoptsStamp | netlify/functions/studentData.js:41-52 | a push is acknowledged with the function's clock, and the client's state after adopting it is exactly the object the function stamped |

## Left out

- The 30-second polling (`data-sync.js:29`) is not modelled as a timer. Each poll is one more `FetchFromServer` call.
- The reply to the push that a fetch starts without awaiting it (`data-sync.js:78`) is not modelled. `FetchFromServer` records that the POST was issued; its effects on the state arrive after the fetch returns.
- Interleavings of overlapping asynchronous calls at their suspension points are not modelled. Each operation runs to completion.
- Console logging is not modelled.
- The DOM is not modelled. This covers the `DOMContentLoaded` bootstraps, the sync status bar, `initializeDataSync` (which calls `init`, whose argument is ignored, and installs the `dataUpdated` listener described below), `refreshCurrentView`, `showAutoSaveNotification` and `updateSystemStatus`.
- `overrideOriginalFunctions` is not modelled. It only installs the wrappers as globals.
- Protocol.ReadState: an OK GET reply whose body is not of the state's shape (for example `{"students":[],"classes":[]}` with no `timestamp`) is outside the model. The client makes no such check: it adopts the body as it is whenever the local timestamp is falsy or smaller (`data-sync.js:64-69`), and with an undefined timestamp re-adopts it on every poll. `Reply<SyncState>` can carry only well-shaped states.
- SyncModel.FromObject: returns None for an object not of the state's shape; the client would use such an object as its state unchanged, which the model does not represent.
- DataSync.SyncStore.FetchFromServer: its frame leaves the `window.*` globals unchanged. Once `initializeDataSync` has run, the `dataUpdated` listener (`data-sync-integration.js:45-53`) copies an adopted server state into the globals during the dispatch (`data-sync.js:73-74`); this is how a poll brings another device's data to the page. `Integration.UpdateLocalDataFromSync` models that step on its own.
- DataSync.SyncStore.UpdateData: its frame leaves the `window.*` globals unchanged; the same listener rewrites them during the dispatch after an acknowledged push (`data-sync.js:134-135`).
- Integration.SaveStudentData: once `initializeDataSync` has run, the `dataUpdated` listener (`data-sync-integration.js:45-53`) runs `updateLocalDataFromSync` inside the event dispatch of an acknowledged `updateData` (`data-sync.js:134-135`). That overwrites `window.students`, `window.classesData` and a non-empty `window.systemMode` with the store's values. The contract does not include that rewrite: it states `window.classesData` and `window.systemMode` as unchanged, which holds only without the listener. `Integration.UpdateLocalDataFromSync` models the listener's step on its own.
- Integration.SaveClassData: the same listener rewrite of the globals is not part of its contract.
- Integration.SaveSystemMode: the same listener rewrite of the globals is not part of its contract.
- Integration.AddStudentWrapper: saves through `Integration.SaveStudentData`, so the listener rewrite of the globals is not part of its contract either.
- Integration.UpdateStudentWrapper: saves through `Integration.SaveStudentData`; the listener rewrite is not part of its contract.
- Integration.DeleteStudentWrapper: saves through `Integration.SaveStudentData`; the listener rewrite is not part of its contract.
- Integration.BulkImportStudentsWrapper: saves through `Integration.SaveStudentData`; the listener rewrite is not part of its contract.
- Integration.ResetAllStudentStatusesWrapper: saves through `Integration.SaveStudentData`; the listener rewrite is not part of its contract.
- Integration.AddClassWrapper: saves through `Integration.SaveClassData`; the listener rewrite is not part of its contract.
- Integration.UpdateClassWrapper: saves through `Integration.SaveClassData`; the listener rewrite is not part of its contract.
- Integration.DeleteClassWrapper: saves through `Integration.SaveClassData`; the listener rewrite is not part of its contract.
- A `localStorage` write that fails, such as on a full quota, is not modelled. `saveToLocalStorage` catches and logs that failure; in the model, writes always succeed.
- JSON text is not modelled. A cached entry either parses to a value of the expected shape or is `Malformed`. A parse that yields some other JSON value, such as `null` or a number, is not told apart.
- Numbers are integers. NaN, fractional timestamps and an acknowledgement without a numeric `timestamp` (which would set `undefined`) are outside the model.
- JsValues.Equal: loose `==` is strict equality plus `null == undefined`. Coercions between numbers, strings and booleans (`"1" == 1`) are not modelled. Arrays and objects are compared by contents, whereas `===` and `==` compare them by identity (`{} === {}` is false); ids are strings or numbers in practice, where the two agree.
- Integration.UpdateStudentWrapper: matches ids with the loose equality above, so ids that are `==` only through coercion count as different.
- Integration.UpdateClassWrapper: matches ids with the same loose equality.
- Integration.DeleteStudentWrapper: keeps a record whose id is `!=` only through coercion.
- Integration.DeleteClassWrapper: keeps a record whose id is `!=` only through coercion.
- Aliasing is not modelled. `addStudent`/`addClass` also write the generated id into the caller's object. The `window.*` globals and the store's arrays can be the same array object. The model has values only.
- A server state with properties other than `students`, `classes`, `timestamp` and `systemMode` is not modelled. The model keeps those four, and the mode only as a string.
- DataFunction.ClientContextError: the message text is the one a V8 engine gives, not a guarantee of the runtime.
- StudentDataFunction.Handle: a body that parses to JSON other than an object is modelled as a record. It gets the same 200 reply.
- CacheBusting.ApplyCacheBusting: the URLs are the strings as read. The browser's resolution of `src`/`href` to absolute URLs is not modelled.
