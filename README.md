# DingTalk event listener: a verified model of its core

The listener receives DingTalk stream events (HR changes, approval task and
instance changes) and writes their data into a DingTalk AI spreadsheet.

## What is modelled

- **Rules.** The configuration holds approval rules keyed by template id and HR
  rules keyed by change type.
- **Event handling.** The event handler chooses the rule that applies to an
  event and turns the event into flat form data. It then runs the rule's
  `update_spreadsheet` actions, with a bounded retry loop around each one.
- **The record-update planner.** It finds one record by a form value,
  resolves the fields to write, and sends one update.
- **The record-store client.** It shapes each request, judges each reply
  envelope, and caches the access token.
- **Caches.** A TTL/LRU cache wrapper and three caches (access token, user
  info, department info), each created on first use with a default policy.
- **Configuration.** The `${NAME}` environment substitution and the field
  defaults.
- **Reload and watcher.** The application's reload decision, the watcher's
  start/stop state machine, and the watcher's change filter.

Modules, one per source file:

| module | source |
|---|---|
| `Values` | Python values, truthiness, `dict.get`, hashing and iteration errors, the dict comprehension |
| `Config` | `src/config.py` |
| `Cache` | `src/cache.py` |
| `Spreadsheet` | `src/spreadsheet_client.py` |
| `StreamClient` | `src/stream_client.py` |
| `ConfigWatch` | `src/config_watcher.py` |
| `App` | `main.py` |

How the model is built:

- **Remote service.** It is a function `service(n, request)` that gives the
  reply to the `n`-th request. The client keeps its cached token and the log of
  requests it has sent.
- **Spreadsheet client.** Each method is proved equal to a step function of
  the (token, log) pair before the call. The planner and retry properties
  are lemmas about those functions.
- **Event handler.** It also records the retry pauses it asks for. Each
  method's `ensures` ties its acknowledgement, the client state and the
  pauses to a pure effect function. The routing and retry lemmas are stated
  about those effect functions.
- **Cache.** Its class holds the entries with their expiry times, the
  least-recently-used order and the counters. Each method is proved against
  a pure state transition. The invariant "the order lists every stored key
  once, and the size is within capacity" is proved to survive any sequence
  of calls.
- **Inputs.** Time, the file system, the environment and the YAML/pydantic
  parse are all inputs.

Behaviour of the code that is easy to mistake:

- **`get` on an expired entry.** The cache library does not remove it. It
  moves the key to the recent end and reports a miss. The next store purges
  it.
- **`delete` on an expired entry.** The library removes the entry and then
  raises `KeyError`. `delete` therefore reports success only for a live
  entry.
- **The watcher's filter.** The watcher compares the change kind's integer
  value with the string `"modified"`, so as written it never reloads (see
  Findings). The model of the watch loop uses the intended filter.
- **The restart test.** Reload builds its rule maps over all rules, enabled
  or not. The handler's maps hold only the enabled rules.
- **The restarted stream client.** A restart replaces `stream_client` and
  `event_handler` but never starts the new client (main.py:218-221), while
  `start` keeps waiting on the client it launched (main.py:249, 270). That
  client's handler still holds the old rules. `App.Application.listening` is
  the client being listened on; only `Launch` sets it.

## Model

| member | source | states |
|---|---|---|
| `Values.Fallback` | src/spreadsheet_client.py:124-125 | `a or b` on optional strings: the first when it is set and non-empty, else the second |
| `Values.IntKey` | src/stream_client.py:83 | an int or a bool (`True == 1`) looks up an int key, other scalars find nothing, a list or dict is unhashable and raises TypeError |
| `Values.StrKey` | src/stream_client.py:134 | only a string finds a string key; a list or dict raises TypeError |
| `Values.ItemsForGet` | src/stream_client.py:190-191 | iterating and calling `.get`: a list gives its items; an empty string or dict gives none; a non-empty one raises AttributeError; None, bools and ints raise TypeError |
| `Values.DecimalString` | src/stream_client.py:94 | `str(i)` is non-empty and starts with `-` exactly for negative `i` |
| `Values.IndexByLastWins` | src/stream_client.py:30-41 | a comprehension key is present iff some kept entry has it, and it maps to the last kept entry with that key |
| `Values.IndexByValues` | src/stream_client.py:30-41 | every value of the comprehension is a kept entry filed under its own key |
| `Config.MakeExecution` | src/config.py:73-77 | omitted timeout, retry_times and retry_interval default to 300, 2 and 5; given ones are kept |
| `Config.MakeUpdateField` | src/config.py:37-45 | `timestamp` is true only when given as true; the default is False |
| `Config.MakeAction` | src/config.py:48-54 | omitted updates default to the empty list |
| `Config.MakeApproval` | src/config.py:57-62 | omitted `enabled` defaults to True, omitted actions to the empty list |
| `Config.MakeHrmEvent` | src/config.py:65-70 | omitted `enabled` defaults to True, omitted actions to the empty list |
| `Config.MakeSpreadsheetConfig` | src/config.py:21-25 | the three record-store settings are optional and kept as given |
| `Config.MakeLoggingConfig` | src/config.py:80-85 | the logging defaults INFO, ./logs/app.log, 100 MB, 30 days |
| `Config.MakeConfig` | src/config.py:88-95 | omitted sections take an empty spreadsheet section, no rules, the default execution policy and logging |
| `Config.ReplaceEnvVars` | src/config.py:98-111 | the substitution; with no variable set the text comes back unchanged; its other properties are `UnsetPlaceholdersKept`, `ReplacedValueNotRescanned`, `SinglePlaceholder` and `SubstitutionIsSinglePass` |
| `Config.NameRun` | src/config.py:101 | the run of `[A-Z0-9_]` characters at the start of a text is maximal |
| `Config.PlaceholderAtMatches` | src/config.py:101 | a text starts with a placeholder match exactly when it starts with `${`, a non-empty run of `[A-Z0-9_]` and `}` |
| `Config.UnsetPlaceholdersKept` | src/config.py:101-111 | text in which no placeholder names a set variable comes back unchanged |
| `Config.ReplacedValueNotRescanned` | src/config.py:103-111 | a leading set placeholder becomes its value, copied literally, and scanning resumes after it |
| `Config.SinglePlaceholder` | src/config.py:101-109 | `${n}` is replaced iff `n` is a non-empty `[A-Z0-9_]` name that is set; `${}`, lower-case and unset names stay verbatim |
| `Config.SubstitutionIsSinglePass` | src/config.py:101-111 | a set variable whose value is itself a placeholder `${m}` yields `${m}` verbatim, whether or not `m` is set; only a second pass would expand it |
| `Config.LoadConfig` | src/config.py:114-130 | a missing file fails with FileNotFound and nothing else does; otherwise the substituted text is parsed and validated |
| `Cache.Purge` | src/cache.py:25 | the expiry pass keeps exactly the live entries and leaves the counters alone |
| `Cache.Lookup` | src/cache.py:30-47 | a hit iff the key is stored and live, giving its value and adding one hit; otherwise a miss adding one miss; no entry changes |
| `Cache.Store` | src/cache.py:49-57 | refused with ValueError iff maxsize is below one; otherwise the key holds the value until now + ttl |
| `Cache.Remove` | src/cache.py:59-73 | the key is gone and the other keys stay; success iff the key was stored and live |
| `Cache.Cleared` | src/cache.py:75-79 | no entries remain and the counters are unchanged |
| `Cache.HitRate` | src/cache.py:87-88 | hits/(hits+misses), zero before any lookup; zero iff no hits, one iff hits and no misses |
| `Cache.PurgeKeepsInvariant` | src/cache.py:25 | expiry keeps the order consistent and the size within capacity |
| `Cache.PurgeIdempotent` | src/cache.py:25 | purging twice at the same time is purging once |
| `Cache.LookupKeepsInvariant` | src/cache.py:39-47 | a lookup keeps the invariant |
| `Cache.StoreKeepsInvariant` | src/cache.py:21-25 | a store never leaves more entries than maxsize |
| `Cache.RemoveKeepsInvariant` | src/cache.py:59-73 | a delete keeps the invariant |
| `Cache.StoreThenLookup` | src/cache.py:30-57 | after `set(k, v)`, `get(k)` returns `v` strictly before the expiry time and misses after it |
| `Cache.RemoveThenLookup` | src/cache.py:59-73 | after `delete(k)`, `get(k)` misses |
| `Cache.StoreEvictsLeastRecent` | src/cache.py:49-57 | a new key stored into a cache full of live entries evicts exactly the least recently used live entry |
| `Cache.StoreIntoFullCacheStaysFull` | src/cache.py:49-57 | after that eviction the cache holds exactly maxsize entries |
| `Cache.FullCacheHasVictim` | src/cache.py:49-57 | a cache with a live entry has a least recently used one |
| `Cache.StoreWithoutEviction` | src/cache.py:49-57 | with room left, or for a key already live, a store evicts no live entry |
| `Cache.ClearThenStats` | src/cache.py:75-98 | after clear the size is 0 and the hit rate is unchanged |
| `Cache.RunCountsLookups` | src/cache.py:39-47 | over any sequence of calls, hits plus misses grows by exactly the number of gets |
| `Cache.RunKeepsInvariant` | src/cache.py:17-25 | over any sequence of calls the size never exceeds maxsize |
| `Cache.CacheManager.constructor` | src/cache.py:17-28 | a new cache is empty with zero counters and the given policy |
| `Cache.CacheManager.Expire` | src/cache.py:25 | the state becomes its purge |
| `Cache.CacheManager.Get` | src/cache.py:30-47 | the new state and the result are those of `Lookup` |
| `Cache.CacheManager.Set` | src/cache.py:49-57 | done iff `Store` accepts, with its state; a refusal raises ValueError and changes nothing |
| `Cache.CacheManager.MakeRoomFor` | src/cache.py:56 | a new key in a full cache evicts the least recently used entry |
| `Cache.CacheManager.EvictLeastRecent` | src/cache.py:56 | the least recently used entry goes |
| `Cache.CacheManager.Insert` | src/cache.py:56 | the entry goes in and its key becomes the most recently used |
| `Cache.CacheManager.Delete` | src/cache.py:59-73 | the new state and the result are those of `Remove` |
| `Cache.CacheManager.Clear` | src/cache.py:75-79 | the state becomes `Cleared` |
| `Cache.CacheManager.Size` | src/cache.py:100-102 | the number of live entries, after expiring the rest |
| `Cache.CacheManager.Stats` | src/cache.py:81-98 | name, live size, maxsize, counters, hit rate and ttl |
| `Cache.CacheRegistry.constructor` | src/cache.py:106-108 | no cache exists at first |
| `Cache.CacheRegistry.InitCache` | src/cache.py:111-159 | three new empty caches from the given settings, or the defaults 7200/10, 600/1000 and 1800/500 |
| `Cache.CacheRegistry.GetAccessTokenCache` | src/cache.py:162-167 | the existing cache, or a new one at 7200 s / 10; the other caches are untouched |
| `Cache.CacheRegistry.GetUserInfoCache` | src/cache.py:170-175 | the existing cache, or a new one at 600 s / 1000 |
| `Cache.CacheRegistry.GetDeptInfoCache` | src/cache.py:178-183 | the existing cache, or a new one at 1800 s / 500 |
| `Cache.CacheRegistry.ClearAllCache` | src/cache.py:195-206 | every existing cache is emptied and keeps its counters |
| `Spreadsheet.ListBody` | src/spreadsheet_client.py:140-155 | a single `equal` filter on `[value]` is present iff the field is set and the value is not None |
| `Spreadsheet.OperatorParamFallsBack` | src/spreadsheet_client.py:243-248 | the operatorId parameter is the explicit operator when truthy, else the configured default |
| `Spreadsheet.TokenReply` | src/spreadsheet_client.py:85-101 | a present accessToken is the token; without one, an errcode other than 0 raises and errcode 0 fails on the missing key |
| `Spreadsheet.RecordsOf` | src/spreadsheet_client.py:159-167 | the list reply succeeds iff `records` is present, not null and not an int or bool, and that value is the result; an int or bool raises TypeError, as `len(records)` does |
| `Spreadsheet.IdsOf` | src/spreadsheet_client.py:326 | a list of objects gives their ids in order; any other item raises AttributeError |
| `Spreadsheet.ItemIds` | src/spreadsheet_client.py:260 | ids of a list of objects, in order and of the same length |
| `Spreadsheet.UpdateReply` | src/spreadsheet_client.py:252-262 | False iff `value` is null; True iff it is non-null and iterating its items and reading their ids raises nothing |
| `Spreadsheet.UpdateReplyIds` | src/spreadsheet_client.py:252-262 | True iff `value` is non-null and its ids can be read; the error of reading them is the call's error |
| `Spreadsheet.AddReply` | src/spreadsheet_client.py:318-328 | raises iff errcode is present and non-zero; otherwise the ids in `value` in order, or none |
| `Spreadsheet.InstanceReply` | src/spreadsheet_client.py:54-64 | the result when `success` is truthy, the raw envelope otherwise, nothing when the call failed |
| `Spreadsheet.FirstRecord` | src/spreadsheet_client.py:190-197 | none iff the result is empty; otherwise the first record |
| `Spreadsheet.ResolveAllDomain` | src/spreadsheet_client.py:370-383 | a column is written iff some update for it resolves (timestamp, literal, form field, or skipped) |
| `Spreadsheet.ResolveAllLastWins` | src/spreadsheet_client.py:370-383 | a later update of the same column overwrites an earlier one |
| `Spreadsheet.ResolveAllEmpty` | src/spreadsheet_client.py:385-387 | no field is written iff no update resolves |
| `Spreadsheet.SpreadsheetClient.constructor` | src/spreadsheet_client.py:20-27 | no token is cached and no request has been sent; the operator is the configured default |
| `Spreadsheet.SpreadsheetClient.TokenCached` | src/spreadsheet_client.py:75-76 | a truthy cached token is returned with no request and is never replaced |
| `Spreadsheet.SpreadsheetClient.TokenFetched` | src/spreadsheet_client.py:78-101 | without a cached token, one token request is sent; success iff the reply carries accessToken, which is then cached |
| `Spreadsheet.SpreadsheetClient.ListNeedsBase` | src/spreadsheet_client.py:123-128 | with no base id resolving, the list call raises and sends no list request |
| `Spreadsheet.SpreadsheetClient.ListSent` | src/spreadsheet_client.py:123-167 | a successful list call sent one request to the resolved base and sheet, with the filter body, and returned its records, which are neither null nor an int or bool |
| `Spreadsheet.SpreadsheetClient.ProcessNeedsSearchValue` | src/spreadsheet_client.py:355-358 | a falsy search value returns False with no request |
| `Spreadsheet.SpreadsheetClient.TokenStepExtends` | src/spreadsheet_client.py:73-101 | fetching the token only appends to the log and keeps a cached token |
| `Spreadsheet.SpreadsheetClient.FindStepShape` | src/spreadsheet_client.py:169-197 | finding a record sends no update request |
| `Spreadsheet.SpreadsheetClient.UpdateStepShape` | src/spreadsheet_client.py:224-262 | an update call sends its update request, last, exactly when its token step succeeds and the base resolves; that request carries the given records and operator, and its reply's verdict is the result |
| `Spreadsheet.SpreadsheetClient.UpdateThenExtends` | src/spreadsheet_client.py:390-395 | the same after any log that holds no update, including when the request is sent |
| `Spreadsheet.SpreadsheetClient.UpdateStepOnce` | src/spreadsheet_client.py:389-395 | after a search that sent no update, the update branch sends its update last exactly when the token step succeeds and the base resolves; the update has the single `{id, fields}` record with the given id, and its verdict is the result |
| `Spreadsheet.SpreadsheetClient.ProcessUpdatesOnce` | src/spreadsheet_client.py:385-399 | for any inputs, at most one update request, only last and only for non-empty fields, with a single `{id, fields}` record; its result is the planner's |
| `Spreadsheet.SpreadsheetClient.ProcessSendsUpdate` | src/spreadsheet_client.py:355-399 | a record found for a truthy search value, with non-empty fields: exactly one `update_records` call with the single record `{id: record.get("id"), fields}`; once its token and base resolve, its update request follows the token step and its verdict is the result; otherwise it raises and sends none |
| `Spreadsheet.SpreadsheetClient.ProcessWithoutFields` | src/spreadsheet_client.py:385-387 | with no effective field, no update request and no True |
| `Spreadsheet.SpreadsheetClient.ProcessWithoutRecord` | src/spreadsheet_client.py:361-364 | no record found: False with no update request |
| `Spreadsheet.SpreadsheetClient.GetAccessToken` | src/spreadsheet_client.py:73-101 | result, cached token and log are those of the token step |
| `Spreadsheet.SpreadsheetClient.GetProcessInstance` | src/spreadsheet_client.py:29-64 | result, token and log are those of the instance step |
| `Spreadsheet.SpreadsheetClient.ListRecords` | src/spreadsheet_client.py:103-167 | result, token and log are those of the list step, which raises TypeError for an int or bool `records` |
| `Spreadsheet.SpreadsheetClient.FindRecordByValue` | src/spreadsheet_client.py:169-197 | result, token and log are those of the find step |
| `Spreadsheet.SpreadsheetClient.UpdateRecords` | src/spreadsheet_client.py:199-262 | result, token and log are those of the update step |
| `Spreadsheet.SpreadsheetClient.AddRecords` | src/spreadsheet_client.py:264-328 | result, token and log are those of the add step |
| `Spreadsheet.SpreadsheetClient.ProcessUpdateActions` | src/spreadsheet_client.py:330-399 | the loop over updates builds the resolved fields; result, token and log are those of the planner step |
| `StreamClient.RuleTables` | src/stream_client.py:29-41 | only enabled rules are indexed, each under its own template id or change type, and the last enabled one wins |
| `StreamClient.HrmGate` | src/stream_client.py:71-86 | no change type or no rule for it: no rule; an unhashable change type raises TypeError; otherwise the rule for it |
| `StreamClient.ApprovalGate` | src/stream_client.py:120-145 | a rule iff the result is agree, the process code names a rule and the instance id is truthy; an unhashable code raises |
| `StreamClient.Merge` | src/stream_client.py:204-208 | top-level keys outside the skipped set fill gaps only; existing entries are never overwritten |
| `StreamClient.FillGaps` | src/stream_client.py:97-100 | the copying loop computes `Merge` |
| `StreamClient.HrmFormData` | src/stream_client.py:90-100 | staffId, changeType and changeTypeName are always present and never overwritten; the name is the map entry or `str(code)` |
| `StreamClient.BuildHrmFormData` | src/stream_client.py:90-100 | the seeding and copying loop computes `HrmFormData` |
| `StreamClient.Writes` | src/stream_client.py:190-201 | a truthy name writes its value; `<name>_ext` appears iff extValue is truthy; a nameless component writes nothing |
| `StreamClient.FoldComponentsOk` | src/stream_client.py:187-201 | extraction succeeds iff every component is an object with a hashable name |
| `StreamClient.FoldKeeps` | src/stream_client.py:187-201 | a key no component writes keeps its earlier entry |
| `StreamClient.FoldLastWins` | src/stream_client.py:187-201 | a key holds the value of the last component that writes it |
| `StreamClient.MergeDetails` | src/stream_client.py:147-157 | object details are merged over the event data; a failed fetch leaves the data as it was |
| `StreamClient.FormDataSources` | src/stream_client.py:182-211 | components win over top-level keys, the last one wins, and the excluded keys are never copied from the top level |
| `StreamClient.ExtractFormData` | src/stream_client.py:182-211 | the extraction loop computes `FormDataOf`, failing as the first bad component does |
| `StreamClient.OrChain` | src/stream_client.py:164-169 | the first truthy operand, or the last one when none is truthy |
| `StreamClient.Repeat` | src/stream_client.py:273-282 | `n` pauses of the interval |
| `StreamClient.UnifiedEventHandler.constructor` | src/stream_client.py:25-41 | the handler holds the configuration, the client and the two enabled-rule maps; no pause yet |
| `StreamClient.UnifiedEventHandler.RetryShape` | src/stream_client.py:258-284 | after failed attempts, the loop adds at least one attempt while any remain, the first being the next call; only the last can succeed and it stops early only on success; one pause between attempts; raises iff every attempt was used and the last raised, with that exception |
| `StreamClient.UnifiedEventHandler.RetryPolicy` | src/stream_client.py:241-284 | no call without find_by or updates; at most retry_times+1 attempts, stopping at the first success; all failing uses every attempt with one pause fewer; raises iff the last allowed attempt raised |
| `StreamClient.UnifiedEventHandler.ActionsIsolated` | src/stream_client.py:222-231 | every action gets an outcome whatever the earlier ones raised; other action types do nothing |
| `StreamClient.UnifiedEventHandler.ActionsFromIsolated` | src/stream_client.py:222-231 | the actions after a partial run add one outcome each after the earlier ones; other action types end Done; with no update action left the client and the pauses are untouched |
| `StreamClient.UnifiedEventHandler.HrmRouting` | src/stream_client.py:67-111 | no change type or no enabled rule: OK and nothing done; otherwise the last enabled rule's actions run on the HR form data with no operator |
| `StreamClient.UnifiedEventHandler.ApprovalRouting` | src/stream_client.py:113-180 | not agreed, no code, unknown code or no instance id: OK and nothing done; a failed detail fetch leaves the data as it was and the actions run with its operator |
| `StreamClient.UnifiedEventHandler.OtherEventsIgnored` | src/stream_client.py:46-61 | other event types are acknowledged OK and change nothing |
| `StreamClient.UnifiedEventHandler.UpdateSpreadsheet` | src/stream_client.py:233-284 | the retry loop's outcome, client state and pauses are those of the update effect |
| `StreamClient.UnifiedEventHandler.RunAction` | src/stream_client.py:223-230 | one action's outcome and state are those of the action effect |
| `StreamClient.UnifiedEventHandler.ExecuteActions` | src/stream_client.py:213-231 | the loop's outcomes, client state and pauses are those of running the actions in order |
| `StreamClient.UnifiedEventHandler.ProcessHrmEvent` | src/stream_client.py:67-111 | acknowledgement and state are those of the HR effect |
| `StreamClient.UnifiedEventHandler.ProcessApprovalEvent` | src/stream_client.py:113-180 | acknowledgement and state are those of the approval effect |
| `StreamClient.UnifiedEventHandler.Process` | src/stream_client.py:46-65 | dispatch by event type to the HR or approval handler; acknowledgement and state are those of the event effect |
| `ConfigWatch.Selected` | src/config_watcher.py:29-34 | the selected changes are changes that modify the configuration file |
| `ConfigWatch.AsWrittenNeverReloads` | src/config_watcher.py:34 | with the filter as written, no change is ever selected |
| `ConfigWatch.EditIgnoredAsWritten` | src/config_watcher.py:34 | one edit of the file: ignored as written, one reload as intended |
| `ConfigWatch.SelectedExactly` | src/config_watcher.py:29-37 | a change is selected iff it is a modification of the configuration file, in order |
| `ConfigWatch.ConfigWatcher.constructor` | src/config_watcher.py:12-22 | not running and no task |
| `ConfigWatch.ConfigWatcher.Start` | src/config_watcher.py:45-57 | no-op when running or when the file is missing; otherwise running with a new task |
| `ConfigWatch.ConfigWatcher.Stop` | src/config_watcher.py:59-71 | no-op when not running; otherwise not running and its task cancelled |
| `ConfigWatch.ConfigWatcher.WatchLoop` | src/config_watcher.py:24-43 | one callback per selected change in batch order; each callback's failure is caught and watching goes on |
| `App.ChangedApprovalRestarts` | main.py:179-190 | changing the rule in force for a template id, even only its enabled flag, restarts the stream |
| `App.ChangedHrmEventRestarts` | main.py:183-190 | changing the rule in force for a change type restarts the stream |
| `App.NewTemplateRestarts` | main.py:179-190 | a rule for a new template id restarts the stream |
| `App.OtherSettingsNoRestart` | main.py:186-190 | other settings alone do not restart the stream |
| `App.Application.constructor` | main.py:100-129 | default caches, one record-store client, no stream, handler or watcher, both flags false |
| `App.Application.CreateStreamClient` | src/stream_client.py:287-309 | a stream client with the credential and a new handler for the configuration |
| `App.Application.RestartStreamClient` | main.py:203-222 | no-op unless the stream was started; otherwise a new stream client and handler from the new configuration, while the client being listened on stays the old one |
| `App.Application.ReloadConfig` | main.py:168-201 | a load failure keeps the old configuration and raises; differing rules restart before the swap, and a failing restart keeps the old configuration; otherwise the new configuration is in force |
| `App.Application.Launch` | main.py:248-257 | stream client, handler and watcher from the current configuration; that client is the one listened on; both flags set |
| `App.Application.Stop` | main.py:279-295 | no-op when not running; afterwards neither flag is set and the watcher is stopped |
| `App.Application.Start` | main.py:224-277 | launch, then stop once the stream returns |

## Left out

- **HTTP transport and the response decode.** A reply is a decoded JSON
  object, or `Failed` when the call raised or the body is not JSON. A body
  that decodes to a non-object is folded into `Failed`.
- **The DingTalk stream SDK.** `create_stream_client` is modelled only as the
  handler it registers (`App.Application.CreateStreamClient`). Building the
  SDK client can fail only through the `streamError` input at a restart; at
  start it is taken to succeed.
- **The blocking `stream_client.start`.** `App.Application.Start` is Launch
  followed by Stop, as the `finally` block runs them.
- **Asynchronous machinery.** asyncio tasks, `awatch`, and the watch loop's
  outer exception handler are not modelled. A task is a number, and so is a
  cancellation. A pause is a log entry holding its length. The watcher's
  callback is a function from its call number to how the call ended.
- **Logging.** loguru output and `setup_logging`, including the logging
  update at reload.
- **YAML and pydantic.** Parsing and validation are a `parse` function given
  to `Config.LoadConfig`. Only the defaults of the validated models are
  modelled.
- **Clock and number formatting.** The timestamp is one opaque string per
  event, shared by all its actions and retry attempts. The source reads
  `datetime.now()` on each attempt (src/spreadsheet_client.py:374), and the
  attempts are `retry_interval` seconds apart, so there a retried update
  writes a later time than its first attempt; the model does not capture
  that. The number formatting of `hit_rate` is left out; the rate
  is a real number.
- **Operations outside this model.** I/O, diagnostics, or a method the
  client does not have:
  - `get_all_cache_stats`;
  - `start_cache_cleanup_task`;
  - `show_failed_events`;
  - argument parsing and signal handling;
  - `SpreadsheetClient.close`;
  - the start-up summary logging in `start`.
- **`_process_failed_events`.** It is called after a reload and at start. It
  calls a client method that does not exist and logs the failure.
- `App.Application.constructor`: it takes the configuration already loaded.
  A load failure in `__init__` is just `Config.LoadConfig` failing, before
  any object exists.
- `StreamClient.MergeDetails`: `dict.update` also accepts a list of
  key/value pairs. Details of any shape other than an object are treated as
  no change.
- `StreamClient.Writes`: a truthy int or bool component name is stored under
  a non-string key, which no string-keyed lookup of the model can reach. Only
  its `_ext` entry is kept.
- `ConfigWatch.ConfigWatcher.WatchLoop`: paths are compared as strings,
  without normalising them as `Path` does. A batch from `awatch` is a set of
  (change, path) pairs, with no duplicates and no order. The model's batches
  are sequences: they admit duplicates the library never yields, and the
  order of reloads within a batch is the model's, not one the library fixes.
- `StreamClient.HrmGate`: float change types are not modelled, because JSON
  numbers here are ints.
- `Cache.Lookup`: an expired key looked up is moved to the recent end and
  then dropped by the next store. How it orders against other expired keys
  before that store is not observable and not stated.

## Findings

| source | as written | input that shows it | evidently intended | confidence | as-written member | corrected member |
|---|---|---|---|---|---|---|
| src/config_watcher.py:34 | `change_type.value == "modified"` compares the file-watching library's integer change kind (added 1, modified 2, deleted 3) with a string, so it never holds | one batch holding one modification of the configuration file: `[[FileChange(Modified, config_path)]]` | `change_type == Change.modified`: reload on each modification of the configuration file | not executed | `ConfigWatch.EditIgnoredAsWritten` | `ConfigWatch.ConfigWatcher.WatchLoop` |
