# jira-nova project synchronisation, modelled in Dafny

This project models how the `Project` Eloquent model of jira-nova keeps a
local project in step with its Jira counterpart (`app/Models/Project.php`):

- **Incremental issue fetch.** `newUpdatedJiraIssuesExpression` builds the
  JQL text. `getUpdatedJiraIssues` pages through the remote search fifty
  issues at a time and appends the pages.
- **Project lookup.** `findJira` and `jira` dispatch on the project id, then
  the project key. The answer is memoised through the `jira` cache store
  under `App\Models\Project:` followed by the JSON encoding of the attribute
  array, for `15 * 60` time units.
- **Aggregate synchronisation.** `updateFromJira` runs every step inside one
  database transaction: it copies `id`, `key` and `name` onto the model,
  saves it, then reconciles the lead, every component, every issue type and
  every version. `syncIssuesFromJira` reconciles each fetched issue in fetch
  order, outside any transaction.

## Modules

| File | Module | What it holds |
|---|---|---|
| `common.dfy` | `Common` | `Option`, `Result`, the errors that can escape, and PHP scalar values. Also attribute arrays with `$a[k]` and `isset`, decimal rendering, and PHP string interpolation. |
| `json.dfy` | `Json` | `json_encode` of a string-keyed attribute array: `[]` when empty, otherwise an object in insertion order. Strings get PHP's default escaping (`\/`, lower-case `\uXXXX`, surrogate pairs for non-BMP characters). The module also holds a decoder, used to prove that encoding is injective. |
| `remote.dfy` | `Remote` | The remote entities and the service. The service is a fixed map of projects, looked up by id or key, plus a fixed ordered issue list per query. |
| `jira_cache.dfy` | `JiraCache` | `findJira` and `jira()` as functions of an explicit cache map and clock. |
| `issue_fetcher.dfy` | `IssueFetcher` | The query text and the paging loop, which is a `method` with a `while` loop. |
| `project_sync.dfy` | `ProjectSync` | The database as a value with the projects table, and the `Database` and `Project` classes. The child `createOrUpdateFromJira` calls are modelled as one abstract reconciler, and the transaction as a snapshot restored on failure. |

Behaviour of the code that the model keeps as written:

- **Cache key order.** The cache key depends on the order of the attribute
  array (`CacheKeyDependsOnOrder`), not only on its contents.
- **Null results.** A lookup that found no project is stored, but it never
  answers a later lookup. The cache repository treats a stored null as a
  miss (`NullIsNotRemembered`).
- **Component project id.** Line 131 reads `$this->jiraId`, an attribute
  the model does not have. Every component therefore gets a null
  `projectId`.
- **Key in the incremental query.** Line 267 reads `$this->jira->key`. The
  model reads that as the key of the remote project `jira()` returns, not
  the local `jira_key`, so the query needs that lookup to find a project.
  See "## Left out" for what stock Eloquent does with this property.

## Model

| member | source | states |
|---|---|---|
| Common.Element | app/Models/Project.php:108 | `$a[k]` (here `$lead['accountId']`, and the reads behind lines 283 and 288) is present exactly when some entry has key `k`, and its value is one stored under `k` |
| Common.IsSet | app/Models/Project.php:283 | (definition) `isset($a[k])`: the key is present and its value is not null |
| Common.IntInterpolation | app/Models/Project.php:263-267 | interpolating an integer writes a minus sign exactly when it is negative, then digits denoting its magnitude |
| Common.NatDigitsValue | app/Models/Project.php:263-267 | the decimal rendering used by interpolation denotes the number rendered |
| Json.EncodeAttributes | app/Models/Project.php:280 | (definition) `json_encode` of the attribute array: `[]` when empty, otherwise an object with the keys in insertion order and PHP's default string escaping |
| Json.EncodeRoundTrip | app/Models/Project.php:280 | decoding the JSON encoding of any attribute array gives back that array |
| Json.EncodeInjective | app/Models/Project.php:280 | two attribute arrays have the same JSON encoding if and only if they are equal |
| JiraCache.CacheKey | app/Models/Project.php:280 | (definition) the class name, a colon, and the JSON encoding of the attributes |
| JiraCache.Remembered | app/Models/Project.php:280 | (definition) what `remember` answers without its producer: a live entry whose value is not null |
| JiraCache.CacheKeyInjective | app/Models/Project.php:280 | two lookups share a cache key if and only if their attribute arrays are identical |
| JiraCache.CacheKeyDependsOnOrder | app/Models/Project.php:280 | the same id and key listed in the other order give a different cache key |
| JiraCache.Resolve | app/Models/Project.php:280-294 | the producer asks for the id when it is set, otherwise for the key when that is set, otherwise answers null with no request; a request succeeds exactly when the service knows the identifier |
| JiraCache.FindJira | app/Models/Project.php:277-296 | on a hit the stored project is returned with no request and an unchanged cache; on a miss the producer's answer is returned, and only a successful answer is stored, for `Ttl` |
| JiraCache.FoundProjectIsRemembered | app/Models/Project.php:280 | a project fetched at `now` answers every lookup of the same attributes until `now + Ttl`, with no request, whatever the service has become |
| JiraCache.NullIsNotRemembered | app/Models/Project.php:280-294 | a lookup that found no project stores a null entry until `now + Ttl`, yet that entry never answers: any later lookup is a miss, finds no project again and rewrites the entry |
| JiraCache.EntryExpires | app/Models/Project.php:280 | once `Ttl` has passed, the producer runs again |
| JiraCache.ProjectLookupDispatch | app/Models/Project.php:303-309 | for `jira()` a non-null id is the identifier requested, the key is requested only when the id is null, and with both null nothing is requested and no project is found |
| JiraCache.ProjectKeysDisambiguate | app/Models/Project.php:303-309 | two projects share the cache entry of `jira()` if and only if both their ids and their keys are equal |
| IssueFetcher.UpdatedIssuesExpression | app/Models/Project.php:259-268 | the query is exactly `project = ` and the scope when there is no watermark; otherwise it is that prefix followed by ` and updated >= ` and the watermark |
| IssueFetcher.Search | app/Models/Project.php:224-229 | a search answers at most `maxResults` issues, those from `startAt` on in the service's order, and none past the end |
| IssueFetcher.Requests | app/Models/Project.php:217-229 | request `p` asks for offset `p * 50`, limit 50, only `summary`, `description`, `created` and `updated`, no expansion, and no query validation |
| IssueFetcher.PagesAreConsecutive | app/Models/Project.php:235-246 | the answers to the first `n` page requests, put together, are the first `n * 50` results: nothing skipped, repeated or reordered |
| IssueFetcher.GetUpdatedJiraIssues | app/Models/Project.php:213-251 | given the query text (line 211, and its failure, are in `SyncIssuesFromJira`), exactly `n / 50 + 1` requests are made, for pages 0, 1, 2, … in order; every page but the last is full and the last is short; the issues returned are the whole result list in order |
| IssueFetcher.RequestCount | app/Models/Project.php:221-248 | `n / 50 + 1` requests is the pages rounded up when `n` is not a multiple of 50, one more than that when it is, and a single request for no results |
| ProjectSync.Replay | app/Models/Project.php:193-200 | (definition) the `foreach` of reconciliations: each call on the state the previous ones left, stopping at the first that throws |
| ProjectSync.ReplayAppend | app/Models/Project.php:68-73 | running two call lists in turn is running their concatenation, and nothing after the first call that throws runs |
| ProjectSync.ReplayFailure | app/Models/Project.php:193-200 | when a call throws, the store holds exactly the effect of the calls before it, and that call fails on that store |
| ProjectSync.ReplaySuccess | app/Models/Project.php:193-200 | in a run where nothing threw, every call succeeded on the state the calls before it left |
| ProjectSync.ComponentCalls | app/Models/Project.php:127-137 | (definition) every component, given the project's key as `project` and `$this->jiraId` (null) as `projectId`, with the project as context |
| ProjectSync.AggregateCalls | app/Models/Project.php:68-73 | the lead first, then every component (with the project's key and a null project id), every issue type and every version, in stage order |
| ProjectSync.ThenAppend | app/Models/Project.php:68-73 | a stage after another is skipped once one throws, and together they run the concatenated calls |
| ProjectSync.Snapshot | app/Models/Project.php:61 | (definition) `$jira ?: $this->jira()`: the snapshot given, else the project `jira()` finds; a failed lookup or a null project throws |
| ProjectSync.AggregateTransaction | app/Models/Project.php:63-73 | (definition) assign, refuse a conflicting save, save, read the lead's account id, then the child calls in stage order: the state committed, or the error that rolls back |
| ProjectSync.CommittedTransaction | app/Models/Project.php:55-79 | a committed synchronisation passed the uniqueness check, had a lead account id, saved the assigned row before any child call, and each child call then succeeded in order |
| ProjectSync.AggregateInStages | app/Models/Project.php:68-73 | the transaction's outcome is the four stages lead, components, issue types and versions, run one after another |
| ProjectSync.ReconcileAll | app/Models/Project.php:127-138 | a `foreach` of reconciliations leaves the store as the calls that ran left it, and reports the first call that threw |
| ProjectSync.Project.constructor | app/Models/Project.php:16-18 | a new model holds the given id and key, with no name, no watermark, and no row |
| ProjectSync.Project.Jira | app/Models/Project.php:303-309 | `jira()` requests by id, then by key, then nothing, and on a hit it changes nothing |
| ProjectSync.Project.NewUpdatedJiraIssuesExpression | app/Models/Project.php:259-268 | without a watermark the query uses the local key and looks nothing up; with one it uses the key of `jira()`'s project, and fails when that lookup fails or finds none |
| ProjectSync.Project.SyncAttributesFromJira | app/Models/Project.php:88-93 | the id, key and name become the snapshot's, and the watermark and row are kept |
| ProjectSync.Project.Save | app/Models/Project.php:67 | the save fails with a unique violation exactly when another row has the same non-null id or key; otherwise it inserts at the next key or updates its own row |
| ProjectSync.Project.SyncLeadFromJira | app/Models/Project.php:102-112 | a lead without an account id throws and changes nothing; otherwise the user with that account id is reconciled |
| ProjectSync.Project.SyncComponentsFromJira | app/Models/Project.php:121-139 | every component is reconciled in order, with the project's key, a null project id and the project as context |
| ProjectSync.Project.SyncIssueTypesFromJira | app/Models/Project.php:148-157 | every issue type is reconciled in order, without context |
| ProjectSync.Project.SyncVersionsFromJira | app/Models/Project.php:166-180 | every version is reconciled in order, with the project as context |
| ProjectSync.Project.ResolveSnapshot | app/Models/Project.php:61 | the snapshot is the one given, or else the project `jira()` finds; a failed lookup or a null project is an error |
| ProjectSync.Project.SyncAggregateFromJira | app/Models/Project.php:63-73 | assign, save, then the four stages; the outcome is exactly the transaction's; the model keeps its row key when the save is refused, and otherwise holds the key it was saved under, even when a later stage throws |
| ProjectSync.Project.UpdateFromJira | app/Models/Project.php:55-79 | on success the model is returned with the snapshot's id, key and name; the store is what the transaction commits; on any failure the store is exactly as before, while the model keeps the id, key and name it was given and the row key of a save that the rollback undid; a missing snapshot falls back to `jira()`, and that lookup's failure or a null project throws |
| ProjectSync.Project.SyncIssuesFromJira | app/Models/Project.php:187-201 | every fetched issue is reconciled in fetch order with the project as context; an issue that throws keeps the earlier ones; the watermark is untouched |
| ProjectSync.CreateProject | app/Models/Project.php:34-46 | a new model with the given id and key is synchronised through `jira()`: it ends with the snapshot's id, key and name, no watermark, and the next row key unless the save was refused (its own id and key and no row when the lookup fails); the store is committed or left as it was |

## Left out

- The HTTP transport and the REST client. The service is a fixed map of projects and a fixed issue list per query, and only the "no such project" error is modelled. `app/Support/Jira/JiraService.php` is not part of this model.
- The cache backend and the real clock. The clock is an explicit integer `now`, and the TTL is `15 * 60` of its units. With Laravel before 5.8 that argument means minutes, not seconds.
- The database engine. A table other than `projects` is an opaque part of the state that only the reconcilers change. Saving checks only the uniqueness of `jira_id` and `jira_key`. Concurrent transactions and isolation are not modelled.
- The child reconcilers (`User`, `Component`, `IssueType`, `Version` and `Issue::createOrUpdateFromJira`). They are one abstract function from state and call to a new state or an exception. Their lookup rules are not modelled.
- The `boot` and `creating` hook is reduced to an explicit call, `CreateProject`. Eloquent's insert after the hook is not modelled.
- Advancing the watermark: the code never sets `issues_synched_at`.
- The Eloquent relation semantics of `$this->jira` (line 267). It is modelled as the value of `jira()`. Under stock Eloquent, reading `$this->jira` calls `jira()` and then throws a `LogicException`, because `jira()` does not return a relationship. The watermarked expression then throws after `jira()` has already updated the cache. `App\Models\Model`, the base class that could change this, is not part of this model.
- `app/Nova/Resources/ScheduleWeekTemplate.php`: field declarations for the admin interface, with no logic.
- Json.EncodeAttributes: does not model invalid UTF-8, floats, integer-like keys (which PHP turns into integer keys) or json_encode flags, because the attribute arrays here hold only string keys and scalar values.
- Common.IntDecimal: integers are unbounded, so the 64-bit limit of PHP integers is not modelled.
- ProjectSync.Project.UpdateFromJira: the rollback restores only the database. The model's attribute values and the cache are not restored, as in the code.
- ProjectSync.Saved: always writes the whole row and checks uniqueness. Eloquent writes only the changed columns, and sends no query at all for a clean model. Because the rollback also restores `nextId` while the model keeps its row key, a model whose insert was rolled back can later overwrite another project's row in this model.
- ProjectSync.ComponentCalls: builds copies of the components. The code assigns `project` and `projectId` on the snapshot's own component objects, so a caller holding the snapshot, or a cache store that does not serialise it, sees those changes.
- ProjectSync.CreateProject: is one call of `updateFromJira`. Under stock Eloquent the `save()` inside the `creating` listener performs an insert, which fires `creating` again before the model exists. That calls `updateFromJira` again, whose own `save()` is again an insert, so the re-entry never ends and `Project::create` does not return. This recursion is not modelled.
- ProjectSync.Project.Save: the insert branch (a model with no row key) saves without firing `creating`. The reduction of the hook to an explicit call assumes this. So the committed outcomes that `UpdateFromJira` states for a new model, and those of `CreateProject`, describe a save whose nested `creating` event does not run. Under stock Eloquent that event would re-enter `updateFromJira` without end.
