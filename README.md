# AI Tools Hub — a Dafny model of the catalogue core

AI Tools Hub is a catalogue of AI tools grouped into categories, each tool
with a name, a description, a link, tags and a view count. The catalogue
lives in a SQLite database (with a full-text index over tool names,
descriptions and tag names), is filled once from a legacy JSON settings
file, and is served to a React client through a handful of API routes.

This project models that core in Dafny and proves properties of the model:

- **Database layer** (`Db`, `DbRetry`): the tables as values (categories,
  tools, tags, tool–tag links, site config), the soft-deleting store as a
  class whose methods mirror the helpers of `lib/db.ts` (listing, view
  counts, updates, tags, creation), and the busy-retry wrappers with their
  delay schedule.
- **One-off scripts** (`Migration`, `SearchIndex`, `AnalyzeData`): the
  migration from the JSON settings into the tables, with its batched
  commits and its verification queries; the full-text index builder with
  its triggers, kept in sync with the tables as an invariant; and the data
  analysis report's checks.
- **Errors** (`ErrorHandler`): the error types, their codes and HTTP
  statuses, the response envelopes, the classification of thrown errors and
  the parameter validators.
- **API routes** (`SearchRoute`, `ToolsRoute`, `SettingsRoute`,
  `CategoryOrderRoute`, `SyncViewCountRoute`): each handler as a function
  from the request and the database state to the response and the new
  state, error paths included.
- **Client** (`UseSearch`, `UseSettings`, `TabWidget`, `CategorySection`,
  `CategoryMenu`, `ToolCard`, `AddToolCard`, `VirtualGrid`): the search
  filter, the settings hook's local updates, the popular-tools tab, the
  category grouping, drag-and-drop reordering, the tool card's
  description, the add-tool dialog and the virtual grid's rows and items.
- **Shared** (`Common`, `Text`, `Sorting`): JavaScript values and errors,
  ASCII string operations (`trim`, `toLowerCase`, `split`/`join`,
  `parseInt`, `String(n)`), and a stable sort with its permutation and
  ordering properties.

Clocks (`Date.now()`), the database's current state, the full-text
engine's matching and ranking, and the outcome of network calls are
parameters of the model. Module and member names follow the files they
model; each row of the table below cites the source lines a member models.

## Model

| member | source | states |
|---|---|---|
| UseSearch.Keep | app/hooks/useSearch.js:11-15 | the filter keeps the tools in their order (a subsequence); each tool whose name, description or one of whose tags contains the lower-cased keyword occurs as often as in the list, and no other tool occurs |
| UseSearch.Filtered | app/hooks/useSearch.js:7-16 | a blank keyword returns the list itself; otherwise an order-preserving sublist holding every matching tool as often as the list does and nothing else, compared against the keyword lower-cased but not trimmed |
| UseSearch.UntrimmedKeyword | app/hooks/useSearch.js:8-10 | a keyword with a space in it finds none of the tools whose texts have no space, because only the blank test trims |
| UseSearch.KeepAsWrittenAgrees | app/hooks/useSearch.js:11-15 | as written, the filter equals the corrected one when every tool has a description, and throws the `null.toLowerCase()` TypeError as soon as a tool whose name does not match has none |
| UseSearch.FilteredAsWrittenThrows | app/hooks/useSearch.js:13 | a tool without description whose name lacks the keyword makes the filter as written throw, while the corrected filter keeps that tool exactly when one of its tags matches |
| TabWidget.PopularSpec | app/components/Content/TabWidget.jsx:10-13 | the widget shows 20 tools, or all when there are fewer, highest view count first; its multiset is contained in the list's, and equals it when the list has at most 20 tools; no tool left out has more views than a shown one |
| CategorySection.InCategory | app/components/Content/CategorySection.jsx:14 | the filter keeps the list order; each tool of that category occurs as often as in the list, and no other tool occurs |
| CategorySection.CategoryToolsSpec | app/components/Content/CategorySection.jsx:11-17 | the section's tools are a permutation of the category's tools (so the count in the header is their number), ordered by view count, highest first |
| ToolCard.TruncatedSpec | app/components/Content/ToolCard.jsx:79-82 | a falsy description gives ''; a text of six characters or fewer is unchanged; a longer one keeps its first six characters followed by '...', at most nine in all |
| ToolCard.TruncatedIdempotent | app/components/Content/ToolCard.jsx:79-82 | truncating an already truncated description changes nothing |
| VirtualGrid.GridConfigSpec | app/components/Content/VirtualGrid.jsx:14-24 | four items per row at height 90; the row count is the least number of rows of four that holds every tool, and zero exactly when there is no tool |
| VirtualGrid.AllItems | app/components/Content/VirtualGrid.jsx:27-51 | no card for a missing or empty list; otherwise the add-tool card first exactly when the category id is truthy, then one card per tool, in order, carrying its index |
| AddToolCard.TagDecisionSpec | app/components/Content/AddToolCard.jsx:77-98 | the tag input is refused, in this order, when blank after trimming, longer than 50 characters, or equal (case included) to a tag already listed; an accepted name is the trimmed input, and appending it keeps the dialog's tags valid |
| AddToolCard.WithoutTagSpec | app/components/Content/AddToolCard.jsx:101-103 | removing a tag keeps the others in order, each as often as before, and drops every tag with that id |
| AddToolCard.WithoutTagKeepsValid | app/components/Content/AddToolCard.jsx:101-103 | removing a tag keeps the names trimmed, non-empty, at most 50 characters and pairwise distinct |
| AddToolCard.PayloadTags | app/components/Content/AddToolCard.jsx:44 | the request's tags are the dialog's tag names, one per tag, in order |
| AddToolCard.PayloadOfValidTags | app/components/Content/AddToolCard.jsx:44 | the names sent from a valid dialog are pairwise distinct and each trimmed, non-empty and at most 50 characters |
| AddToolCard.SaveNotice | app/components/Content/AddToolCard.jsx:48-73 | the save succeeds exactly when the answer was parsed, `success` is truthy and `data` is a tool with an id, a name and a defined category id |
| AddToolCard.AddDialog.constructor | app/components/Content/AddToolCard.jsx:19-23 | the dialog starts closed, with no tag, an empty input and the input hidden |
| AddToolCard.AddDialog.Open | app/components/Content/AddToolCard.jsx:26-30 | opening shows the dialog with no tag and leaves the input alone |
| AddToolCard.AddDialog.AddTag | app/components/Content/AddToolCard.jsx:77-98 | a refused input gives the decision's warning and changes nothing; an accepted one appends the tag with id `temp-<now>`, clears the input and hides it |
| AddToolCard.AddDialog.RemoveTag | app/components/Content/AddToolCard.jsx:101-103 | the tags become the list without that id, and nothing else changes |
| AddToolCard.AddDialog.Saved | app/components/Content/AddToolCard.jsx:50-69 | after a successful save the dialog closes and its tags are cleared; after a failure nothing changes |
| CategoryMenu.MovedSpec | app/components/Layout/CategoryMenu.jsx:58-67 | dragging an item gives a permutation of the list in which that item lands at the drop position and the other items keep their relative order |
| CategoryMenu.MoveBack | app/components/Layout/CategoryMenu.jsx:58-67 | dragging the item back from the drop position to where it was restores the list |
| CategoryMenu.InsertRemoved | app/components/Layout/CategoryMenu.jsx:65-67 | taking an element out and splicing it back at the same index is the identity |
| CategoryMenu.Renumbered | app/components/Layout/CategoryMenu.jsx:72-75 | one `{ id, displayOrder }` pair per category, in list order, the order being its position counted from 1 |
| CategoryMenu.RenumberedConsecutive | app/components/Layout/CategoryMenu.jsx:72-75 | the sent orders are 1..n, strictly increasing, and every pair is accepted by the order route's binding check |
| CategoryMenu.RenumberedLastOrder | app/components/Layout/CategoryMenu.jsx:72-80 | with distinct ids the order route gives each category the order of its position in the sent list |
| CategoryMenu.Menu.constructor | app/components/Layout/CategoryMenu.jsx:28-38 | the menu starts with no drag and no hover mark |
| CategoryMenu.Menu.DragStart | app/components/Layout/CategoryMenu.jsx:28-32 | a drag records the dragged index and leaves the hover mark |
| CategoryMenu.Menu.DragEnd | app/components/Layout/CategoryMenu.jsx:35-38 | ending a drag clears both indices |
| CategoryMenu.Menu.DragOver | app/components/Layout/CategoryMenu.jsx:41-45 | hovering marks the index unless it is the dragged item itself |
| CategoryMenu.Menu.Drop | app/components/Layout/CategoryMenu.jsx:48-89 | with no drag or a drop on the dragged item only the hover mark is cleared; otherwise the renumbered moved list is sent, the toast reports how the call settled (or the failure of a missing function), and both indices are reset |
| UseSettings.WithViewCountSpec | app/hooks/useSettings.js:45-52 | the view updater keeps the list's length and order and changes only the view count of the tools with that id |
| UseSettings.WithPatchSpec | app/hooks/useSettings.js:76-83 | the edit updater merges the sent fields (name, description, url, logo, category id; a text may be sent as null) into the tools with that id; unsent fields and other tools are unchanged, and an empty patch changes nothing |
| UseSettings.WithoutSpec | app/hooks/useSettings.js:106-109 | deleting keeps the other tools in order, each as often as before, and removes every tool with that id; with no such tool the list is unchanged |
| UseSettings.SettingsHook.constructor | app/hooks/useSettings.js:4-6 | no settings, loading, no error |
| UseSettings.SettingsHook.Load | app/hooks/useSettings.js:8-28 | loading ends in every case: a parsed body becomes the settings, a response that is not ok sets the fixed error, a rejection sets its message |
| UseSettings.SettingsHook.IncrementViewCount | app/hooks/useSettings.js:31-56 | a parsed answer sets the view count of that tool in the list; any failure is swallowed and changes nothing |
| UseSettings.SettingsHook.UpdateTool | app/hooks/useSettings.js:59-90 | success merges the patch into the list and returns the answer; a failure leaves the list and rethrows its error |
| UseSettings.SettingsHook.DeleteTool | app/hooks/useSettings.js:93-116 | success drops the tool from the list and returns the answer; a failure leaves the list and rethrows its error |
| AnalyzeData.TagUnionMembers | scripts/analyze-data.js:27-32 | a tag is in the set exactly when some tool whose `tags` is an array lists it |
| AnalyzeData.FilterCounts | scripts/analyze-data.js:37-38 | the filtered list holds every tool satisfying the test, only such tools, and as many as the test counts |
| AnalyzeData.OrphansSpec | scripts/analyze-data.js:63-75 | the orphans are exactly the tools whose category id is the id of no category, and there are none exactly when every tool names an existing category |
| AnalyzeData.IndexOf | scripts/analyze-data.js:79 | `indexOf` gives the first position holding the value, or the length when none does |
| AnalyzeData.DuplicatesUpToEmpty | scripts/analyze-data.js:78-79 | no element of the first n ids is reported as a duplicate exactly when those ids are pairwise distinct |
| AnalyzeData.DuplicatesEmpty | scripts/analyze-data.js:78-94 | the duplicate list of the tool ids or the category ids is empty exactly when the ids are pairwise distinct |
| AnalyzeData.ToolIdsUpTo | scripts/analyze-data.js:78 | the tool ids, one per tool, in order |
| AnalyzeData.CategoryIdList | scripts/analyze-data.js:87 | the category ids, one per category, in order |
| AnalyzeData.VerdictSpec | scripts/analyze-data.js:63-141 | the script reaches the end exactly when no tool is orphaned, neither tool ids nor category ids repeat and no entry lacks a required field; the record estimate is categories plus tools plus distinct tags plus keywords |
| AnalyzeData.TagSet | scripts/analyze-data.js:27-32 | the loop's set equals the tag union |
| AnalyzeData.CategoryMap | scripts/analyze-data.js:45-53 | the map has exactly the category ids as keys, each counting the tools that name it |
| AnalyzeData.ZeroCounts | scripts/analyze-data.js:45-48 | the first loop leaves exactly the category ids as keys, each at zero |
| AnalyzeData.CountTools | scripts/analyze-data.js:49-53 | the second loop keeps the keys and leaves each one at the number of tools naming it; a tool whose category is not a key changes nothing |
| AnalyzeData.CheckFields | scripts/analyze-data.js:98-128 | the flag is set exactly when some tool lacks a truthy id, name or category id, or some category lacks a truthy id, name or icon |
| AnalyzeData.Analyze | scripts/analyze-data.js:16-145 | the report holds the tag union, the featured and new counts, the per-category counts and the verdict of the checks taken in the script's order |
| SyncViewCountRoute.SyncedToolsSpec | app/api/tools/sync-viewcount/route.ts:28-37 | the list keeps its length and order; a tool whose id is a key of the body takes that value as its view count and keeps every other field, any other tool is unchanged |
| SyncViewCountRoute.UnknownKeysIgnored | app/api/tools/sync-viewcount/route.ts:28-37 | keys of the body that are the id of no tool change neither the list nor the count |
| SyncViewCountRoute.SyncIdempotent | app/api/tools/sync-viewcount/route.ts:28-37 | syncing twice with the same body gives the list of syncing once |
| SyncViewCountRoute.SyncCountSpec | app/api/tools/sync-viewcount/route.ts:25-37 | the count is at most the number of tools, equals it exactly when every tool id is a key, and is zero exactly when none is |
| SyncViewCountRoute.SyncTools | app/api/tools/sync-viewcount/route.ts:25-37 | the loop's list and counter are the synced list and the number of tools whose id is a key |
| SyncViewCountRoute.Post | app/api/tools/sync-viewcount/route.ts:19-50 | an unreadable file gives 500 "同步失败" and writes nothing; otherwise the file is written with the synced tools and the answer reports the count in its message and its field |
| CategoryOrderRoute.OrderSetSpec | app/api/categories/order/route.ts:23-27 | one statement sets the display order of the live categories with that legacy id and leaves deleted ones and every other category as they were |
| CategoryOrderRoute.LastOrder | app/api/categories/order/route.ts:29-33 | a category gets an order exactly when some pair names it, and then the order of the last such pair |
| CategoryOrderRoute.FirstUnbindable | app/api/categories/order/route.ts:29-33 | the first item whose values cannot be bound, every item before it binding; none when all bind |
| CategoryOrderRoute.AppliedCharacterised | app/api/categories/order/route.ts:29-35 | the transaction fails exactly when some item cannot be bound, with that item's error; otherwise each live category takes the order of the last pair naming it and every other category is unchanged |
| CategoryOrderRoute.AppliedFailsFrom | app/api/categories/order/route.ts:29-35 | once a prefix of the items fails the transaction fails the same way, whatever follows: a rolled back transaction leaves nothing of the earlier updates |
| CategoryOrderRoute.ReorderKeepsWellFormed | app/api/categories/order/route.ts:23-35 | reordering keeps the database's invariants |
| CategoryOrderRoute.Put | app/api/categories/order/route.ts:5-50 | a missing, non-array or empty list gives 400 and changes nothing; otherwise the store becomes the transaction's result and the answer says so, or the store is unchanged and the answer is 500 with the error's message |
| SettingsRoute.FirstWithId | app/api/settings/route.ts:51 | `find` gives the first category with that id, every earlier one having another id, or none when no category has it |
| SettingsRoute.CategoryLegacyId | app/api/settings/route.ts:50-53 | the legacy id of the first category with that id, or 0 when there is none |
| SettingsRoute.NonEmpty | app/api/settings/route.ts:35 | `filter(Boolean)` keeps exactly the non-empty parts |
| SettingsRoute.NonEmptyKeepsAll | app/api/settings/route.ts:35 | with no empty part the filter changes nothing |
| SettingsRoute.TagList | app/api/settings/route.ts:35 | the client's tags are non-empty and hold no comma |
| SettingsRoute.TagListOfColumn | app/api/settings/route.ts:35 | splitting the comma-joined tag column gives back the tool's tag names whenever those are non-empty and free of commas |
| SettingsRoute.Formatted | app/api/settings/route.ts:17-42 | the body carries the site config, one entry per live category and one per listed tool, each converted field by field in the listing's order |
| SettingsRoute.ListedToolsResolve | app/api/settings/route.ts:30 | for a tool of the store's own listing the category lookup finds its live category, so the fallback 0 is never used |
| SettingsRoute.DtoDescribesTool | app/api/settings/route.ts:24-36 | a converted tool carries the tool's legacy id, texts, flags, view count, tags and the legacy id of its category |
| SettingsRoute.ResponseDescribesTools | app/api/settings/route.ts:24-42 | every entry of the answer describes the tool of the row at its position |
| SettingsRoute.ListingDescribed | app/api/settings/route.ts:14-42 | given a complete listing, the answer describes only listed tools and every listed tool |
| SettingsRoute.Get | app/api/settings/route.ts:5-47 | the route answers with the settings exactly when the site config row exists (500 otherwise); the categories are the live ones converted in order, and the tools are exactly the listed ones, each described |
| SearchRoute.Checked | app/api/search/route.ts:28-53 | an accepted request has a query and a limit between 1 and 100, which is 20 when no limit was given and the parsed one otherwise; a refusal is a bad request exactly when the query is missing or blank, a validation error otherwise |
| SearchRoute.CheckedOutcomes | app/api/search/route.ts:28-53 | the three refusals in order (missing or blank query; an unparsable or non-positive limit; a limit over 100) each happen exactly under their condition, and the request is accepted exactly when none holds |
| SearchRoute.RefusedBeforeSearch | app/api/search/route.ts:28-53 | a refused request never reaches the database: its answer does not depend on the store, the engine or the clock, and is the error envelope with status 400 for a missing query and 422 for a bad limit |
| SearchRoute.SuccessEnvelope | app/api/search/route.ts:55-66 | a 200 answer comes from an accepted request and carries the query, a total equal to the number of results and at most the limit, the elapsed time in ms, and only listed tools as the store lists them |
| SearchRoute.HitsAnswered | app/api/search/route.ts:55-66 | when the first search succeeds the answer is 200 with the listed hits cut to the limit (20 when none was given) |
| SearchRoute.FtsErrorAnsweredEmpty | lib/db.ts:685-701 | an index error whose message mentions fts5 is answered with an empty success, not an error |
| SearchRoute.OtherErrorClassified | app/api/search/route.ts:23-57 | any other error that is not a busy database goes to the error handler at once, without retry |
| SearchRoute.BusyThroughoutIsInternal | app/api/search/route.ts:23-57 | a database busy on every attempt ends in a 500 INTERNAL_ERROR answer carrying the retry loop's exhaustion message |
| SearchRoute.BusySearchExhausted | lib/db.ts:76-109 | a search busy on every attempt throws, after the allowed number of attempts, the error saying how many were made |
| SearchRoute.RetryResult | lib/db.ts:76-109 | a result of the retry loop is the result of some attempt it made |
| ToolsRoute.TagList | app/api/tools/route.ts:60 | splitting the tag column on commas gives parts that join back to it; a null or empty column gives no tag |
| ToolsRoute.PostRefusals | app/api/tools/route.ts:10-23 | a missing or blank name is refused first, then a missing or falsy category id, both with 400 and without touching the store |
| ToolsRoute.PostUnknownCategory | lib/db.ts:620-625 | a category id that is the legacy id of no live category is answered with 500 and the "分类不存在" message, and the transaction leaves the store unchanged |
| ToolsRoute.PostCreates | app/api/tools/route.ts:25-67 | otherwise exactly one tool is appended, keeping the invariants, with a legacy id above every existing one; the answer carries the trimmed name, the trimmed optional texts (null when absent), the flags, view count 0, the creation time and the category's name |
| ToolsRoute.PostCreatesTags | app/api/tools/route.ts:60 | the answer's tags are the new tool's tag names split back from the joined column, and equal them when the names hold no comma |
| ToolsRoute.PostAttachesRequestedTags | app/api/tools/route.ts:26-35 | the created tool's tags are exactly the ones the request lists, matched to existing tags under NOCASE |
| ErrorHandler.StatusOf | lib/error-handler.ts:51-62 | the six client error types map to a 4xx status and the four server ones to a 5xx status |
| ErrorHandler.CodeInjective | lib/error-handler.ts:32-46 | distinct error types have distinct codes |
| ErrorHandler.StatusSharedOnlyBy500 | lib/error-handler.ts:51-62 | the only two types sharing a status are INTERNAL_ERROR and DATABASE_ERROR, both 500 |
| ErrorHandler.LogPrefix | lib/error-handler.ts:159-166 | the warning prefix exactly for the types with a 4xx status, the error prefix for the rest |
| ErrorHandler.CreateErrorResponse | lib/error-handler.ts:76-99 | the error envelope has the type's status and code, the message of the string or error given, the timestamp, and details exactly when some were given and the environment is development |
| ErrorHandler.CreateSuccessResponse | lib/error-handler.ts:112-130 | the success envelope has status 200, the data when given, and a message exactly when a non-empty one was given |
| ErrorHandler.ParseError | lib/error-handler.ts:174-207 | an error is classified DATABASE_BUSY exactly when the retry loop calls it busy, and carries code and errno details exactly when it is classified as a database error |
| ErrorHandler.ParsedStatus | lib/error-handler.ts:174-207 | the classification's status is 503 exactly for busy errors, at least 500 for any SQLITE_ code, 422 exactly for validation failures that are neither, 504 exactly for timeouts that are none of those; the only client error it yields is VALIDATION_ERROR |
| ErrorHandler.PlainErrorIsInternal | lib/error-handler.ts:174-207 | a plain `Error` whose message mentions neither SQLITE_BUSY, nor the locked database, nor a failed validation is an INTERNAL_ERROR without details |
| ErrorHandler.ExhaustedRetriesAreInternal | lib/error-handler.ts:174-207 | the retry loop's exhaustion error is answered as 500 INTERNAL_ERROR, not as a busy database |
| ErrorHandler.WithErrorHandler | lib/error-handler.ts:222-233 | a handler's answer passes through unchanged; a thrown error becomes the error envelope of its classification |
| ErrorHandler.WrappedErrorResponse | lib/error-handler.ts:222-233 | a thrown error always gives a 4xx or 5xx envelope with its message and its classification's code, with details exactly in development for busy or SQLITE_ errors |
| ErrorHandler.Missing | lib/error-handler.ts:246 | no more keys are missing than are required |
| ErrorHandler.MissingMembers | lib/error-handler.ts:246 | a key is reported missing exactly when it is required and its value is falsy |
| ErrorHandler.MissingInOrder | lib/error-handler.ts:246 | the missing keys are listed in the order of the required list |
| ErrorHandler.MissingCounts | lib/error-handler.ts:246 | each required key whose value is falsy is listed as often as it is required, and no key with a truthy value is listed |
| ErrorHandler.ValidateParams | lib/error-handler.ts:245-251 | validation throws exactly when a key is missing, with the missing keys joined by ", " in the message |
| ErrorHandler.ValidateParamsOk | lib/error-handler.ts:245-251 | validation passes exactly when every required key has a truthy value |
| ErrorHandler.ValidateId | lib/error-handler.ts:264-272 | the id is accepted exactly when `parseInt` of its text gives a positive number, which is returned; otherwise a plain error names the parameter and the value |
| ErrorHandler.ValidateIdNumbers | lib/error-handler.ts:264-272 | a positive number, or its decimal text, is accepted as itself; zero and negative ones are refused |
| ErrorHandler.ValidateIdTrailingText | lib/error-handler.ts:264-272 | a positive decimal followed by text that does not start with a digit is accepted as the number, since `parseInt` stops at the first non-digit |
| DbRetry.Delays | lib/db.ts:64 | the wait before retry k is the base delay times 2^k |
| DbRetry.RetryFrom | lib/db.ts:39-71 | from any attempt the loop makes between one and the remaining number of calls, and anything it ends with is a thrown error |
| DbRetry.RetryAfterBusyPrefix | lib/db.ts:39-71 | busy attempts before k only add their waits and their calls to the run from k |
| DbRetry.RetryCharacterised | lib/db.ts:39-71 | busy on every attempt, the loop throws the "尝试 n 次" error after maxRetries + 1 calls and maxRetries waits; otherwise it ends with the first attempt that is not a busy error, returning its value or rethrowing its error, after one wait per earlier attempt |
| DbRetry.RetryBounds | lib/db.ts:39-71 | at most maxRetries + 1 calls (none for a negative maxRetries), with one wait fewer than calls |
| DbRetry.DelaysPerCall | lib/db.ts:46-67 | every call but the last is followed by one wait |
| DbRetry.ExhaustedErrorNotBusy | lib/db.ts:60 | the exhaustion error is not itself a busy error, so an enclosing retry loop does not retry it |
| DbRetry.WithRetrySync | lib/db.ts:76-109 | the synchronous loop makes the same calls and waits and ends with the same outcome as the asynchronous one |
| Db.TagsColumn | lib/db.ts:416-425 | a tool's tag text is present exactly when it has tags whose comma-joined names are not empty, and is then that joined text |
| Db.RowWith | lib/db.ts:273-292 | the listing row of a tool carries its id and the given tag text |
| Db.ListedIds | lib/db.ts:273-292 | the ids the listing selects are exactly the listed tools (live, in a live category), each once, in id order |
| Db.SelectedRows | lib/db.ts:273-292 | the selected rows are one row per listed tool, with no tag text yet |
| Db.ActiveToolsStatementSpec | lib/db.ts:273-292 | the listing statement returns one row per listed tool, ordered by view count, highest first |
| Db.TagGroupsUpTo | lib/db.ts:273-292 | the tag query gives, for every live tool that has tags, its id and its comma-joined tag names, and nothing else |
| Db.ToolById | lib/db.ts:306-308 | a tool is found by id exactly when it is listed, with its tag text |
| Db.FirstToolWithLegacyId | lib/db.ts:302-304 | the scan finds a live tool with that legacy id (listed when asked), or none exactly when there is no such tool |
| Db.ToolIdByLegacyId | lib/db.ts:432-439 | the id of a live tool with that legacy id, or none exactly when every tool with it is deleted |
| Db.ToolByLegacyId | lib/db.ts:452-454 | the listing row of a listed tool with that legacy id, or none exactly when no listed tool has it |
| Db.ToolIdByLegacyIdUnique | lib/db.ts:432-439 | legacy ids being unique, the lookup returns the one live tool carrying it |
| Db.ToolCountUpTo | lib/db.ts:322-324 | a category's tool count is at most the number of tools counted |
| Db.CategoryRowsUpTo | lib/db.ts:322-324 | every category row is that of a live category with its legacy id, order and number of live tools, and every live category has one |
| Db.ActiveCategoriesSpec | lib/db.ts:529-535 | the categories come ordered by display order, each live with its count of live tools, none live is missing, and each appears once |
| Db.ActiveCategoriesOnce | lib/db.ts:529-535 | no category id appears twice among the listed categories |
| Db.ActiveCategoriesSound | lib/db.ts:529-535 | every returned category is live and carries its legacy id and its count of live tools |
| Db.ActiveCategoriesComplete | lib/db.ts:529-535 | every live category is returned |
| Db.SiteConfigOf | lib/db.ts:540-558 | reading the site config succeeds exactly when its row exists, and gives its name, description and the keywords |
| Db.AllTagRows | lib/db.ts:358-360 | one row per tag, with its id and name |
| Db.AllTagsSpec | lib/db.ts:599-601 | all tags, as a permutation of the tag table, ordered by name |
| Db.ToolTagRows | lib/db.ts:334-340 | every tag row of a tool is a tag attached to it, one per attached name |
| Db.ToolTagsOfSpec | lib/db.ts:563-565 | a tool's tags are ordered by name, are a permutation of the rows its pairs give (as many as its attached names), and a row is among them exactly when it is an existing tag attached to the tool |
| Db.ViewCountIncrementedSpec | lib/db.ts:459-461 | the view count of that live tool grows by one and nothing else changes; a missing or deleted tool leaves the store unchanged |
| Db.SoftDeletedSpec | lib/db.ts:522-524 | the tool is marked deleted and nothing else changes; it no longer matches live lookups and deleting it again changes nothing |
| Db.ViewCountIncrementedWellFormed | lib/db.ts:459-461 | incrementing the view count keeps the schema's constraints |
| Db.SoftDeletedWellFormed | lib/db.ts:522-524 | soft deletion keeps the schema's constraints |
| Db.AssignmentsSpec | lib/db.ts:480-511 | the update assigns exactly the defined fields, each once, in the fixed column order, and assigns nothing exactly when no field is defined |
| Db.AssignmentsExecutePatch | lib/db.ts:513-516 | running the assignments in order sets each defined field and keeps the others |
| Db.ApplyInOrderPatches | lib/db.ts:480-507 | applying the columns one by one in order gives the patched tool |
| Db.AppliedName | lib/db.ts:480-482 | the name column takes the sent name when there is one |
| Db.AppliedDescription | lib/db.ts:484-486 | the description column takes the sent value, text or null, when one was sent |
| Db.AppliedLogo | lib/db.ts:488-490 | the logo column takes the sent value, text or null, when one was sent |
| Db.AppliedUrl | lib/db.ts:492-494 | the url column takes the sent value, text or null, when one was sent |
| Db.AppliedCategoryId | lib/db.ts:496-498 | the category column takes the sent id when one was sent |
| Db.AppliedIsFeatured | lib/db.ts:500-502 | the featured flag takes the sent value when one was sent |
| Db.AppliedIsNew | lib/db.ts:504-506 | the new flag takes the sent value when one was sent |
| Db.AssignAllAppend | lib/db.ts:513-516 | running two lists of assignments is running the first and then the second |
| Db.SlotsHaveColumn | lib/db.ts:480-507 | a column is assigned exactly when it is among those pushed and defined |
| Db.SlotsOrdered | lib/db.ts:480-507 | pushing columns in increasing order lists them in that order |
| Db.SlotsExecute | lib/db.ts:480-507 | executing the pushed assignments updates the defined columns one by one in order |
| Db.ToolUpdatedSpec | lib/db.ts:466-517 | an update fails only with the foreign key error, for a live tool sent a category id that exists nowhere; otherwise only that live tool changes, to the patched tool, and an empty patch or a missing or deleted tool changes nothing |
| Db.ToolUpdatedWellFormed | lib/db.ts:466-517 | a successful update keeps the schema's constraints |
| Db.FindTagFrom | lib/db.ts:342-344 | the scan finds a tag whose name equals the given one ignoring ASCII case, or none exactly when no tag from there on does |
| Db.FindTag | lib/db.ts:342-344 | `getTagByName` finds a tag equal under NOCASE, or none exactly when no tag is |
| Db.TagAttachedSpec | lib/db.ts:570-587 | attaching to an existing tool reuses the tag equal under NOCASE or appends a new one, adds exactly the pair of the tool and that tag (an existing pair is ignored), leaves tools and categories alone and keeps the constraints |
| Db.TagAttachedWellFormed | lib/db.ts:570-587 | attaching a tag keeps the schema's constraints |
| Db.PairRemoved | lib/db.ts:354-356 | deleting a pair keeps exactly the other pairs |
| Db.PairRemovedIndex | lib/db.ts:354-356 | the remaining pairs are the old ones at increasing positions, so they keep their order |
| Db.PairRemovedDistinct | lib/db.ts:354-356 | deleting a pair keeps the pairs distinct |
| Db.TagDissociatedSpec | lib/db.ts:592-594 | removing a tag from a tool drops exactly that pair, changes nothing else and keeps the constraints |
| Db.OrNull | lib/db.ts:633-649 | `value \|\| null`: an absent or empty text is stored as null, any other as itself |
| Db.OrZero | lib/db.ts:633-649 | `value \|\| 0` for a flag: an absent one is stored as 0 |
| Db.FindCategoryFrom | lib/db.ts:620-625 | the scan finds a live category with that legacy id, or none exactly when none from there on is |
| Db.FindActiveCategory | lib/db.ts:620-625 | a live category with that legacy id, or none exactly when there is none |
| Db.MaxLegacyId | lib/db.ts:628-630 | `MAX(legacy_id)` is null exactly when there is no tool, and is otherwise the largest legacy id |
| Db.NextLegacyIdFresh | lib/db.ts:628-630 | the new legacy id is above every existing one: 1 with no tool or a maximum of 0, else the maximum plus one |
| Db.TagsAttached | lib/db.ts:654-658 | attaching tags changes neither tools nor categories (the tags and pairs it adds: Db.TagsAttachedSpec) |
| Db.TagsAttachedGrows | lib/db.ts:654-658 | the tag loop keeps every old tag in its row and every old pair |
| Db.TagsAttachedCovers | lib/db.ts:654-658 | after the loop every requested name is attached to the tool through a tag equal to it under NOCASE |
| Db.TagsAttachedOnly | lib/db.ts:654-658 | every pair after the loop is an old one or a pair of the tool with a tag named like a requested name |
| Db.TagsAttachedSpec | lib/db.ts:654-658 | the tag loop keeps the constraints and the old tags and pairs, attaches every requested name, and adds no other pair |
| Db.TagsAttachedNames | lib/db.ts:654-658 | for a tool without tags and names distinct under NOCASE, the tool ends with one tag per name, in the given order, each equal to its name under NOCASE |
| Db.TagsAttachedToNew | lib/db.ts:654-658 | for a tool without tags, its pairs afterwards are exactly those with a tag named like a requested name (`TagsAsRequested`) |
| Db.ToolCreatedTags | lib/db.ts:653-658 | the created tool had no pair before, and afterwards its tags are exactly the requested ones (`TagsAsRequested`) |
| Db.ToolTagRowsComplete | lib/db.ts:563-565 | every pair of the tool with an existing tag gives a row |
| Db.NoPairsPastEnd | lib/db.ts:633-651 | the id after the last tool row has no pair, so the created tool starts without tags |
| Db.PairsOfNamed | lib/db.ts:575-581 | a tag named like a name that is attached to the tool is the tag the name was attached through, since names are unique under NOCASE |
| Db.ToolInsertedWellFormed | lib/db.ts:633-649 | inserting the row keeps the schema's constraints |
| Db.TagsAttachedWellFormed | lib/db.ts:654-658 | attaching the tags one by one keeps the schema's constraints |
| Db.ToolCreatedSpec | lib/db.ts:606-664 | creation fails, with the "分类不存在" message, exactly when no live category has the legacy id; otherwise exactly one tool is appended with the next id, a fresh legacy id, the sent texts (empty ones null), flags defaulting to 0, view count 0 and the resolved live category, keeping the constraints (the tags attached: Db.ToolCreatedTags) |
| Db.ToolCreatedRow | lib/db.ts:633-658 | the new row is appended after the tools that were there, and attaching its tags keeps the constraints |
| Db.DigitSuffix | lib/db.ts:10 | the digits the pattern's `\d+$` takes: the longest run of digits ending the text |
| Db.ExtractLegacyId | lib/db.ts:9-15 | a text without the pattern is refused with a plain error naming it |
| Db.ExtractLegacyIdSpec | lib/db.ts:9-15 | a legacy id is extracted exactly when the text ends in a dash followed by digits, and is their decimal value |
| Db.ExtractLegacyIdRoundTrip | lib/db.ts:9-15 | an id written as any prefix, a dash, leading zeros and the number gives back the number |
| Db.ParseIntOfDigits | lib/db.ts:14 | `parseInt` of a run of digits is its decimal value |
| Db.DecimalValueZeros | lib/db.ts:14 | leading zeros change nothing |
| Db.ListedHits | lib/db.ts:362-383 | the search keeps only matched rows that are listed tools, each as the listing shows it (order and counts: Db.ListedHitsSpec) |
| Db.ListedHitsSpec | lib/db.ts:362-383 | the hits keep the index's order; each listed tool's row appears as often as the index matched its id, every matched listed tool is present, and no unlisted id appears |
| Db.SearchTools | lib/db.ts:685-701 | a blank query gives no row; an index error mentioning fts5 gives no row, any other is thrown; the rows are at most `limit`, each a listed tool as the listing shows it; for a non-blank query the rows are exactly the listed hits in the index's order, cut to `limit` when it is not negative |
| Db.Store.constructor | lib/db.ts:206-231 | the opened database holds the given state |
| Db.Store.GetActiveTools | lib/db.ts:405-426 | the rows are one per listed tool, each as the listing shows it with its tag text, ordered by view count, highest first |
| Db.TagsMapFrom | lib/db.ts:416-419 | the map built from the tag groups holds every tool of a group, with its joined tag names |
| Db.MergeTags | lib/db.ts:422-425 | each selected row takes its tag text from the map, or null |
| Db.TagText | lib/db.ts:424 | `tagsMap.get(id) \|\| null`: the map's text when present and non-empty |
| Db.MergedRowsSpec | lib/db.ts:405-426 | merging the tags into the statement's rows gives the listing: one row per listed tool, ordered by view count |
| Db.Store.IncrementViewCount | lib/db.ts:459-461 | the new state is the old one with that live tool's view count incremented |
| Db.Store.SoftDeleteTool | lib/db.ts:522-524 | the new state is the old one with that tool soft-deleted |
| Db.Store.UpdateTool | lib/db.ts:466-517 | no statement runs for an empty patch; otherwise the statement assigns the defined fields in order with their values and then the id, and the store becomes the updated state, or stays as it was with the foreign key error |
| Db.Store.RunUpdate | lib/db.ts:513-516 | the UPDATE of a non-empty patch leaves the store as the updated state, or unchanged with the foreign key error, and touches no deleted or missing tool |
| Db.SetList | lib/db.ts:480-507 | the fields and values pushed are the column texts and values of the defined fields, in the fixed order |
| Db.PushDefined | lib/db.ts:480-507 | one push appends the column's text and value exactly when the field is defined |
| Db.Store.AddTagToTool | lib/db.ts:570-587 | the store becomes the state with the tag attached, or stays as it was with the error (the transaction rolls back the tag insert) |
| Db.Store.RemoveTagFromTool | lib/db.ts:592-594 | the store becomes the state without that pair |
| Db.Store.CreateTool | lib/db.ts:606-664 | the store becomes the created state and the id pair is returned, or the store is unchanged and the error is returned |
| Db.Store.AttachTags | lib/db.ts:653-658 | attaching the names one by one in list order leaves the store as the state with all of them attached to the new tool |
| Migration.KeywordsInserted | scripts/migrate.js:90-94 | `INSERT OR IGNORE` of the keywords adds at most one row per keyword |
| Migration.KeywordsInsertedMembers | scripts/migrate.js:90-94 | afterwards the keyword table holds exactly the old keywords and the source's |
| Migration.KeywordsInsertedDistinct | scripts/migrate.js:90-94 | the keyword table stays free of duplicates |
| Migration.FirstCategoryId | scripts/migrate.js:159 | the subquery finds the first category with that legacy id, or none exactly when no category has it |
| Migration.CategoryRows | scripts/migrate.js:123-129 | one category row per source category from the given index on |
| Migration.CategoryRowsAt | scripts/migrate.js:124-126 | the k-th row carries the extracted legacy id, the name, the icon and the position as display order |
| Migration.CategoriesFromSpec | scripts/migrate.js:123-131 | a category transaction that succeeds has parsed every id, appended exactly one row per source category in order, and counted each |
| Migration.CategoriesFromSucceeds | scripts/migrate.js:123-131 | the transaction succeeds when every id parses and the legacy ids are distinct among themselves and from the rows already there |
| Migration.CategoryStepWellFormed | scripts/migrate.js:124-127 | inserting one category keeps the schema's constraints |
| Migration.CategoriesFromWellFormed | scripts/migrate.js:123-131 | the category transaction keeps the schema's constraints whether or not it fails |
| Migration.FirstToolId | scripts/migrate.js:165 | the subquery finds the first tool with that legacy id, or none exactly when no tool has it |
| Migration.Flag | scripts/migrate.js:183-184 | `v ? 1 : 0` is 1 exactly for a truthy value and 0 otherwise |
| Migration.ToolsRunAppend | scripts/migrate.js:169-204 | migrating a + b is migrating a and then, unless it failed, b from where a left off |
| Migration.BatchedSequential | scripts/migrate.js:206-212 | running in batches of 100 fails exactly when running all tools in one go fails, and otherwise gives the same database and counts |
| Migration.CommittedCount | scripts/migrate.js:206-212 | the number of tools in the batches committed before a failure is at most the number of tools |
| Migration.CommittedWholeBatches | scripts/migrate.js:206-212 | after a failure the committed tools are a whole number of batches and not all tools |
| Migration.BatchedCommitsPrefix | scripts/migrate.js:206-212 | after a failure the database holds exactly the clean migration of the committed prefix: the failing batch is rolled back, the earlier ones stay |
| Migration.RunAfterCleanRun | scripts/migrate.js:169-204 | after a clean run of a, running a + b continues from a's database and counts |
| Migration.TagStepAttaches | scripts/migrate.js:192-200 | a tag step that succeeds found the tool and attached the tag to it, added one pair, and counted the new tags and the pair |
| Migration.TagsFromSpec | scripts/migrate.js:191-202 | the tag loop leaves tools, categories and site data alone, adds one pair per name and counts the inserted tags and the pairs |
| Migration.ToolRows | scripts/migrate.js:169-204 | one tool row per source tool |
| Migration.ToolRowsAt | scripts/migrate.js:176-187 | the k-th row is the conversion of the k-th source tool |
| Migration.ToolStepSpec | scripts/migrate.js:170-202 | a tool step that succeeds parsed both ids, appended the converted row and changed neither categories nor site data, adding one pair per tag and updating the counts |
| Migration.ToolsRunRows | scripts/migrate.js:169-204 | a transaction that succeeds parsed every id and appended exactly the converted rows, in order |
| Migration.ToolsRunCounts | scripts/migrate.js:169-204 | a transaction that succeeds counted every tool and every tag occurrence as a pair, and every inserted tag |
| Migration.TagsOfNewTool | scripts/migrate.js:199 | for a tool that was just inserted the pair's tool subquery is never null |
| Migration.TagForWellFormed | scripts/migrate.js:193 | `INSERT OR IGNORE` of a tag keeps the schema's constraints |
| Migration.TagStepWellFormed | scripts/migrate.js:192-200 | one tag step keeps the schema's constraints |
| Migration.TagsFromWellFormed | scripts/migrate.js:191-202 | the tag loop keeps the schema's constraints |
| Migration.ToolInsertWellFormed | scripts/migrate.js:176-187 | inserting a tool with a new legacy id keeps the schema's constraints |
| Migration.ToolStepWellFormed | scripts/migrate.js:170-202 | one tool step keeps the schema's constraints |
| Migration.ToolsRunWellFormed | scripts/migrate.js:169-204 | a tool transaction keeps the schema's constraints |
| Migration.BatchedWellFormed | scripts/migrate.js:206-212 | the batched migration keeps the schema's constraints |
| Migration.TagStepSucceeds | scripts/migrate.js:192-200 | with tag names distinct ignoring case, each tag step of a new tool succeeds |
| Migration.TagsFromSucceeds | scripts/migrate.js:191-202 | with tag names distinct ignoring case, the tag loop of a new tool succeeds |
| Migration.PairsNamedByAttach | scripts/migrate.js:199 | attaching the next name keeps the pairs of earlier names and adds the pair of this one |
| Migration.ToolStepSucceeds | scripts/migrate.js:170-202 | a tool with parsable ids, a new legacy id and tags distinct ignoring case is migrated without error |
| Migration.ToolsRunSucceeds | scripts/migrate.js:169-204 | a transaction succeeds when every id parses, the legacy ids are new and distinct, and every tool's tags are distinct ignoring case |
| Migration.CountWhere | scripts/migrate.js:232-253 | a count is at most the number of rows and zero exactly when no row matches |
| Migration.Checks | scripts/migrate.js:232-253 | the four checks: live categories, live tools, tools with a null category id or one outside the category table, pairs naming a missing tool |
| Migration.ChecksAsWritten | scripts/migrate.js:232-253 | the four checks as written, where the reference check uses `NOT IN` alone |
| Migration.UnresolvedToolPassesAsWritten | scripts/migrate.js:243-246 | with a category in the table, a tool with a null category id passes the reference check as written, but the corrected check counts it and verification fails |
| Migration.WellFormedPassesReferenceChecks | scripts/migrate.js:243-252 | a database keeping the constraints passes the pair check, passes the reference check exactly when every tool has a category, and, holding a category, passes both checks as written |
| Migration.UnresolvedCategoryPassesCheck | scripts/migrate.js:245 | as written, `NOT IN` does not count a tool whose category id is null when the category table is not empty |
| Migration.CountWhereAll | scripts/migrate.js:232-242 | when every row matches the count is the number of rows |
| Migration.MigratableDataMigrates | scripts/migrate.js:109-212 | migrating clean data into empty tables succeeds, keeps the constraints and gives exactly the converted categories and tools |
| Migration.MigratedRowsPassChecks | scripts/migrate.js:229-265 | with the corrected check, on the migrated rows the count checks and the pair check pass, and the foreign key check, and so verification, passes exactly when every tool's category slug names a source category |
| Migration.MigratedRowCounts | scripts/migrate.js:232-242 | the migrated rows have as many live categories and tools as the source |
| Migration.MigratedRowReferences | scripts/migrate.js:243-252 | no pair names a missing tool, and the foreign key check passes exactly when every tool's category slug names a source category |
| Migration.ToolResolves | scripts/migrate.js:157-160 | a migrated tool row has a category exactly when its category slug names a source category |
| Migration.MigratedRowsAsWritten | scripts/migrate.js:243-246 | on the migrated rows the reference check as written passes exactly when there is a category or no tool, whatever the tools' category slugs |
| Migration.CategoryRowsLive | scripts/migrate.js:119-126 | all migrated categories are live |
| Migration.ToolRowsLive | scripts/migrate.js:156-187 | all migrated tools are live |
| Migration.MigrationOfMigratableData | scripts/migrate.js:109-265 | for clean data and empty tables both migrations succeed, and verification with the corrected check passes exactly when every tool's category slug names a source category |
| Migration.DatabaseMigration.constructor | scripts/migrate.js:14-23 | the migration starts from the given database and data with all counts zero and an empty log |
| Migration.DatabaseMigration.MigrateSiteConfig | scripts/migrate.js:72-106 | the site row takes the source's name and description, the keywords are inserted ignoring duplicates, and the log records completion with the keyword count |
| Migration.DatabaseMigration.MigrateCategories | scripts/migrate.js:109-143 | the categories transaction either commits its rows and counts, logged as completed with the category count, or rolls back, logged as failed with the error's message |
| Migration.DatabaseMigration.RunBatch | scripts/migrate.js:169-204 | one batch is one transaction: its database, counts and error are those of migrating the batch, whose failure undoes the whole batch |
| Migration.DatabaseMigration.MigrateToolsAndTags | scripts/migrate.js:146-226 | the database, counts and error are those of the batched migration, and the log records completion with the tool count or the failure with its message |
| Migration.DatabaseMigration.RunBatches | scripts/migrate.js:207-212 | running the tools 100 at a time, each slice in its own transaction, leaves the database and counts as the batched migration of the whole list, stopping at the first batch that throws, and keeps the log |
| Migration.DatabaseMigration.Verify | scripts/migrate.js:229-268 | verification with the corrected checks (`Migration.Checks`, whose reference check also counts a null category id) throws "数据验证失败！" exactly when some check's count differs from its expected value |
| Migration.DatabaseMigration.Run | scripts/migrate.js:310-338 | the stages run in order up to the first failure, which exits with code 1; the database is closed exactly when all stages ran; for clean data in empty tables the run, verifying with the corrected check, completes exactly when every tool's category slug names a source category (the script as written completes whenever there is a category or no tool: `Migration.MigratedRowsAsWritten`) |
| SearchIndex.CloseFrom | scripts/add-fts-index.js:52 | the lazy `[\s\S]*?` stops at the first `*/` from the given position, or finds none when there is none |
| SearchIndex.StripBlockComments | scripts/add-fts-index.js:52 | removing comment blocks never lengthens the text |
| SearchIndex.StripNoOpener | scripts/add-fts-index.js:52 | a text with no `/*` is unchanged |
| SearchIndex.StripRemovesComment | scripts/add-fts-index.js:52 | a comment block ending at its first `*/` is removed, with the text before it kept |
| SearchIndex.StripPlainPrefix | scripts/add-fts-index.js:52 | text before the first `/*` is kept as it is |
| SearchIndex.StripLeadingComment | scripts/add-fts-index.js:52 | a leading comment block disappears, up to its first `*/` |
| SearchIndex.CloseFromFirst | scripts/add-fts-index.js:52 | the match closes at the first `*/` after the opener |
| SearchIndex.KeptLines | scripts/add-fts-index.js:53-55 | the kept lines are lines of the text, none starting with `--` after trimming |
| SearchIndex.KeptLinesSpec | scripts/add-fts-index.js:53-55 | the kept lines keep their order, and every line not starting with `--` after trimming is kept as often as it occurs, the others never |
| SearchIndex.KeptLinesComplete | scripts/add-fts-index.js:54 | every line that is not a comment line is kept |
| SearchIndex.KeptLinesAll | scripts/add-fts-index.js:54 | with no comment line, every line is kept |
| SearchIndex.CleanSqlHasNoCommentLine | scripts/add-fts-index.js:51-55 | the cleaned text has no `--` comment line |
| SearchIndex.KeptHaveNoNewline | scripts/add-fts-index.js:53-55 | kept lines hold no line break |
| SearchIndex.CleanSqlKeepsPlainText | scripts/add-fts-index.js:51-55 | a text without comments is unchanged by the cleaning |
| SearchIndex.Derived | scripts/add-fts-index.js:81-98 | a tool's index row has its name, its description or '' and, with no tags, '' as tags |
| SearchIndex.ActiveIds | scripts/add-fts-index.js:97 | the ids of the tools that are not deleted |
| SearchIndex.SyncedRows | scripts/add-fts-index.js:81-99 | the initial sync writes exactly one derived row per tool that is not deleted |
| SearchIndex.InitialSyncSpec | scripts/add-fts-index.js:81-99 | `INSERT OR REPLACE` over an existing table leaves it in sync exactly when it held rows only for tools that are not deleted; over an empty table it always does |
| SearchIndex.SyncedCountsAgree | scripts/add-fts-index.js:244-250 | an index in sync has as many rows as there are tools that are not deleted |
| SearchIndex.StaleRowNotSynced | scripts/add-fts-index.js:81-99 | a row left for a deleted tool keeps the index out of sync |
| SearchIndex.PairChangeTransfer | scripts/add-fts-index.js:171-222 | a pair trigger re-deriving the row of its tool keeps the index in sync when only that tool's row changed |
| SearchIndex.SyncedTransfer | scripts/add-fts-index.js:106-222 | an index in sync stays in sync when one tool changes and its row alone is re-derived or dropped |
| SearchIndex.DerivedFrame | scripts/add-fts-index.js:81-98 | a row depends only on the tool, its category and its tag names |
| SearchIndex.ViewCountKeepsSynced | scripts/add-fts-index.js:133-158 | after a view count increment the update trigger keeps the index in sync |
| SearchIndex.SoftDeleteKeepsSynced | scripts/add-fts-index.js:160-170 | after a soft delete the delete trigger keeps the index in sync and removes the tool's row |
| SearchIndex.ToolUpdateKeepsSynced | scripts/add-fts-index.js:133-170 | after an edit of a live tool the update and delete triggers keep the index in sync |
| Db.TagNamesTagsGrow | scripts/add-fts-index.js:88-91 | a new tag no pair names changes no tool's tag names |
| Db.TagNamesAppendOther | scripts/add-fts-index.js:171-196 | a pair for another tool changes no tool's tag names but its own |
| SearchIndex.TagNamesRemovedOther | scripts/add-fts-index.js:197-222 | removing another tool's pair changes no tool's tag names but its own |
| SearchIndex.PairRemovedAbsent | lib/db.ts:354-356 | deleting a pair that is not there changes nothing |
| SearchIndex.TagAttachKeepsSynced | scripts/add-fts-index.js:171-196 | attaching a tag, with the tag insert trigger, keeps the index in sync |
| SearchIndex.TagForKeepsNames | scripts/add-fts-index.js:171-196 | finding or inserting a tag changes no tool's tag names |
| SearchIndex.PairAddedKeepsSynced | scripts/add-fts-index.js:171-196 | a new pair re-derives the row of its tool and keeps the index in sync |
| SearchIndex.TagDissociateKeepsSynced | scripts/add-fts-index.js:197-222 | removing a tag from a tool, with the tag delete trigger, keeps the index in sync |
| SearchIndex.TagsAttachKeepSynced | scripts/add-fts-index.js:171-196 | attaching the tags of a new tool one by one keeps the index in sync |
| SearchIndex.ToolCreateKeepsSynced | scripts/add-fts-index.js:106-196 | creating a tool keeps the index in sync through the insert and tag triggers; a refused creation fires none |
| SearchIndex.InsertAndTagsKeepSynced | scripts/add-fts-index.js:106-196 | the insert, then the tags attached in turn, keep the index in sync |
| SearchIndex.ToolInsertKeepsSynced | scripts/add-fts-index.js:107-132 | the insert trigger adds the new tool's row and leaves the others in sync |
| SearchIndex.CreationThrown | scripts/add-fts-index.js:71-77 | a creation error is swallowed exactly when its message says 'already exists'; any other is thrown as it is |
| SearchIndex.Succeeded | scripts/add-fts-index.js:225-238 | the number of creations that did not throw is at most the number of triggers |
| SearchIndex.CreationLoopSpec | scripts/add-fts-index.js:225-238 | the trigger loop throws exactly when a creation fails for another reason than 'already exists', and then throws the first such error; otherwise it counts the creations that did not throw and installs those triggers, installing nothing else |
| SearchIndex.CreationLoopThrows | scripts/add-fts-index.js:225-238 | the loop's error is the first creation error that is not 'already exists', and none exactly when there is no such error |
| SearchIndex.CreationLoopInstalls | scripts/add-fts-index.js:225-238 | without an error the count is the creations that did not throw and each such trigger is installed; only listed or earlier triggers are installed |
| SearchIndex.CreationLoopThrownSticks | scripts/add-fts-index.js:225-238 | once the loop has thrown, the later triggers change nothing |
| SearchIndex.SetupFails | scripts/add-fts-index.js:43-238 | the script fails exactly when the table or some trigger cannot be created for another reason than 'already exists' |
| SearchIndex.SetupSyncs | scripts/add-fts-index.js:79-254 | from an index holding no row for a deleted tool, a script that does not throw leaves it in sync and reports matching counts |
| SearchIndex.SetupReportsStaleRow | scripts/add-fts-index.js:244-254 | a row left for a deleted tool makes the counts differ, which the script only reports |
| SearchIndex.SetupTriggers | scripts/add-fts-index.js:225-239 | the reported trigger count is the creations that did not throw; when none failed it is five and every trigger is installed |
| SearchIndex.AllSucceeded | scripts/add-fts-index.js:225-238 | with no creation error every creation counts |
| SearchIndex.FtsIndex.constructor | scripts/add-fts-index.js:36-41 | the index starts with the given rows and triggers |
| SearchIndex.FtsIndex.Sync | scripts/add-fts-index.js:81-99 | the initial sync replaces or adds the derived row of every tool that is not deleted and keeps the triggers |
| SearchIndex.FtsIndex.InstallTriggers | scripts/add-fts-index.js:225-238 | the loop's count, installed triggers and error are those of the trigger creation loop, and the rows are untouched |
| SearchIndex.FtsIndex.CountCheck | scripts/add-fts-index.js:244-250 | the counts agree exactly when the index has one row per tool that is not deleted |
| SearchIndex.FtsIndex.AddFtsIndex | scripts/add-fts-index.js:43-254 | the report, rows and triggers are those the script's steps give in order, a thrown error ending it |
| SearchIndex.FtsIndex.OnToolInserted | scripts/add-fts-index.js:107-132 | inserting a live tool adds its derived row when the insert trigger is installed |
| SearchIndex.FtsIndex.OnToolUpdated | scripts/add-fts-index.js:133-170 | updating a tool re-derives its row when it is live, or drops it when it is deleted, with the corresponding trigger installed |
| SearchIndex.FtsIndex.OnPairChanged | scripts/add-fts-index.js:171-222 | a pair change re-derives the row of its tool when a tag trigger is installed |
| Text.TrimStart | app/api/search/route.ts:29 | removes exactly the leading white space |
| Text.TrimEnd | app/api/search/route.ts:29 | removes exactly the trailing white space |
| Text.TrimEmptyIffBlank | app/api/search/route.ts:29 | `trim()` gives '' exactly when every character is white space |
| Text.TrimIdempotent | app/components/Content/AddToolCard.jsx:78 | trimming an already trimmed text changes nothing |
| Text.Lower | app/hooks/useSearch.js:10-14 | `toLowerCase()` keeps the length and lowers each character |
| Text.Split | app/api/settings/route.ts:35 | `split(',')` gives at least one part and no part holds the separator |
| Text.JoinSplit | app/api/tools/route.ts:60 | joining the parts of a split with its separator gives the text back |
| Text.SplitJoin | app/api/settings/route.ts:35 | splitting the join of parts free of the separator gives the parts back |
| Text.ShowNat | app/api/tools/sync-viewcount/route.ts:44 | a number's decimal text is a non-empty run of digits |
| Text.DecimalValueShowNat | app/api/tools/sync-viewcount/route.ts:44 | reading a number's decimal text gives the number back |
| Text.ParseInt | lib/error-handler.ts:265 | `parseInt(s, 10)` is NaN exactly when no digit follows the leading white space and sign, and is otherwise the signed value of the leading digits |
| Text.ParseIntShowNat | app/api/search/route.ts:39 | `parseInt` of a number's decimal text gives it back |
| Text.ParseIntShowInt | lib/error-handler.ts:265 | `parseInt` of an integer's decimal text, sign included, gives it back |
| Sorting.Sort | app/components/Content/TabWidget.jsx:11-12 | sorting gives a permutation of the list |
| Sorting.SortMembers | app/components/Content/TabWidget.jsx:11-12 | sorting keeps exactly the same elements |
| Sorting.SortSorted | app/components/Content/TabWidget.jsx:11-12 | under a total preorder the sorted list is ordered |
| Sorting.Take | app/components/Content/TabWidget.jsx:13 | `slice(0, n)` is the first n elements, or all when there are fewer |
| Sorting.ViewCountDescIsPreorder | app/components/Content/TabWidget.jsx:12 | `b.viewCount - a.viewCount` orders by a total preorder, highest first |
| Sorting.KeyAscIsPreorder | lib/db.ts:322-324 | `ORDER BY display_order` is a total preorder |
| Sorting.TextAscIsPreorder | lib/db.ts:358-360 | `ORDER BY name` is a total preorder |

## Left out

- The connection singleton, its pragmas, the hot-reload handling on `globalThis` and the process signal handlers (lib/db.ts:115-260): runtime setup with no effect on the data.
- Real time in the retry wrappers: the busy-wait and `setTimeout`. The model returns the delays the wrapper would wait instead of waiting.
- SQLite itself. Full-text tokenisation, `MATCH` syntax and `rank` order belong to the engine, so the search statement's outcome on each call is a parameter. `GROUP_CONCAT` order is taken as link insertion order.
- The views `v_active_tools` and `v_category_stats`, and the schema files. None of their definitions is part of this model. The views follow their described meaning: live tools in live categories, and live categories with their live-tool counts.
- Nested transaction savepoints inside `createTool`. The whole creation is one atomic step that either commits or leaves the store unchanged.
- Unicode. `trim`, `toLowerCase`, `length` and `slice` work on the ASCII characters of a string, and a character is one unit of length.
- Integers. Lengths, counters and ids are unbounded integers. `parseInt` reads base-10 digit prefixes only, with no `0x` prefix and no precision limit. Non-integer numbers (`1.5`, exponents) are not modelled as ids or counts.
- Console output, timestamps and durations: the analysis report text, the migration report, and the index script's benchmark step. Each is I/O or floating-point formatting. The only console line modelled is the error handler's log prefix.
- Files and the process. Reading and deleting the JSON settings file and `JSON.parse` are left out. The settings file read and written by the view-count sync is a parameter. `process.exit` becomes the run's exit code.
- The index script's `migration_log` step after the count check, and its benchmark queries. Both are reporting only: they leave the index and the tables unchanged.
- `cleanedSql` in the index script is computed but never used by the script. It is modelled with its own properties, apart from the rest of the script.
- Requests and responses. `request.json()` failures before validation, non-string request fields, and the `Cache-Control` header of the search route are left out. Each route starts from the parsed body, whose fields are strings, numbers or absent.
- `updated_at` columns and any default timestamps set by the schema.
- The lodash debounce in `useSearch`. The filter is modelled on the keyword the hook holds, not on the timing of keystrokes.
- `fetch` in the hooks and components. What each request settled to (resolved, not ok, or rejected) is a parameter. React rendering, memoisation and state batching are left out; setters are assignments.
- The settings context passes `updateCategoryOrder` and `addTool` to the components, but `useSettings` defines neither. `CategoryMenu.Menu.Drop` therefore takes the call's outcome as a parameter, including the case where no function exists. `AddToolCard`'s later `addTool` call after a successful save is not modelled.
- The client reads the created tool from `data.data`, while the tools route answers with `tool`. Each side is modelled as written, and this boundary between them is not.
- TabWidget sorts a spread copy. Dafny sequences are values, so the model cannot express "the caller's array is not reordered" except as the input being an unchanged value.
- Prototype keys of a plain JavaScript object (`constructor`, `toString`) in the sync request: the view-count map holds only the keys sent, and tool ids are matched against them as strings.
- The logged text of the view-count request's swallowed error. As in the hook, a failed request leaves the state unchanged and raises nothing.
- UseSettings.SettingsHook.IncrementViewCount, UseSettings.SettingsHook.UpdateTool and UseSettings.SettingsHook.DeleteTool require loaded settings. An updater run while the settings are still null is not modelled, since the hook's updaters would throw on `prev.tools`.
- CategoryMenu.Menu.Drop requires the dragged index to be inside the current list. Drag indices that have gone stale because the category list changed between drag start and drop are not modelled.
- The migration `Run` closing details (`generateReport`, the console summary). Stage order, the exit code and the close are modelled.
- `tools.category_id` is taken as nullable. The schema files are not part of this model, and the migration leaves the column NULL when a tool's category slug names no category.
- Db.ToolPatch: a `null` sent for the name is not modelled, since refusing it is the schema's NOT NULL constraint; `null` for description, logo and url is modelled.
- Migration.DatabaseMigration.Verify and Migration.DatabaseMigration.Run verify with the corrected `Migration.Checks`, not with scripts/migrate.js:245 as written. A tool whose category slug names no category makes them fail where the script passes; the script's own check is `Migration.ChecksAsWritten` (see "## Findings").
- The tool card's click handler (app/components/Content/ToolCard.jsx:18-25): it calls the settings hook's view-count update, which is `UseSettings.SettingsHook.IncrementViewCount`, and opens the link in a new window, which is browser I/O.
- The virtual grid's windowing: app/components/Content/VirtualGrid.jsx renders every row and computes no visible window, so only the row layout and the item list are modelled.
- The LazyImage loader, the layout and DOM-driven components, the theme, the page and provider files, and the diagnostic and config scripts. None of them holds catalogue logic.

## Findings

| source | as written | input that shows it | evidently intended | confidence | as-written member | corrected member |
|---|---|---|---|---|---|---|
| app/hooks/useSearch.js:13 | `tool.description.toLowerCase()` is called for every tool whose name does not match. A tool created without a description has a null one, so the filter throws a TypeError. | keyword `"x"`, and one tool named `"ai"` with a null description and no tags | a null description matches nothing, and the tool is kept only when its name or a tag matches | not executed | UseSearch.FilteredAsWrittenThrows | UseSearch.Filtered |
| scripts/migrate.js:245 | The foreign key check counts tools whose `category_id` is `NOT IN` the category ids. The tool insert at scripts/migrate.js:159 stores NULL when the slug names no category, and `NULL NOT IN (...)` is not true, so such a tool is not counted and verification passes. | one category `"a"` and one tool whose category slug is `"b"` | a tool whose category slug names no category makes verification fail; the class `Migration.DatabaseMigration` (`Verify`, `Run`) verifies with this corrected check | not executed | Migration.UnresolvedToolPassesAsWritten | Migration.MigratedRowsPassChecks |
