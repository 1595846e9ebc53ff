# Sora video studio: a Dafny model of its client logic

The application is a small Streamlit front end over the OpenAI Videos API. A
user composes a prompt, submits a generation job and follows it to a
terminal status. They can list past jobs, filter them, open or download one,
and delete one. All of it runs against one per-browser session store.

This project models the logic behind those pages. It does not model the
widgets or the network. It covers:

- **Client helpers** (`lib/api.py`, module `Api`):
  - normalising SDK responses to dicts, and extracting ids, progress and media URLs
  - polling a job until it reaches a terminal status
  - building the list call's parameters
  - reading a download, in chunks or at once
- **Session store** (`lib/state.py`, module `SessionState`):
  - the recent-video history: newest first, one entry per id, at most 20
  - the job cache, the busy flag and the API configuration
  - the label of a history entry
- **Status badge** (`lib/ui.py`, module `Ui`): the badge shown for a job status.
- **Jobs page** (`pages/jobs.py`, module `JobsPage`):
  - fetching pages of jobs into the table, and the next-page cursor
  - the date-window filter and the default selection
  - refreshing the selected job, the download payload, and deleting a job
- **Create page** (`pages/create.py`, module `CreatePage`):
  - input validation and the request payload
  - the submission that files the created job, polls it, and keeps the result

The remote calls are parameters of the operations:

- the create response, or the message of the exception it raised
- the sequence of responses the poll's retrievals return
- the list page
- the outcome of a delete call
- the downloaded bytes
- the chunks of a download stream

A response is a `PyValues.Value`: None, a bool, an int, a str, a list, a
dict, an SDK model object (its dumped fields), or any other object. Python's
truthiness, `dict.get`, `or`, `str()`, ASCII `lower()`, `strip()`,
`split()`/`join()` and `int()` are written out in `py_values.dfy` and
`py_text.dfy`.

The session store is the class `SessionState.Session`. Its methods update
the history, the cache, the busy flag and the configuration in place. Each
page's own keys are fields of a class over that session:
`JobsPage.JobsView` and `CreatePage.CreateView`. Each operation of a page is
a method of that class. Its contract ties the new state to a specification
function of the old state and the inputs. Lemmas then prove what the
application promises about those functions:

- the history keeps the 20 newest jobs, without duplicate ids
- a poll stops at the first terminal status, or at the first retrieval that raises
- every status that ends a poll successfully shows a green badge
- a delete leaves no trace of the job in the table

## Model

| member | source | states |
|---|---|---|
| Api.ToDict | lib/api.py:17-36 | None becomes `{}`; a dict is copied; a model gives its fields; a str or int gives `{"id": str(obj)}`; anything else is wrapped under `"value"` |
| Api.ToDictIdempotent | lib/api.py:17-36 | normalising an already normalised payload changes nothing |
| Api.IdOf | lib/api.py:52-54 | a dict's id is `str(d["id"])` exactly when that key holds a str or an int |
| Api.SafeGetId | lib/api.py:39-54 | None has no id; a scalar is its own id; a list or other object has none |
| Api.SafeGetIdAgreesWithToDict | lib/api.py:39-54 | `safe_get_id(obj)` always equals the id that `to_dict(obj)` carries |
| Api.Clamp | lib/api.py:68 | `max(0, min(100, n))` lies in [0, 100] and keeps values already in range |
| Api.ProgressPercent | lib/api.py:57-85 | the progress is always in [0, 100] |
| Api.ProgressFieldWins | lib/api.py:63-70 | a convertible `progress` decides alone; no other field changes the result |
| Api.PercentCompleteFallback | lib/api.py:72-78 | without a usable `progress`, a convertible `percent_complete` decides |
| Api.StatusFallback | lib/api.py:80-85 | without either field, a success status gives 100 and every other status gives 0 |
| Api.ProgressOfDecimalString | lib/api.py:66-68 | a decimal string `progress` counts as its clamped value |
| Api.FirstStop | lib/api.py:98-108 | the first retrieval that ends the poll, by raising or by a terminal status, with none before it |
| Api.AtFirstStop | lib/api.py:98-108 | a retrieval that ends the poll at or before the first one is the first one |
| Api.BeforeFirstStop | lib/api.py:98-108 | a retrieval that does not end the poll comes before the first one that does |
| Api.PollStep | lib/api.py:100-108 | one pass after a retrieval that returned normalises the response and stops exactly on a success or failure status, with the job or the error |
| Api.ToDicts | lib/api.py:100-101 | normalising a run of responses keeps its length |
| Api.ToDictsIndex | lib/api.py:100-101 | the k-th normalised response is the k-th response normalised |
| Api.Ticks | lib/api.py:99-102 | `on_tick` is called at most once per retrieval |
| Api.TicksAt | lib/api.py:99-102 | a retrieval that returned adds its normalised response to the ticks; one that raised adds nothing |
| Api.TicksBeforeStop | lib/api.py:98-108 | every retrieval before the poll stops gives exactly one tick |
| Api.TicksPrefixIndex | lib/api.py:98-108 | before the poll stops, the k-th tick is the k-th response, normalised |
| Api.PollUntilComplete | lib/api.py:88-108 | `on_tick` sees every returned retrieval up to the one polling stops at, included when it returned; a retrieval that raised ends the poll with its exception after the earlier ticks; otherwise the result is the terminal job, or the error for a failure status |
| Api.HttpUrl | lib/api.py:130-131 | a URL is accepted exactly when it is a str starting with "http" |
| Api.UrlCandidates | lib/api.py:125-148 | there are four places a URL is looked for |
| Api.FirstHttp | lib/api.py:125-148 | the result is the URL of a candidate that passes the check, and no candidate before it passes; None exactly when none does |
| Api.ExtractAssetUrl | lib/api.py:125-148 | a returned URL starts with "http" |
| Api.ExtractAssetUrlIsFirstCandidate | lib/api.py:125-148 | the chain of four attempts returns the first URL that passes, in order |
| Api.AssetsUrlFirst | lib/api.py:128-131 | an http URL in the first asset wins over every other field |
| Api.DownloadUrlFallback | lib/api.py:139-141 | with no assets or output list, an http `download_url` is used |
| Api.KeyItems | lib/api.py:167-168 | iterating a dict yields its keys as strings, one per key, in order |
| Api.Iterate | lib/api.py:167-168 | a list iterates over its items, a str over its characters, a dict over its keys, an SDK model over one pair per field; None, bools, ints and other objects raise |
| Api.ListVideosPage | lib/api.py:151-171 | `data or []` is normalised item by item; `has_more` is its truthiness; the cursor is the last item's id, or None for an empty page; data that cannot be iterated is an error |
| Api.DictDataListsKeys | lib/api.py:166-168 | a dict as the page's data gives one item `{"id": key}` per key |
| Api.DictDataCursor | lib/api.py:170 | the cursor of such a page is its last key |
| Api.OneKeyPage | lib/api.py:166-171 | `{"data": {"a": 1}, "has_more": False}` gives the items `[{"id": "a"}]`, the cursor "a" and no more pages |
| Api.PageWithoutMore | lib/api.py:169 | a page without `has_more` says there is no more |
| Api.PageCursorIsLastId | lib/api.py:170 | a non-empty page of dicts gives its last id as the cursor |
| Api.ListVideosParams | lib/api.py:202-216 | `limit` and `order` are always sent; `after` only when truthy; `status` only when non-empty and not "all" in any case |
| Api.ChunksFrom | lib/api.py:234-238 | the chunks are the stream's reads, in order, up to the first empty read: each is non-empty, and the read after the last one is empty |
| Api.ChunksStep | lib/api.py:234-239 | one more non-empty read extends the chunks read so far |
| Api.FlattenSnoc | lib/api.py:239 | appending a chunk appends its bytes to the content |
| Api.DownloadToFile | lib/api.py:219-241 | with a writer, the writer gets each non-empty chunk in order; both ways the returned bytes are the whole body |
| Api.StreamChunks | lib/api.py:232-240 | the chunked loop hands every chunk to the writer and returns their concatenation |
| SessionState.Snippet | lib/state.py:111-114 | the snippet is at most 80 characters |
| SessionState.SnippetShape | lib/state.py:111-114 | a short snippet is the prompt single-spaced, with all its text; a long one is its first 77 characters and "…" |
| SessionState.MakeEntry | lib/state.py:116-126 | the entry's id is `str(id)` and its prompt is at most 80 characters |
| SessionState.EntryFieldPrecedence | lib/state.py:111-126 | the explicit prompt wins over the job's own; `seconds`, `size` and `updated_at` fall back in the written order |
| SessionState.WithoutId | lib/state.py:128-132 | filtering by id never lengthens the history |
| SessionState.WithoutIdFacts | lib/state.py:137-141 | removal drops exactly the entries with that id, keeps the rest in order, and is idempotent |
| SessionState.UpsertDict | lib/state.py:104-134 | a job without a truthy id is ignored; otherwise its entry is first and the history holds at most 20 |
| SessionState.UpsertTail | lib/state.py:128-134 | behind the new entry come the kept older entries, as many as fit |
| SessionState.UpsertFacts | lib/state.py:128-134 | after an upsert no other entry has the id, and the older entries that stay are from the history, in order |
| SessionState.UpsertPreservesValid | lib/state.py:104-134 | every upsert keeps the history at most 20 entries with distinct ids |
| SessionState.UpsertExistingMovesToFront | lib/state.py:128-134 | re-filing a known id moves its entry to the front without changing the length |
| SessionState.Ids | lib/state.py:128-134 | the ids of a history, one per entry |
| SessionState.JobIds | lib/state.py:117 | the ids a run of jobs is filed under, one per job |
| SessionState.IdsMembers | lib/state.py:128-134 | an id is listed exactly when some entry has it |
| SessionState.IdsTake | lib/state.py:134 | cutting the history cuts its ids the same way |
| SessionState.UpsertFreshId | lib/state.py:128-134 | filing a new id puts it in front of the other ids |
| SessionState.UpsertKeepsNewest | lib/state.py:104-134 | after filing distinct jobs in turn, the history holds the 20 newest, newest first |
| SessionState.JobIdsMembers | lib/state.py:117 | an id no job has is not among the filed ids |
| SessionState.Cached | lib/state.py:87-92 | a job with a truthy id is stored under it; other keys are untouched; a job without one is ignored |
| SessionState.CacheAllKeyed | lib/state.py:87-92 | `cache_job` keeps every cached job stored under its own id |
| SessionState.LastWithId | lib/state.py:87-92 | the last job of a run with a given id |
| SessionState.CacheAllLookup | lib/state.py:87-97 | after a run of `cache_job` calls, `get_cached_job(id)` gives the last job cached under that id, or what was there before |
| SessionState.ConfigUpdated | lib/state.py:69-76 | with no arguments the configuration is copied unchanged |
| SessionState.ConfigUpdatedAt | lib/state.py:69-76 | a key given None is removed, any other given key is set, and the rest are kept |
| SessionState.ConfigUpdatedNone | lib/state.py:70 | before any argument is applied, the copy is the configuration |
| SessionState.ConfigUpdatedStep | lib/state.py:71-75 | applying one more argument pops or sets that key |
| SessionState.ApiConfigOf | lib/state.py:79-84 | the key is the stored `api_key`, or "" when there is none; the base URL is the stored `base_url`, or None when unset |
| SessionState.ConfigRoundTrip | lib/state.py:69-84 | what `update_api_config` sets, `get_api_config` reads back; a cleared key reads as unset |
| SessionState.LabelParts | lib/state.py:144-155 | the label starts with the id, or "unknown" when there is none |
| SessionState.DescribeLabel | lib/state.py:144-156 | with a string or falsy id and prompt, the label is the id or "unknown", then " • " and the size, " • " and `{seconds}s`, " • " and the prompt, each only when truthy |
| SessionState.DescribeAllOrNothing | lib/state.py:144-156 | with all four parts the label joins all four in order; with only an id it is the id alone |
| SessionState.DescribeVideoEntry | lib/state.py:144-156 | a label is produced exactly when its parts are strings |
| SessionState.DescribeStartsWithId | lib/state.py:144-156 | the label fails only on a truthy id or prompt that is not a str; otherwise it starts with the id |
| SessionState.DescribeHistoryEntry | lib/state.py:144-156 | every history entry has a label, and it starts with its id |
| SessionState.Session.constructor | lib/state.py:35-58 | a fresh session has an empty history and cache, is not busy, and reads the key and base URL from the environment |
| SessionState.Session.SetBusy | lib/state.py:61-66 | afterwards `is_busy()` answers the value set; nothing else changes |
| SessionState.Session.IsBusy | lib/state.py:65-66 | the answer is the busy flag |
| SessionState.Session.GetApiConfig | lib/state.py:79-84 | the configuration read is `ApiConfigOf` of the stored one |
| SessionState.Session.GetCachedJob | lib/state.py:95-97 | a job is found exactly when one is cached under the id, and it is the job cached there; in a cache that keeps jobs under their own ids, its id is the one asked for |
| SessionState.Session.UpdateApiConfig | lib/state.py:69-76 | the loop leaves the configuration the arguments applied to the old one |
| SessionState.Session.CacheJob | lib/state.py:87-92 | the cache becomes `Cached` of the old one; nothing else changes |
| SessionState.Session.UpsertVideoHistory | lib/state.py:104-134 | the history becomes the upsert of the normalised job; nothing else changes |
| SessionState.Session.RemoveVideoFromHistory | lib/state.py:137-141 | the history loses exactly the entries with that id |
| Ui.JobStatusBadge | lib/ui.py:23-40 | a falsy status shows "⚪️ Unknown" |
| Ui.BadgeIgnoresCase | lib/ui.py:26-40 | spellings of a known status that differ only in letter case get the same table badge |
| Ui.KeyBadge | lib/ui.py:26-39 | a table key written in lower case gets its table badge |
| Ui.CompletedAliases | lib/ui.py:34-35 | "completed" and "complete", in any case, both show "✅ Completed" |
| Ui.CanceledAliases | lib/ui.py:37-38 | "canceled" and "cancelled", in any case, both show "⚪️ Canceled" |
| Ui.UnknownStatusPassesThrough | lib/ui.py:40 | an unknown status is shown as given after "🔘 ", and never as a table badge |
| Ui.FalsyIsNotSuccess | lib/ui.py:23-40 | a falsy status never reads as a success status |
| Ui.SuccessStatusPresent | lib/api.py:102-104 | a job that ends a poll successfully has a truthy success status |
| Ui.SuccessKeysGreen | lib/ui.py:28-39 | each success status has a green table entry |
| Ui.SuccessBadge | lib/ui.py:23-40 | every job a poll returns as finished shows a green badge |
| JobsPage.StatusFilter | pages/jobs.py:82-87 | an unknown label asks for no status |
| JobsPage.StatusFilterValues | pages/jobs.py:82-87 | the three status labels map to the API's spellings; "All" and unknown labels map to none |
| JobsPage.ApiStatusPassed | lib/api.py:213-214 | none of the API's spellings reads as "all", so each is sent |
| JobsPage.FetchParams | pages/jobs.py:138-146 | `limit` 50 and `order` "desc" are always sent, and a refresh sends no cursor |
| JobsPage.StatusFilterParams | pages/jobs.py:138-146 | the request carries `status` exactly for the three status labels, with the status the label maps to |
| JobsPage.FetchParamsCursor | pages/jobs.py:139-146 | a refresh asks for the first page; loading more sends the stored cursor when it is truthy |
| JobsPage.NextCursor | pages/jobs.py:157 | without more pages, or with empty data, the cursor is None; with more, a list's last item gives its `id` when it is a dict and raises AttributeError otherwise; a str raises AttributeError, a dict KeyError "-1", any other object TypeError |
| JobsPage.CursorAgreesWithListPage | pages/jobs.py:155-157 | for a page of dicts, the page's cursor is the one `list_videos_page` computes |
| JobsPage.LastPageHasNoCursor | pages/jobs.py:157 | the last page, or an empty one, leaves no cursor |
| JobsPage.InWindow | pages/jobs.py:189-203 | without bounds, or without a usable timestamp, a job is in the window |
| JobsPage.KeepJob | pages/jobs.py:189-203 | one loop pass keeps the job exactly when it is in the window |
| JobsPage.ApplyDateFilter | pages/jobs.py:181-204 | with the filter off or no bound set, the items are returned as they are; otherwise the jobs in the window, in order |
| JobsPage.DateFilterFacts | pages/jobs.py:181-204 | the visible jobs are a subsequence of the items, and a job is visible exactly when it is in the window |
| JobsPage.UndatedJobsKept | pages/jobs.py:190-198 | a job without a usable timestamp or date is always kept |
| JobsPage.DatedJobsInWindow | pages/jobs.py:199-203 | a dated job is kept exactly when no set bound excludes its day |
| JobsPage.SelectableIds | pages/jobs.py:227 | there are no more selectable ids than rows |
| JobsPage.SelectableIdsMembers | pages/jobs.py:216-227 | an id is selectable exactly when it is truthy and some job has it |
| JobsPage.IndexOf | pages/jobs.py:233 | `list.index` gives the first position of the id; a missing id is absent |
| JobsPage.SelectionIndex | pages/jobs.py:229-233 | the preselected index is a valid position |
| JobsPage.SelectionKeepsPrevious | pages/jobs.py:229-233 | a previous selection still listed stays selected |
| JobsPage.SelectionDefault | pages/jobs.py:229-233 | without a listed previous selection, the first job is selected |
| JobsPage.FirstIndexFrom | pages/jobs.py:241-244 | the scan returns a position at or after the start |
| JobsPage.FirstIndexFromFacts | pages/jobs.py:241-244 | the scan finds the first row with the id, or reports that none has it |
| JobsPage.ReplaceOrInsert | pages/jobs.py:256-262 | the job is in the rows afterwards, and the rows grow by at most one |
| JobsPage.FindRow | pages/jobs.py:257-260 | the loop finds the first row whose id matches |
| JobsPage.ReplaceOrInsertFacts | pages/jobs.py:256-262 | a row with the id is replaced in place, the others untouched; otherwise the job goes in front |
| JobsPage.ReplaceOrInsertIdempotent | pages/jobs.py:256-262 | refreshing the same job twice gives the rows of refreshing it once |
| JobsPage.WithoutRow | pages/jobs.py:379-381 | removing a job never lengthens the rows |
| JobsPage.WithoutRowFacts | pages/jobs.py:379-381 | the rows keep exactly those with another id, in order, and a second removal changes nothing |
| JobsPage.PayloadIsForAsWritten | pages/jobs.py:385 | the check as written raises exactly when no download was made |
| JobsPage.PayloadIsFor | pages/jobs.py:385-386 | a download is dropped only when it is the deleted job's |
| JobsPage.PayloadCheckAgrees | pages/jobs.py:385 | where the written check does not raise, it agrees with the intended one |
| JobsPage.DeleteWithoutDownloadReportsError | pages/jobs.py:385-390 | a successful delete with no download made reports an AttributeError |
| JobsPage.PageJobs | pages/jobs.py:147-152 | a list call that raised walks no jobs |
| JobsPage.FetchedPage | pages/jobs.py:147-159 | loading more keeps the old rows as a prefix; the error is cleared only on a page marked loaded |
| JobsPage.Fetched | pages/jobs.py:134-163 | loading more keeps the old rows as a prefix; a list call that raised keeps the rows and shows its message |
| JobsPage.FetchedRows | pages/jobs.py:147-156 | a refresh replaces the rows with the page's jobs; loading more appends them; `has_more` is its truthiness |
| JobsPage.FetchFailureKeepsCursor | pages/jobs.py:147-161 | a fetch whose list call or data iteration raised keeps the cursor and the flags, and shows an error |
| JobsPage.DictDataJobs | pages/jobs.py:147-150 | a dict as the page's data is walked as one job `{"id": key}` per key |
| JobsPage.DictDataFetched | pages/jobs.py:147-161 | those jobs are added to the rows; with `has_more`, `data[-1]` then raises KeyError, so the error "-1" is shown and the cursor and loaded flag stay; without it the fetch completes with no cursor |
| JobsPage.FetchedCursor | pages/jobs.py:155-159 | a page of dicts clears the error, marks the list loaded, and sets the cursor to the last job's id when there is more |
| JobsPage.JobsView.constructor | pages/jobs.py:49-68 | the page starts with no rows, cursor, error, selection, pending delete or download |
| JobsPage.JobsView.FetchJobs | pages/jobs.py:134-163 | the request parameters, the list keys, the history and the cache become those of the fetch; the busy flag ends cleared |
| JobsPage.JobsView.LoadPage | pages/jobs.py:147-159 | the body after the list call leaves the state of the fetched page |
| JobsPage.JobsView.FinishPage | pages/jobs.py:155-159 | the flags and the cursor after the loop |
| JobsPage.JobsView.AppendJobs | pages/jobs.py:150-154 | each item is appended, cached and filed with source "jobs", in page order |
| JobsPage.JobsView.AppendJob | pages/jobs.py:151-154 | one item is appended, cached and filed |
| JobsPage.JobsView.SelectRow | pages/jobs.py:238-246 | the first row with the selected id becomes the selected job; otherwise the old one stays |
| JobsPage.JobsView.UpdateSelectedJob | pages/jobs.py:252-262 | the job is selected, its URL extracted, its bytes cleared, and it is replaced or inserted in the rows |
| JobsPage.JobsView.HandleDownload | pages/jobs.py:319-337 | a download keeps the payload `{id, bytes, "<id>.mp4"}` and the bytes; a failure changes nothing but reports |
| JobsPage.JobsView.RequestDelete | pages/jobs.py:339-340 | the job is marked for confirmation |
| JobsPage.JobsView.ExecuteDelete | pages/jobs.py:371-393 | a successful delete removes the job from history and rows, clears the selection, and drops its download; a failed one only clears the pending mark |
| JobsPage.JobsView.ClearDeleted | pages/jobs.py:378-386 | the statements after the delete call |
| JobsPage.DeleteLeavesNoTrace | pages/jobs.py:378-386 | after a delete no row and no kept download has the deleted id |
| CreatePage.ValidateInputs | pages/create.py:72-81 | a failure is one of the three messages |
| CreatePage.ValidateInputsOrder | pages/create.py:72-81 | the inputs pass exactly with a key, a prompt that is not blank, and 2 to 25 seconds; the first failing check names the message |
| CreatePage.DurationBoundaries | pages/create.py:79 | the bounds are inclusive: 2 and 25 pass, 1 and 26 do not |
| CreatePage.SizeFor | pages/create.py:100-101 | a preset label gives its resolution; any other gives "1280x720" |
| CreatePage.SizeIsPreset | pages/create.py:33-39 | the resolution sent is always one of the presets' |
| CreatePage.PayloadFor | pages/create.py:98-111 | the payload has the keys prompt, model, seconds and size, plus input_reference exactly when an image was uploaded |
| CreatePage.PayloadPromptAndModel | pages/create.py:98-104 | the payload carries the stripped prompt and the model |
| CreatePage.PayloadSeconds | pages/create.py:105 | the duration is sent as a decimal string that converts back to it |
| CreatePage.PayloadSize | pages/create.py:100-106 | the size sent is the preset resolution |
| CreatePage.PayloadImage | pages/create.py:109-111 | the reference image is sent exactly when one was uploaded |
| CreatePage.PayloadPromptTrimmed | pages/create.py:98 | the prompt sent has no white space at either end |
| CreatePage.BuildPayload | pages/create.py:102-111 | the payload built step by step is the specified one |
| CreatePage.CreatedId | pages/create.py:122-123 | a truthy id in the created job gives a truthy polled id; a str or int id is polled as its text; any other id as it is |
| CreatePage.TickBar | pages/create.py:136-138 | the bar shows the clamped progress, at least 1, and reads "Finalizing" exactly from 99 on |
| CreatePage.RejectedFilesNothing | pages/create.py:121-173 | a create call that raised or returned no id files nothing, and shows an error |
| CreatePage.FinishedJobFiledFirst | pages/create.py:143-145 | a finished job heads the history with source "complete" and is cached under its id |
| CreatePage.FinishedJobIsGreen | pages/create.py:142-145 | the job a generation finishes with has a success status and a green badge |
| CreatePage.CompletedMedia | pages/create.py:150-169 | the media is shown from its URL when there is one, and otherwise from a successful download |
| CreatePage.PollTraceAgrees | pages/create.py:132-142 | the poll's ticks and result are those read off the responses, a raised retrieval included |
| CreatePage.RaisedPollKeepsTicks | pages/create.py:132-173 | a retrieval that raises shows its message; the jobs retrieved before it stay cached and filed with source "poll", one per retrieval; no job is kept |
| CreatePage.CreateView.constructor | pages/create.py:47-60 | the page starts with no error, job, URL or bytes, and uncelebrated |
| CreatePage.CreateView.SubmitGeneration | pages/create.py:88-176 | invalid inputs only set the message; valid ones send the payload, file, poll and keep the job, and end not busy |
| CreatePage.CreateView.Generate | pages/create.py:118-173 | the created job is filed with source "generate" and polled; a failure becomes the error shown |
| CreatePage.CreateView.FollowJob | pages/create.py:132-173 | every retrieved job is filed; then a finished one is kept, or the error of a failed job or a raising retrieval is shown |
| CreatePage.CreateView.ApplyTicks | pages/create.py:132-135 | each tick caches the job and files it with source "poll", in order |
| CreatePage.CreateView.FinishGeneration | pages/create.py:143-169 | the final job is filed with source "complete" and kept with its media |

## Left out

- Widgets, toasts, spinners, progress placeholders, balloons, page layout and the JSON download button are not modelled.
- Networking and the SDK client are parameters: the create, retrieve, list, delete and download results. `get_openai_client` and `download_video_bytes` are not modelled beyond that.
- `time.sleep` between poll retrievals is not modelled. `poll_until_complete` has no time-out: a job that never reaches a terminal status is polled forever, and the create page stays busy. The model covers only the polls that end. `Api.PollUntilComplete` requires a retrieval that raises, or a terminal response, among the given ones.
- `CreatePage.CreateView.FollowJob` applies the `on_tick` effects after the poll loop returns rather than during it. The poll reads no session state, so the final state is the same.
- Floats are not modelled: a float `progress`, timestamp or duration is treated as an object `int()` rejects.
- `datetime.fromtimestamp(...).date()` is a parameter (`dateOf`).
- `format_ts`, `json.dumps`, pandas and `.env` loading are not modelled. The JSON details in a poll error are a fixed placeholder.
- `create_last_metadata`, the JSON text of the final job kept by `_submit_generation`, is not modelled.
- `str()` of a dict, list or object is the fixed text "<object>".
- `lower()` folds only the ASCII letters. White space is Python's full `isspace` set.
- `PyText.ParseInt`: `int()` of a str accepts only ASCII digits, with sign, surrounding white space and underscores between digits. Other Unicode digits, such as "٣", are rejected where Python accepts them.
- Dict insertion order is not modelled, nor `1 == True` as a key. Iterating a dict takes its keys in sorted order, by code point, rather than in insertion order.
- `Api.Iterate`: a tuple, set or other iterable object is treated as not iterable. Iterating an SDK model yields pairs, which are modelled only as truthy objects.
- `SessionState.Cached` stores a job under a truthy id of any kind. For a list, dict or SDK model id, Python raises TypeError when it stores the job, because the id is unhashable. `SessionState.Session.CacheJob` and the callers inherit this. On the create page the error would be shown (pages/create.py:171-173). On the jobs page the row would already be appended (pages/jobs.py:151-152).
- Exception messages of the page code are representative strings.
- `_handle_open` and `_handle_resume_polling` are not separate members. Each is `CacheJob`, `UpsertVideoHistory` and `UpdateSelectedJob`, with a poll in the second, which are all modelled.
- The cancel button of the delete confirmation is not modelled.
- The snippet of a long prompt is 77 characters and "…", 78 in all, as the code writes it.
- `CreatePage.ValidateInputs` reads the current API configuration. The page reads it once at load, which is the same value within one run.

## Findings

| source | as written | input that shows it | evidently intended | confidence | as-written member | corrected member |
|---|---|---|---|---|---|---|
| pages/jobs.py:385-386 | `st.session_state.get("jobs_download_payload", {}).get("id")`, where the key defaults to None | delete a job when no download was made: the key holds None, `.get` raises AttributeError after the job is deleted, and an error is shown instead of success | drop the download only when it is the deleted job's, and treat no download as nothing to drop | not executed | JobsPage.DeleteWithoutDownloadReportsError | JobsPage.JobsView.ExecuteDelete |
