/** The list logic of the jobs page: fetching pages of jobs into the table
    rows, the next-page cursor, the date-window filter, the selection
    default, replacing the selected job in the rows, and deleting a job.
    The list call, the delete call and the download are inputs: the page
    response (or the error it raised), the outcome of the delete, the
    downloaded bytes. */
module JobsPage {
  import opened Wrappers
  import opened PyValues
  import PyText
  import Seqs
  import Api
  import SessionState

  // ---------------------------------------------------------------------------
  // The status filter
  // ---------------------------------------------------------------------------

  /** `STATUS_TO_API`: the status the list call is asked to filter by, for
      each label of the status selector; "All" asks for none. */
  const StatusToApi: map<string, Option<string>> := map[
    "All" := None,
    "In-progress" := Some("in_progress"),
    "Completed" := Some("completed"),
    "Failed" := Some("failed")
  ]

  /** `STATUS_TO_API.get(label)`: an unknown label also asks for no filter. */
  function StatusFilter(statusLabel: string): (r: Option<string>)
    ensures statusLabel !in StatusToApi ==> r.None?
  {
    if statusLabel in StatusToApi then StatusToApi[statusLabel] else None
  }

  /** The number of jobs asked for per page. */
  const PageSize: int := 50

  /** `_fetch_jobs`' list call: `limit=50, order="desc"`, the cursor when
      not resetting, and the status of the selected label. */
  function FetchParams(reset: bool, nextAfter: Value, statusLabel: string): (params: Dict)
    ensures "limit" in params && params["limit"] == Int(PageSize)
    ensures "order" in params && params["order"] == Str("desc")
    ensures reset ==> "after" !in params
  {
    Api.ListVideosParams(PageSize, "desc", if reset then Null else nextAfter, StatusFilter(statusLabel))
  }

  /** The three status labels ask for the API's spelling of their status;
      every other label asks for none. */
  lemma {:induction false} StatusFilterValues(statusLabel: string)
    ensures StatusFilter(statusLabel).Some? <==> statusLabel in {"In-progress", "Completed", "Failed"}
    ensures statusLabel == "In-progress" ==> StatusFilter(statusLabel) == Some("in_progress")
    ensures statusLabel == "Completed" ==> StatusFilter(statusLabel) == Some("completed")
    ensures statusLabel == "Failed" ==> StatusFilter(statusLabel) == Some("failed")
  {
  }

  /** None of the API statuses reads as "all", so the list call passes each
      one on. */
  lemma {:induction false} ApiStatusPassed(status: string)
    requires status in {"in_progress", "completed", "failed"}
    ensures status != "" && PyText.Lower(status) != "all"
  {
    // The three API statuses are longer than "all".
    PyText.LowerAt(status);
    assert |status| > 3;
  }

  /** Only the three status labels put a `status` into the request, and it
      is the status the label maps to; "All" and unknown labels list every
      job. */
  lemma {:induction false} StatusFilterParams(reset: bool, nextAfter: Value, statusLabel: string)
    ensures var params := FetchParams(reset, nextAfter, statusLabel);
      && ("status" in params <==> statusLabel in {"In-progress", "Completed", "Failed"})
      && ("status" in params ==> params["status"] == Str(StatusFilter(statusLabel).value))
  {
    StatusFilterValues(statusLabel);
    var f := StatusFilter(statusLabel);
    if f.Some? {
      ApiStatusPassed(f.value);
    }
  }

  /** A refresh asks for the first page; loading more asks for the page
      after the stored cursor, when there is one. */
  lemma {:induction false} FetchParamsCursor(reset: bool, nextAfter: Value, statusLabel: string)
    ensures var params := FetchParams(reset, nextAfter, statusLabel);
      && (reset ==> "after" !in params)
      && (!reset ==> ("after" in params <==> Truthy(nextAfter)))
      && ("after" in params ==> params["after"] == nextAfter)
  {
  }

  // ---------------------------------------------------------------------------
  // The next cursor
  // ---------------------------------------------------------------------------

  /** The message of the AttributeError raised by `.get` on an item that is
      not a dict (an SDK object or a string). */
  const NoGetMethod: string := "object has no attribute 'get'"

  /** The message of the TypeError raised by indexing a value that is not a
      sequence. */
  const NotSubscriptable: string := "object is not subscriptable"

  /** The message of the KeyError raised by `data[-1]` on a dict, whose keys
      are strings: the missing key, -1. */
  const NoLastKey: string := "-1"

  /** `data[-1].get("id") if has_more and data else None`, where `data` is
      the raw page data, before normalisation. */
  function NextCursor(hasMore: bool, data: Value): (r: Result<Value, string>)
    ensures !hasMore || !Truthy(data) ==> r == Success(Null)
    ensures hasMore && data.List? && data.items != [] ==>
      r == (if data.items[|data.items| - 1].Mapping?
            then Success(Get(data.items[|data.items| - 1].entries, "id"))
            else Failure(NoGetMethod))
    ensures hasMore && data.Str? && data.s != "" ==> r == Failure(NoGetMethod)
    ensures hasMore && data.Mapping? && data.entries != map[] ==> r == Failure(NoLastKey)
    ensures hasMore && Truthy(data) && !data.List? && !data.Str? && !data.Mapping? ==> r == Failure(NotSubscriptable)
  {
    if !hasMore || !Truthy(data) then Success(Null)
    else
      match data
      case List(items) =>
        var last := items[|items| - 1];
        if last.Mapping? then Success(Get(last.entries, "id")) else Failure(NoGetMethod)
      case Str(_) => Failure(NoGetMethod)
      case Mapping(_) => Failure(NoLastKey)
      case _ => Failure(NotSubscriptable)
  }

  /** For a page whose items are all dicts, the jobs page's cursor is the
      cursor `list_videos_page` computes from the normalised items, kept
      only while the API says there are more. */
  lemma {:induction false} CursorAgreesWithListPage(response: Value)
    requires var data := Api.PageData(Api.ToDict(response));
      data.List? && forall k :: 0 <= k < |data.items| ==> data.items[k].Mapping?
    ensures Api.ListVideosPage(response).Success?
    ensures var page := Api.ListVideosPage(response).value;
      NextCursor(page.hasMore, Api.PageData(Api.ToDict(response)))
        == Success(if page.hasMore then page.nextAfter else Null)
  {
    var data := Api.PageData(Api.ToDict(response));
    var page := Api.ListVideosPage(response).value;
    if page.hasMore && data.items != [] {
      var n := |data.items|;
      assert page.items[n - 1] == Api.ToDict(data.items[n - 1]);
    }
  }

  /** No further page means no cursor, whatever the page holds. */
  lemma {:induction false} LastPageHasNoCursor(data: Value)
    ensures NextCursor(false, data) == Success(Null)
    ensures NextCursor(true, List([])) == Success(Null)
  {
  }

  // ---------------------------------------------------------------------------
  // The date-window filter
  // ---------------------------------------------------------------------------

  /** `job.get("created_at") or job.get("created")`. */
  function Timestamp(job: Dict): Value {
    Or(Get(job, "created_at"), Get(job, "created"))
  }

  /** Whether `_apply_date_filter` keeps `job`. `dateOf` is
      `datetime.fromtimestamp(t).date()` as a day number, None where it
      raises; `start` and `end` are the chosen bounds, None when unset. A job
      without a usable timestamp is kept. */
  predicate InWindow(job: Dict, start: Option<int>, end: Option<int>, dateOf: int -> Option<int>)
    ensures start.None? && end.None? ==> InWindow(job, start, end, dateOf)
    ensures !Truthy(Timestamp(job)) || AsInt(Timestamp(job)).None? ==> InWindow(job, start, end, dateOf)
  {
    var ts := Timestamp(job);
    if !Truthy(ts) then true
    else
      match AsInt(ts)
      case None => true
      case Some(t) =>
        match dateOf(t)
        case None => true
        case Some(d) => !(start.Some? && d < start.value) && !(end.Some? && d > end.value)
  }

  /** The test `_apply_date_filter` applies to each job. */
  function WindowTest(start: Option<int>, end: Option<int>, dateOf: int -> Option<int>): Dict -> bool {
    (job: Dict) => InWindow(job, start, end, dateOf)
  }

  /** One pass of `_apply_date_filter`'s loop: a job without a usable
      timestamp or date is kept; a dated job is dropped when it falls before
      the start or after the end. */
  method KeepJob(job: Dict, start: Option<int>, end: Option<int>, dateOf: int -> Option<int>) returns (kept: bool)
    ensures kept == InWindow(job, start, end, dateOf)
  {
    var ts := Timestamp(job);
    if !Truthy(ts) {
      return true;
    }
    var created := AsInt(ts);
    if created.None? {
      return true;
    }
    var day := dateOf(created.value);
    if day.None? {
      return true;
    }
    if start.Some? && day.value < start.value {
      return false;
    }
    if end.Some? && day.value > end.value {
      return false;
    }
    return true;
  }

  /** `_apply_date_filter(items)`: the items unchanged when the filter is off
      or no bound is set, otherwise the items in the window, in order. */
  method ApplyDateFilter(items: seq<Dict>, useDate: bool, start: Option<int>, end: Option<int>, dateOf: int -> Option<int>)
    returns (visible: seq<Dict>)
    ensures !useDate || (start.None? && end.None?) ==> visible == items
    ensures useDate && (start.Some? || end.Some?) ==> visible == Seqs.Filter(items, WindowTest(start, end, dateOf))
  {
    if !useDate {
      return items;
    }
    if start.None? && end.None? {
      return items;
    }
    var keep := WindowTest(start, end, dateOf);
    visible := [];
    var k := 0;
    while k < |items|
      invariant 0 <= k <= |items|
      invariant visible == Seqs.Filter(items[..k], keep)
    {
      var job := items[k];
      Seqs.FilterPrefixStep(items, k, keep);
      k := k + 1;
      var kept := KeepJob(job, start, end, dateOf);
      assert kept == keep(job);
      if kept {
        visible := visible + [job];
      }
    }
    assert items[..|items|] == items;
  }

  /** The filtered jobs keep their order, and a job is kept exactly when it
      lies in the window. */
  lemma {:induction false} DateFilterFacts(items: seq<Dict>, start: Option<int>, end: Option<int>, dateOf: int -> Option<int>, job: Dict)
    ensures var visible := Seqs.Filter(items, WindowTest(start, end, dateOf));
      && Seqs.IsSubseq(visible, items)
      && (job in visible <==> job in items && InWindow(job, start, end, dateOf))
  {
    Seqs.FilterIsSubseq(items, WindowTest(start, end, dateOf));
    Seqs.FilterMembers(items, WindowTest(start, end, dateOf), job);
  }

  /** A job whose timestamp is missing, or does not convert to an int or to
      a date, is always shown. */
  lemma {:induction false} UndatedJobsKept(job: Dict, start: Option<int>, end: Option<int>, dateOf: int -> Option<int>)
    requires !Truthy(Timestamp(job)) || AsInt(Timestamp(job)).None? || dateOf(AsInt(Timestamp(job)).value).None?
    ensures InWindow(job, start, end, dateOf)
  {
  }

  /** A shown job with a date lies within each bound that is set, and a job
      within them is shown. */
  lemma {:induction false} DatedJobsInWindow(job: Dict, start: Option<int>, end: Option<int>, dateOf: int -> Option<int>, t: int, d: int)
    requires Truthy(Timestamp(job)) && AsInt(Timestamp(job)) == Some(t) && dateOf(t) == Some(d)
    ensures InWindow(job, start, end, dateOf) <==>
      (start.None? || start.value <= d) && (end.None? || d <= end.value)
  {
  }

  // ---------------------------------------------------------------------------
  // The selection
  // ---------------------------------------------------------------------------

  /** The "Job ID" column, `job.get("id", "")`, of the jobs whose id is
      truthy: the options of the job selector. */
  function SelectableIds(jobs: seq<Dict>): (ids: seq<Value>)
    ensures |ids| <= |jobs|
  {
    if jobs == [] then []
    else
      var id := GetOr(jobs[0], "id", Str(""));
      (if Truthy(id) then [id] else []) + SelectableIds(jobs[1..])
  }

  /** Every option is a truthy id of a job, and every truthy id is an
      option. */
  lemma {:induction false} SelectableIdsMembers(jobs: seq<Dict>, id: Value)
    ensures id in SelectableIds(jobs) <==> Truthy(id) && exists k :: 0 <= k < |jobs| && Get(jobs[k], "id") == id
  {
    if jobs != [] {
      SelectableIdsMembers(jobs[1..], id);
      if exists k :: 0 <= k < |jobs| && Get(jobs[k], "id") == id {
        var k :| 0 <= k < |jobs| && Get(jobs[k], "id") == id;
        if k > 0 {
          assert Get(jobs[1..][k - 1], "id") == id;
        }
      }
      if exists k :: 0 <= k < |jobs[1..]| && Get(jobs[1..][k], "id") == id {
        var k :| 0 <= k < |jobs[1..]| && Get(jobs[1..][k], "id") == id;
        assert Get(jobs[k + 1], "id") == id;
      }
    }
  }

  /** `ids.index(x)`: the first position of `x`, None where it is absent. */
  function IndexOf(ids: seq<Value>, x: Value): (r: Option<nat>)
    ensures r.Some? ==> r.value < |ids| && ids[r.value] == x && x !in ids[..r.value]
    ensures r.None? ==> x !in ids
  {
    if ids == [] then None
    else if ids[0] == x then Some(0)
    else
      match IndexOf(ids[1..], x)
      case None => None
      case Some(i) =>
        assert ids[..i + 1] == [ids[0]] + ids[1..][..i];
        Some(i + 1)
  }

  /** The index the job selector opens at: the previously selected id when
      it is among the options, otherwise the first option. */
  function SelectionIndex(ids: seq<Value>, selected: Value): (i: nat)
    requires ids != []
    ensures i < |ids|
  {
    var preferred := Or(selected, ids[0]);
    match IndexOf(ids, preferred)
    case Some(i) => i
    case None => 0
  }

  /** A previously selected id that is still an option stays selected. */
  lemma {:induction false} SelectionKeepsPrevious(ids: seq<Value>, selected: Value)
    requires selected in ids
    requires forall k :: 0 <= k < |ids| ==> Truthy(ids[k])
    ensures ids[SelectionIndex(ids, selected)] == selected
  {
    var k :| 0 <= k < |ids| && ids[k] == selected;
    assert Truthy(selected);
  }

  /** Otherwise the selector opens at the first option. */
  lemma {:induction false} SelectionDefault(ids: seq<Value>, selected: Value)
    requires ids != [] && selected !in ids
    ensures SelectionIndex(ids, selected) == 0
  {
  }

  // ---------------------------------------------------------------------------
  // Finding a row by id, and replace-or-insert
  // ---------------------------------------------------------------------------

  /** The first row from `from` on whose `id` equals `id`. */
  function FirstIndexFrom(rows: seq<Dict>, id: Value, from: nat): (r: Option<nat>)
    requires from <= |rows|
    ensures r.Some? ==> from <= r.value < |rows|
    decreases |rows| - from
  {
    if from == |rows| then None
    else if Get(rows[from], "id") == id then Some(from)
    else FirstIndexFrom(rows, id, from + 1)
  }

  /** The first row whose `id` equals `id`, as the loops of the page find it. */
  function FirstIndexWithId(rows: seq<Dict>, id: Value): Option<nat> {
    FirstIndexFrom(rows, id, 0)
  }

  /** The search from `from` finds the first matching row at or after `from`. */
  lemma {:induction false} FirstIndexFromFacts(rows: seq<Dict>, id: Value, from: nat)
    requires from <= |rows|
    ensures var r := FirstIndexFrom(rows, id, from);
      && (r.Some? ==> Get(rows[r.value], "id") == id && forall j :: from <= j < r.value ==> Get(rows[j], "id") != id)
      && (r.None? ==> forall j :: from <= j < |rows| ==> Get(rows[j], "id") != id)
    decreases |rows| - from
  {
    if from < |rows| && Get(rows[from], "id") != id {
      FirstIndexFromFacts(rows, id, from + 1);
    }
  }

  /** `for idx, existing in enumerate(rows): if existing.get("id") == id:
      ... break`: the index of the first row with the id. */
  method FindRow(rows: seq<Dict>, id: Value) returns (found: Option<nat>)
    ensures found == FirstIndexWithId(rows, id)
  {
    var idx := 0;
    while idx < |rows|
      invariant 0 <= idx <= |rows|
      invariant FirstIndexFrom(rows, id, idx) == FirstIndexWithId(rows, id)
    {
      if Get(rows[idx], "id") == id {
        return Some(idx);
      }
      idx := idx + 1;
    }
    return None;
  }

  /** The rows after `_update_selected_job(job)`: the first row with the
      job's id replaced by the job, or the job inserted at the front. */
  function ReplaceOrInsert(rows: seq<Dict>, job: Dict): (r: seq<Dict>)
    ensures job in r
    ensures |r| == |rows| || |r| == |rows| + 1
  {
    match FirstIndexWithId(rows, Get(job, "id"))
    case Some(i) =>
      assert rows[i := job][i] == job;
      rows[i := job]
    case None => [job] + rows
  }

  /** A row with the job's id is replaced where it stands, the length kept
      and every other row untouched; without one, the job goes in front of
      the unchanged rows. */
  lemma {:induction false} ReplaceOrInsertFacts(rows: seq<Dict>, job: Dict)
    ensures var r := ReplaceOrInsert(rows, job);
      match FirstIndexWithId(rows, Get(job, "id"))
      case Some(i) =>
        && |r| == |rows| && r[i] == job && Get(rows[i], "id") == Get(job, "id")
        && (forall j :: 0 <= j < |rows| && j != i ==> r[j] == rows[j])
        && (forall j :: 0 <= j < i ==> Get(rows[j], "id") != Get(job, "id"))
      case None =>
        && |r| == |rows| + 1 && r[0] == job && r[1..] == rows
        && (forall j :: 0 <= j < |rows| ==> Get(rows[j], "id") != Get(job, "id"))
  {
    FirstIndexFromFacts(rows, Get(job, "id"), 0);
    var r := ReplaceOrInsert(rows, job);
    if FirstIndexWithId(rows, Get(job, "id")).None? {
      assert r == [job] + rows;
      assert r[1..] == rows;
    }
  }

  /** Updating the selected job twice with the same job is updating it once. */
  lemma {:induction false} ReplaceOrInsertIdempotent(rows: seq<Dict>, job: Dict)
    ensures ReplaceOrInsert(ReplaceOrInsert(rows, job), job) == ReplaceOrInsert(rows, job)
  {
    var id := Get(job, "id");
    var r := ReplaceOrInsert(rows, job);
    ReplaceOrInsertFacts(rows, job);
    FirstIndexFromFacts(rows, id, 0);
    match FirstIndexWithId(rows, id)
    case Some(i) =>
      FirstIndexFromFacts(r, id, 0);
      assert r[i := job] == r;
    case None =>
      assert r[0] == job;
      assert FirstIndexWithId(r, id) == Some(0);
      assert r[0 := job] == r;
  }

  // ---------------------------------------------------------------------------
  // Deleting a job
  // ---------------------------------------------------------------------------

  /** The test of the row filter after a delete: `job.get("id") != id`. */
  function NotRowId(id: Value): Dict -> bool {
    (row: Dict) => Get(row, "id") != id
  }

  /** The rows after deleting `id`. */
  function WithoutRow(rows: seq<Dict>, id: Value): (r: seq<Dict>)
    ensures |r| <= |rows|
  {
    Seqs.Filter(rows, NotRowId(id))
  }

  /** No row with the deleted id is left, every other row is kept in order,
      and deleting again changes nothing. */
  lemma {:induction false} WithoutRowFacts(rows: seq<Dict>, id: Value, row: Dict)
    ensures row in WithoutRow(rows, id) <==> row in rows && Get(row, "id") != id
    ensures Seqs.IsSubseq(WithoutRow(rows, id), rows)
    ensures WithoutRow(WithoutRow(rows, id), id) == WithoutRow(rows, id)
  {
    Seqs.FilterMembers(rows, NotRowId(id), row);
    Seqs.FilterIsSubseq(rows, NotRowId(id));
    Seqs.FilterIdempotent(rows, NotRowId(id));
  }

  /** A download kept for the "Save MP4" button: the job it belongs to, the
      bytes, and the file name. */
  datatype DownloadPayload = DownloadPayload(id: Value, bytes: seq<Api.Byte>, fileName: string)

  /** The message of the AttributeError raised by `.get` on None. */
  const NoneHasNoGet: string := "'NoneType' object has no attribute 'get'"

  /** `st.session_state.get("jobs_download_payload", {}).get("id") == id`
      as written: the key is always present once the page has set its
      defaults, and holds None until a download, so the default `{}` never
      applies and `.get` is called on None. */
  function PayloadIsForAsWritten(payload: Option<DownloadPayload>, id: Value): (r: Result<bool, string>)
    ensures payload.None? <==> r.Failure?
  {
    match payload
    case None => Failure(NoneHasNoGet)
    case Some(p) => Success(p.id == id)
  }

  /** The check as intended: whether a download of `id` is kept. */
  function PayloadIsFor(payload: Option<DownloadPayload>, id: Value): (r: bool)
    ensures r ==> payload.Some? && payload.value.id == id
  {
    payload.Some? && payload.value.id == id
  }

  /** The two agree wherever the written check does not raise. */
  lemma {:induction false} PayloadCheckAgrees(payload: Option<DownloadPayload>, id: Value)
    requires payload.Some?
    ensures PayloadIsForAsWritten(payload, id) == Success(PayloadIsFor(payload, id))
  {
  }

  /** What the user is told after a delete whose API call succeeded, with
      the check as written: the error of the check when it raises, else
      nothing (the success toast). */
  function DeleteReportAsWritten(payload: Option<DownloadPayload>, id: Value): Option<string> {
    match PayloadIsForAsWritten(payload, id)
    case Failure(msg) => Some(msg)
    case Success(_) => None
  }

  /** With no download made, which is how the page starts, a successful
      delete is reported as an error. */
  lemma {:induction false} DeleteWithoutDownloadReportsError(id: Value)
    ensures DeleteReportAsWritten(None, id) == Some(NoneHasNoGet)
  {
  }

  // ---------------------------------------------------------------------------
  // Fetching a page into the rows
  // ---------------------------------------------------------------------------

  /** The list keys of the page state: the rows shown, the cursor of the next
      page, the last error, whether a fetch has completed, and whether the
      API has more jobs (the session's `jobs_has_more`). */
  datatype Listing = Listing(rows: seq<Dict>, nextAfter: Value, lastError: string, loadedOnce: bool, hasMore: bool)

  /** The jobs of a page, normalised: None when iterating its data raises. */
  function PageJobsOf(page: Dict): Option<seq<Dict>> {
    match Api.Iterate(Api.PageData(page))
    case None => None
    case Some(items) => Some(Api.ToDicts(items))
  }

  /** The jobs of the page a fetch walks through, normalised: None when the
      list call or iterating its data raised before any job was handled. */
  function PageJobs(response: Result<Value, string>): (r: Option<seq<Dict>>)
    ensures response.Failure? ==> r.None?
  {
    match response
    case Failure(_) => None
    case Success(v) => PageJobsOf(Api.ToDict(v))
  }

  /** The end of a fetch, once the page's jobs are in the rows: `has_more`,
      then the cursor, which can raise; only without an error are the error
      cleared and the page marked loaded. */
  function Finished(filled: Listing, page: Dict, data: Value): Listing {
    var hasMore := Truthy(Get(page, "has_more"));
    match NextCursor(hasMore, data)
    case Failure(msg) => filled.(hasMore := hasMore, lastError := msg)
    case Success(cursor) => filled.(hasMore := hasMore, nextAfter := cursor, lastError := "", loadedOnce := true)
  }

  /** The list keys after a fetch whose list call returned `page`. */
  function FetchedPage(before: Listing, reset: bool, page: Dict): (after: Listing)
    ensures !reset ==> |before.rows| <= |after.rows| && after.rows[..|before.rows|] == before.rows
    ensures after.lastError == "" ==> after.loadedOnce
  {
    var data := Api.PageData(page);
    var base := if reset then [] else before.rows;
    match Api.Iterate(data)
    case None => before.(rows := base, lastError := Api.NotIterable)
    case Some(items) => Finished(before.(rows := base + Api.ToDicts(items)), page, data)
  }

  /** The list keys after `_fetch_jobs(reset=reset)` given what the list
      call returned, or the message of what it raised. */
  function Fetched(before: Listing, reset: bool, response: Result<Value, string>): (after: Listing)
    ensures !reset || response.Failure? ==> |before.rows| <= |after.rows| && after.rows[..|before.rows|] == before.rows
    ensures response.Failure? ==> after.rows == before.rows && after.lastError == response.error
  {
    match response
    case Failure(msg) => before.(lastError := msg)
    case Success(v) => FetchedPage(before, reset, Api.ToDict(v))
  }

  /** The rows after a fetch whose page was walked: the page's jobs in page
      order, after the rows kept from before unless the fetch was a reset. */
  lemma {:induction false} FetchedRows(before: Listing, reset: bool, response: Result<Value, string>)
    requires PageJobs(response).Some?
    ensures var after := Fetched(before, reset, response);
      && (reset ==> after.rows == PageJobs(response).value)
      && (!reset ==> after.rows == before.rows + PageJobs(response).value)
      && after.hasMore == Truthy(Get(Api.ToDict(response.value), "has_more"))
  {
  }

  /** A fetch that raised leaves the rows, the cursor and the flags as they
      were (apart from the reset, done before the page is walked), and
      records the error. */
  lemma {:induction false} FetchFailureKeepsCursor(before: Listing, reset: bool, response: Result<Value, string>)
    requires PageJobs(response).None?
    requires response.Failure? ==> response.error != ""
    ensures var after := Fetched(before, reset, response);
      && after.nextAfter == before.nextAfter && after.loadedOnce == before.loadedOnce
      && after.hasMore == before.hasMore && after.lastError != ""
      && (response.Failure? || !reset ==> after.rows == before.rows)
  {
  }

  /** A dict as the page's data is walked through its keys: the fetch's
      jobs are `{"id": key}`, one per key, in the order the keys are taken. */
  lemma {:induction false} DictDataJobs(response: Result<Value, string>, m: map<string, Value>)
    requires response.Success?
    requires Get(Api.ToDict(response.value), "data") == Mapping(m) && m != map[]
    ensures PageJobs(response).Some?
    ensures var keys := PyText.Sorted(m.Keys);
      var jobs := PageJobs(response).value;
      |jobs| == |keys| && forall i :: 0 <= i < |keys| ==> jobs[i] == map["id" := Str(keys[i])]
  {
    assert Api.PageData(Api.ToDict(response.value)) == Mapping(m);
    var keys := PyText.Sorted(m.Keys);
    var data := Api.KeyItems(keys);
    forall i | 0 <= i < |keys| ensures Api.ToDicts(data)[i] == map["id" := Str(keys[i])] {
      Api.ToDictsIndex(data, i);
    }
  }

  /** Those jobs are appended to the rows (and cached and filed). Under
      `has_more` the cursor `data[-1]` then raises KeyError, so the error is
      shown and the cursor and the loaded flag stay as they were; otherwise
      the fetch completes without a cursor. */
  lemma {:induction false} DictDataFetched(before: Listing, reset: bool, response: Result<Value, string>, m: map<string, Value>)
    requires response.Success?
    requires Get(Api.ToDict(response.value), "data") == Mapping(m) && m != map[]
    ensures PageJobs(response).Some?
    ensures var after := Fetched(before, reset, response);
      && after.rows == (if reset then [] else before.rows) + PageJobs(response).value
      && (after.hasMore ==> after.lastError == NoLastKey && after.nextAfter == before.nextAfter
                            && after.loadedOnce == before.loadedOnce)
      && (!after.hasMore ==> after.lastError == "" && after.nextAfter == Null && after.loadedOnce)
  {
    assert Api.PageData(Api.ToDict(response.value)) == Mapping(m);
  }

  /** A page of dicts always completes the fetch: the error is cleared, the
      page is marked loaded, and the cursor is the last job's id while the
      API has more, else None. */
  lemma {:induction false} FetchedCursor(before: Listing, reset: bool, response: Result<Value, string>)
    requires response.Success?
    requires var data := Api.PageData(Api.ToDict(response.value));
      data.List? && forall k :: 0 <= k < |data.items| ==> data.items[k].Mapping?
    ensures var after := Fetched(before, reset, response);
      var jobs := PageJobs(response).value;
      && after.lastError == "" && after.loadedOnce
      && after.nextAfter == (if after.hasMore && jobs != [] then Get(jobs[|jobs| - 1], "id") else Null)
  {
    var data := Api.PageData(Api.ToDict(response.value));
    var jobs := Api.ToDicts(data.items);
    if data.items != [] {
      Api.ToDictsIndex(data.items, |data.items| - 1);
    }
  }

  /** The session's history after a fetch: each job of the page filed in
      turn with source "jobs". */
  function FetchedHistory(history: seq<SessionState.HistoryEntry>, response: Result<Value, string>): seq<SessionState.HistoryEntry> {
    match PageJobs(response)
    case None => history
    case Some(jobs) => SessionState.UpsertAll(history, jobs, Null, "jobs")
  }

  /** The session's job cache after a fetch: each job of the page cached in
      turn. */
  function FetchedCache(cache: map<Value, Dict>, response: Result<Value, string>): map<Value, Dict> {
    match PageJobs(response)
    case None => cache
    case Some(jobs) => SessionState.CacheAll(cache, jobs)
  }

  // ---------------------------------------------------------------------------
  // The page state
  // ---------------------------------------------------------------------------

  /** The detail keys of the page state: the selected job, its media URL
      and bytes, the job awaiting delete confirmation, and the download kept
      for saving. */
  datatype Detail = Detail(job: Option<Dict>, mediaUrl: Option<string>, mediaBytes: Option<seq<Api.Byte>>,
                           pendingDelete: Value, download: Option<DownloadPayload>)

  /** The keys of `st.session_state` the jobs page owns, beside the shared
      session state it updates through the state helpers. */
  class JobsView {
    const session: SessionState.Session
    var rows: seq<Dict>
    var nextAfter: Value
    var lastError: string
    var loadedOnce: bool
    var hasMore: bool
    var selectedJob: Option<Dict>
    var selectedMediaUrl: Option<string>
    var selectedMediaBytes: Option<seq<Api.Byte>>
    var pendingDelete: Value
    var downloadPayload: Option<DownloadPayload>

    /** The list keys, together. */
    function ListState(): Listing
      reads this
    {
      Listing(rows, nextAfter, lastError, loadedOnce, hasMore)
    }

    /** The detail keys, together. */
    function DetailState(): Detail
      reads this
    {
      Detail(selectedJob, selectedMediaUrl, selectedMediaBytes, pendingDelete, downloadPayload)
    }

    /** `_ensure_jobs_defaults()` on a fresh session (and the session's
        `jobs_has_more` default). */
    constructor(session: SessionState.Session)
      ensures this.session == session
      ensures ListState() == Listing([], Null, "", false, false)
      ensures DetailState() == Detail(None, None, None, Null, None)
    {
      this.session := session;
      rows := [];
      nextAfter := Null;
      lastError := "";
      loadedOnce := false;
      hasMore := false;
      selectedJob := None;
      selectedMediaUrl := None;
      selectedMediaBytes := None;
      pendingDelete := Null;
      downloadPayload := None;
    }

    /** `_fetch_jobs(reset=reset)` with the status label selected, given
        what the list call returned (or the message of what it raised).
        Returns the parameters the list call was made with. */
    method FetchJobs(reset: bool, statusLabel: string, response: Result<Value, string>) returns (params: Dict)
      modifies this, session
      ensures params == FetchParams(reset, old(nextAfter), statusLabel)
      ensures ListState() == Fetched(old(ListState()), reset, response)
      ensures DetailState() == old(DetailState())
      ensures session.history == FetchedHistory(old(session.history), response)
      ensures session.jobsCache == FetchedCache(old(session.jobsCache), response)
      ensures !session.busy && session.apiConfig == old(session.apiConfig)
    {
      session.SetBusy(true);
      params := FetchParams(reset, nextAfter, statusLabel);
      if response.Failure? {
        lastError := response.error;
      } else {
        LoadPage(reset, Api.ToDict(response.value));
      }
      session.SetBusy(false);
    }

    /** The body of `_fetch_jobs` once the list call returned `page`. */
    method LoadPage(reset: bool, page: Dict)
      modifies this, session
      ensures ListState() == FetchedPage(old(ListState()), reset, page)
      ensures DetailState() == old(DetailState())
      ensures session.history == (match PageJobsOf(page)
                                  case None => old(session.history)
                                  case Some(jobs) => SessionState.UpsertAll(old(session.history), jobs, Null, "jobs"))
      ensures session.jobsCache == (match PageJobsOf(page)
                                    case None => old(session.jobsCache)
                                    case Some(jobs) => SessionState.CacheAll(old(session.jobsCache), jobs))
      ensures session.busy == old(session.busy) && session.apiConfig == old(session.apiConfig)
    {
      var data := Api.PageData(page);
      if reset {
        rows := [];
      }
      var iterated := Api.Iterate(data);
      if iterated.None? {
        lastError := Api.NotIterable;
      } else {
        AppendJobs(iterated.value);
        FinishPage(page, data);
      }
    }

    /** The statements of `_fetch_jobs` after the loop. */
    method FinishPage(page: Dict, data: Value)
      modifies this`hasMore, this`nextAfter, this`lastError, this`loadedOnce
      ensures ListState() == Finished(old(ListState()), page, data)
    {
      hasMore := Truthy(Get(page, "has_more"));
      var cursor := NextCursor(hasMore, data);
      if cursor.Failure? {
        lastError := cursor.error;
      } else {
        nextAfter := cursor.value;
        lastError := "";
        loadedOnce := true;
      }
    }

    /** The loop of `_fetch_jobs` over the page items: each item normalised,
        appended to the rows, cached and filed in the history. */
    method AppendJobs(items: seq<Value>)
      modifies this, session
      ensures ListState() == old(ListState()).(rows := old(rows) + Api.ToDicts(items))
      ensures DetailState() == old(DetailState())
      ensures session.jobsCache == SessionState.CacheAll(old(session.jobsCache), Api.ToDicts(items))
      ensures session.history == SessionState.UpsertAll(old(session.history), Api.ToDicts(items), Null, "jobs")
      ensures session.apiConfig == old(session.apiConfig) && session.busy == old(session.busy)
    {
      var k := 0;
      var jobs: seq<Dict> := [];
      while k < |items|
        invariant 0 <= k <= |items| && jobs == Api.ToDicts(items[..k])
        invariant rows == old(rows) + jobs
        invariant session.jobsCache == SessionState.CacheAll(old(session.jobsCache), jobs)
        invariant session.history == SessionState.UpsertAll(old(session.history), jobs, Null, "jobs")
        invariant session.apiConfig == old(session.apiConfig) && session.busy == old(session.busy)
        modifies this`rows, session
      {
        var jobDict := Api.ToDict(items[k]);
        assert items[..k + 1][..k] == items[..k];
        var more := jobs + [jobDict];
        assert more[..|jobs|] == jobs && more[|jobs|] == jobDict;
        AppendJob(jobDict);
        jobs := more;
        k := k + 1;
      }
      assert items[..|items|] == items;
    }

    /** One turn of the loop of `_fetch_jobs`: the job appended to the rows,
        cached, and filed in the history with source "jobs". */
    method AppendJob(jobDict: Dict)
      modifies this`rows, session
      ensures rows == old(rows) + [jobDict]
      ensures session.jobsCache == SessionState.Cached(old(session.jobsCache), jobDict)
      ensures session.history == SessionState.UpsertDict(old(session.history), jobDict, Null, "jobs")
      ensures session.apiConfig == old(session.apiConfig) && session.busy == old(session.busy)
    {
      rows := rows + [jobDict];
      session.CacheJob(jobDict);
      session.UpsertVideoHistory(Mapping(jobDict), Null, "jobs");
    }

    /** The lookup of the selected job in the rows: the first row with the
        selected id, when the id is truthy and some row has it. */
    method SelectRow(selectedId: Value)
      modifies this`selectedJob
      ensures selectedJob ==
        if Truthy(selectedId) && FirstIndexWithId(rows, selectedId).Some?
        then Some(rows[FirstIndexWithId(rows, selectedId).value])
        else old(selectedJob)
    {
      if !Truthy(selectedId) {
        return;
      }
      var found := FindRow(rows, selectedId);
      if found.Some? {
        selectedJob := Some(rows[found.value]);
      }
    }

    /** `_update_selected_job(job_dict)`. */
    method UpdateSelectedJob(jobDict: Dict)
      modifies this
      ensures ListState() == old(ListState()).(rows := ReplaceOrInsert(old(rows), jobDict))
      ensures DetailState() == old(DetailState()).(job := Some(jobDict), mediaUrl := Api.ExtractAssetUrl(jobDict), mediaBytes := None)
    {
      selectedJob := Some(jobDict);
      selectedMediaUrl := Api.ExtractAssetUrl(jobDict);
      selectedMediaBytes := None;
      var found := FindRow(rows, Get(jobDict, "id"));
      if found.Some? {
        rows := rows[found.value := jobDict];
      } else {
        rows := [jobDict] + rows;
      }
    }

    /** `_handle_download()`: on success the bytes are kept for the save
        button under the selected id, and shown. Returns the error reported,
        if the download raised. */
    method HandleDownload(selectedId: Value, media: Result<seq<Api.Byte>, string>) returns (error: Option<string>)
      modifies this, session
      ensures ListState() == old(ListState())
      ensures media.Failure? ==> error == Some(media.error) && DetailState() == old(DetailState())
      ensures media.Success? ==>
        && error.None?
        && DetailState() == old(DetailState()).(
             download := Some(DownloadPayload(selectedId, media.value, PyStr(selectedId) + ".mp4")),
             mediaBytes := Some(media.value))
      ensures !session.busy
      ensures session.history == old(session.history) && session.jobsCache == old(session.jobsCache)
      ensures session.apiConfig == old(session.apiConfig)
    {
      session.SetBusy(true);
      if media.Failure? {
        error := Some(media.error);
      } else {
        downloadPayload := Some(DownloadPayload(selectedId, media.value, PyStr(selectedId) + ".mp4"));
        selectedMediaBytes := Some(media.value);
        error := None;
      }
      session.SetBusy(false);
    }

    /** `_handle_delete()`: asks for confirmation of deleting the job. */
    method RequestDelete(selectedId: Value)
      modifies this`pendingDelete
      ensures pendingDelete == selectedId
    {
      pendingDelete := selectedId;
    }

    /** `_execute_delete()` with the payload check as intended, given the
        error the delete call raised, if any. Returns the error reported. */
    method ExecuteDelete(selectedId: Value, deleteError: Option<string>) returns (error: Option<string>)
      modifies this, session
      ensures error == deleteError
      ensures deleteError.Some? ==>
        && ListState() == old(ListState()) && session.history == old(session.history)
        && DetailState() == old(DetailState()).(pendingDelete := Null)
      ensures deleteError.None? ==>
        && ListState() == old(ListState()).(rows := WithoutRow(old(rows), selectedId))
        && session.history == SessionState.WithoutId(old(session.history), selectedId)
        && DetailState() == Detail(None, None, None, Null,
             if PayloadIsFor(old(downloadPayload), selectedId) then None else old(downloadPayload))
      ensures !session.busy
      ensures session.jobsCache == old(session.jobsCache) && session.apiConfig == old(session.apiConfig)
    {
      session.SetBusy(true);
      if deleteError.None? {
        ClearDeleted(selectedId);
      }
      error := deleteError;
      pendingDelete := Null;
      session.SetBusy(false);
    }

    /** The statements of `_execute_delete` after the delete call returned:
        the job leaves the history and the rows, the selection is cleared,
        and a download of the job is dropped. */
    method ClearDeleted(selectedId: Value)
      modifies this, session
      ensures ListState() == old(ListState()).(rows := WithoutRow(old(rows), selectedId))
      ensures session.history == SessionState.WithoutId(old(session.history), selectedId)
      ensures DetailState() == Detail(None, None, None, old(pendingDelete),
                if PayloadIsFor(old(downloadPayload), selectedId) then None else old(downloadPayload))
      ensures session.busy == old(session.busy)
      ensures session.jobsCache == old(session.jobsCache) && session.apiConfig == old(session.apiConfig)
    {
      session.RemoveVideoFromHistory(selectedId);
      rows := WithoutRow(rows, selectedId);
      selectedJob := None;
      selectedMediaUrl := None;
      selectedMediaBytes := None;
      if PayloadIsFor(downloadPayload, selectedId) {
        downloadPayload := None;
      }
    }
  }

  /** After a successful delete neither the rows nor the kept download
      refer to the deleted job. */
  lemma {:induction false} DeleteLeavesNoTrace(rows: seq<Dict>, payload: Option<DownloadPayload>, id: Value)
    ensures forall k :: 0 <= k < |WithoutRow(rows, id)| ==> Get(WithoutRow(rows, id)[k], "id") != id
    ensures var kept := if PayloadIsFor(payload, id) then None else payload;
      kept.None? || kept.value.id != id
  {
    forall k | 0 <= k < |WithoutRow(rows, id)|
      ensures Get(WithoutRow(rows, id)[k], "id") != id
    {
      WithoutRowFacts(rows, id, WithoutRow(rows, id)[k]);
    }
  }
}
