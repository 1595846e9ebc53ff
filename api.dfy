/** The payload helpers of the client layer: normalising SDK responses to
    dicts, extracting ids, progress and media URLs, polling a job to a
    terminal status, building list parameters and reading a download. The
    remote calls themselves are inputs: a response value, a sequence of
    retrieved responses, a sequence of stream reads. */
module Api {
  import opened Wrappers
  import opened PyValues
  import PyText
  import Seqs

  // ---------------------------------------------------------------------------
  // to_dict and safe_get_id
  // ---------------------------------------------------------------------------

  /** `to_dict(obj)`: None becomes `{}`, a mapping is copied, an SDK model
      is dumped to its fields, a bare str/int becomes `{"id": str(obj)}`, and
      anything else is wrapped as `{"value": obj}`. It never raises. */
  function ToDict(v: Value): (d: Dict)
    ensures v == Null ==> d == map[]
    ensures v.Mapping? ==> d == v.entries
    ensures v.Model? ==> d == v.fields
    ensures IsIdScalar(v) ==> d == map["id" := Str(PyStr(v))]
    ensures (v.List? || v.Other?) ==> d == map["value" := v]
  {
    match v
    case Null => map[]
    case Mapping(m) => m
    case Model(f) => f
    case Str(_) => map["id" := Str(PyStr(v))]
    case Int(_) => map["id" := Str(PyStr(v))]
    case Bool(_) => map["id" := Str(PyStr(v))]
    case _ => map["value" := v]
  }

  /** Normalising an already normalised payload changes nothing. */
  lemma {:induction false} ToDictIdempotent(v: Value)
    ensures ToDict(Mapping(ToDict(v))) == ToDict(v)
  {
  }

  /** The tail of `safe_get_id`: the `"id"` of a dict, as a string, when it
      is a str or an int. */
  function IdOf(d: Dict): (r: Option<string>)
    ensures r.Some? <==> "id" in d && IsIdScalar(d["id"])
    ensures r.Some? ==> r.value == PyStr(d["id"])
  {
    var vid := Get(d, "id");
    if IsIdScalar(vid) then Some(PyStr(vid)) else None
  }

  /** `safe_get_id(obj)`: a scalar is its own id, an object's `id`
      attribute is used when it is a str or an int, and otherwise the `"id"`
      of `to_dict(obj)`. */
  function SafeGetId(v: Value): (r: Option<string>)
    ensures v == Null ==> r == None
    ensures IsIdScalar(v) ==> r == Some(PyStr(v))
    ensures (v.List? || v.Other?) ==> r == None
  {
    if v == Null then None
    else if IsIdScalar(v) then Some(PyStr(v))
    else if v.Model? && "id" in v.fields && IsIdScalar(v.fields["id"]) then Some(PyStr(v.fields["id"]))
    else IdOf(ToDict(v))
  }

  /** Whatever the shape, `safe_get_id(obj)` is the id `to_dict(obj)` carries:
      the two normalisations never disagree. */
  lemma {:induction false} SafeGetIdAgreesWithToDict(v: Value)
    ensures SafeGetId(v) == IdOf(ToDict(v))
  {
    match v
    case Str(_) =>
    case Int(_) =>
    case Bool(_) =>
    case _ =>
  }

  // ---------------------------------------------------------------------------
  // get_progress_percent
  // ---------------------------------------------------------------------------

  /** `max(0, min(100, n))`. */
  function Clamp(n: int): (r: int)
    ensures 0 <= r <= 100
    ensures 0 <= n <= 100 ==> r == n
    ensures n < 0 ==> r == 0
    ensures n > 100 ==> r == 100
  {
    if n < 0 then 0 else if n > 100 then 100 else n
  }

  /** The statuses that end a job successfully. */
  const SuccessStatuses: set<string> := {"succeeded", "completed", "complete"}

  /** The statuses that end a job without a video. */
  const FailureStatuses: set<string> := {"failed", "error", "canceled", "cancelled"}

  /** `str(job.get("status", "")).lower()`. */
  function StatusOf(job: Dict): string {
    PyText.Lower(PyStr(GetOr(job, "status", Str(""))))
  }

  /** `get_progress_percent(job)`: a convertible `progress` wins; otherwise a
      convertible `percent_complete`; otherwise the status decides. */
  function ProgressPercent(job: Dict): (r: int)
    ensures 0 <= r <= 100
  {
    var status := StatusOf(job);
    match AsInt(Get(job, "progress"))
    case Some(p) => Clamp(p)
    case None =>
      match AsInt(Get(job, "percent_complete"))
      case Some(alt) => Clamp(alt)
      case None =>
        if status in {"queued", "in_progress"} then 0
        else if status in SuccessStatuses then 100
        else 0
  }

  /** A convertible `progress` decides alone: no other field of the job can
      change the percentage. */
  lemma {:induction false} ProgressFieldWins(job: Dict, k: string, v: Value)
    requires AsInt(Get(job, "progress")).Some?
    requires k != "progress"
    ensures ProgressPercent(job[k := v]) == ProgressPercent(job) == Clamp(AsInt(Get(job, "progress")).value)
  {
    assert Get(job[k := v], "progress") == Get(job, "progress");
  }

  /** `percent_complete` is read only when `progress` is absent or cannot be
      converted, and it is clamped the same way. */
  lemma {:induction false} PercentCompleteFallback(job: Dict)
    requires AsInt(Get(job, "progress")).None?
    requires AsInt(Get(job, "percent_complete")).Some?
    ensures ProgressPercent(job) == Clamp(AsInt(Get(job, "percent_complete")).value)
  {
  }

  /** With neither field usable, a success status in any letter case gives
      100 and every other status, queued and in_progress included, gives 0. */
  lemma {:induction false} StatusFallback(job: Dict)
    requires AsInt(Get(job, "progress")).None?
    requires AsInt(Get(job, "percent_complete")).None?
    ensures ProgressPercent(job) == (if StatusOf(job) in SuccessStatuses then 100 else 0)
  {
  }

  /** A progress sent as a decimal string counts as the integer it spells. */
  lemma {:induction false} ProgressOfDecimalString(job: Dict, n: int)
    requires Get(job, "progress") == Str(PyText.IntToString(n))
    ensures ProgressPercent(job) == Clamp(n)
  {
    AsIntOfDecimal(n);
  }

  // ---------------------------------------------------------------------------
  // poll_until_complete
  // ---------------------------------------------------------------------------

  predicate IsSuccess(job: Dict) {
    StatusOf(job) in SuccessStatuses
  }

  predicate IsFailure(job: Dict) {
    StatusOf(job) in FailureStatuses
  }

  /** A status that ends the polling loop. */
  predicate Terminal(job: Dict) {
    IsSuccess(job) || IsFailure(job)
  }

  /** What one `retrieve` call gives: the response, or the message of the
      exception it raised. */
  type Retrieval = Result<Value, string>

  /** Whether polling stops at a retrieval: it raised, or the job it
      returned, normalised, has a terminal status. */
  predicate Stops(retrieval: Retrieval) {
    retrieval.Failure? || Terminal(ToDict(retrieval.value))
  }

  /** Some retrieval stops the polling loop, so polling ends. */
  predicate PollStops(responses: seq<Retrieval>) {
    exists i :: 0 <= i < |responses| && Stops(responses[i])
  }

  /** The index of the retrieval polling stops at. */
  ghost function FirstStop(responses: seq<Retrieval>): (n: nat)
    requires PollStops(responses)
    ensures n < |responses| && Stops(responses[n])
    ensures forall j :: 0 <= j < n ==> !Stops(responses[j])
  {
    var w :| 0 <= w < |responses| && Stops(responses[w]);
    Seqs.FirstWhere(responses, Stops, 0, w)
  }

  /** A stopping retrieval at or before the first one is the first one. */
  lemma {:induction false} AtFirstStop(responses: seq<Retrieval>, k: nat)
    requires PollStops(responses)
    requires k <= FirstStop(responses)
    requires Stops(responses[k])
    ensures k == FirstStop(responses)
  {
  }

  /** A retrieval that does not stop polling comes before the first one
      that does. */
  lemma {:induction false} BeforeFirstStop(responses: seq<Retrieval>, k: nat)
    requires PollStops(responses)
    requires k <= FirstStop(responses)
    requires !Stops(responses[k])
    ensures k < FirstStop(responses)
  {
  }

  /** What ends polling without a finished job: the `RuntimeError` raised for
      a failed job, with its lower-cased status and the job payload (which
      the message renders as JSON), or the exception a retrieval raised. */
  datatype PollError = JobFailed(status: string, job: Dict) | Raised(message: string)

  /** How polling ends on a terminal response: the job itself for a success
      status, the error for a failure status. */
  function PollResult(job: Dict): Result<Dict, PollError>
    requires Terminal(job)
  {
    if IsSuccess(job) then Success(job) else Failure(JobFailed(StatusOf(job), job))
  }

  /** One pass of the polling loop after a successful retrieval: normalise,
      and decide from the lower-cased status whether polling ends and how. */
  method PollStep(response: Value) returns (job: Dict, outcome: Option<Result<Dict, PollError>>)
    ensures job == ToDict(response)
    ensures outcome.Some? <==> Terminal(job)
    ensures outcome.Some? ==> outcome.value == PollResult(job)
  {
    job := ToDict(response);
    var status := StatusOf(job);
    if status in SuccessStatuses {
      return job, Some(Success(job));
    }
    if status in FailureStatuses {
      return job, Some(Failure(JobFailed(status, job)));
    }
    return job, None;
  }

  /** `[to_dict(x) for x in responses]`. */
  function ToDicts(responses: seq<Value>): (ds: seq<Dict>)
    ensures |ds| == |responses|
  {
    if responses == [] then []
    else ToDicts(responses[..|responses| - 1]) + [ToDict(responses[|responses| - 1])]
  }

  /** The k-th normalised response is the k-th response normalised. */
  lemma {:induction false} ToDictsIndex(responses: seq<Value>, k: nat)
    requires k < |responses|
    ensures ToDicts(responses)[k] == ToDict(responses[k])
  {
    if k < |responses| - 1 {
      ToDictsIndex(responses[..|responses| - 1], k);
    }
  }

  /** The `on_tick` arguments of a run of retrievals: each response that was
      returned, normalised, in order; a raised retrieval calls no `on_tick`. */
  function Ticks(responses: seq<Retrieval>): (ds: seq<Dict>)
    ensures |ds| <= |responses|
  {
    if responses == [] then []
    else
      var last := responses[|responses| - 1];
      Ticks(responses[..|responses| - 1]) + (if last.Success? then [ToDict(last.value)] else [])
  }

  /** One more retrieval adds its tick, when it returned. */
  lemma {:induction false} TicksAt(responses: seq<Retrieval>, k: nat)
    requires k < |responses|
    ensures Ticks(responses[..k + 1]) ==
      Ticks(responses[..k]) + (if responses[k].Success? then [ToDict(responses[k].value)] else [])
  {
    assert responses[..k + 1][..k] == responses[..k];
  }

  /** Before the first stop every retrieval returned, one tick each. */
  lemma {:induction false} TicksBeforeStop(responses: seq<Retrieval>, k: nat)
    requires PollStops(responses) && k <= FirstStop(responses)
    ensures |Ticks(responses[..k])| == k
  {
    if k > 0 {
      TicksBeforeStop(responses, k - 1);
      TicksAt(responses, k - 1);
    }
  }

  /** Before the first stop, the k-th tick is the k-th response,
      normalised. */
  lemma {:induction false} TicksPrefixIndex(responses: seq<Retrieval>, n: nat, k: nat)
    requires PollStops(responses) && n <= FirstStop(responses) && k < n
    ensures responses[k].Success?
    ensures |Ticks(responses[..n])| == n && Ticks(responses[..n])[k] == ToDict(responses[k].value)
  {
    TicksAt(responses, n - 1);
    TicksBeforeStop(responses, n - 1);
    if k < n - 1 {
      TicksPrefixIndex(responses, n - 1, k);
    }
  }

  /** `poll_until_complete`, where `responses[k]` is what the k-th
      `retrieve` returns or the message of what it raised. `ticks` is the
      trace of `on_tick` calls, one per returned retrieval, the terminal one
      included. A raised retrieval ends polling with that exception, after
      the earlier ticks. Sleeping between retrievals is not modelled. */
  method PollUntilComplete(responses: seq<Retrieval>) returns (r: Result<Dict, PollError>, ticks: seq<Dict>)
    requires PollStops(responses)
    ensures ticks == Ticks(responses[..FirstStop(responses) + 1])
    ensures responses[FirstStop(responses)].Failure? ==>
      |ticks| == FirstStop(responses) && r == Failure(Raised(responses[FirstStop(responses)].error))
    ensures responses[FirstStop(responses)].Success? ==>
      && |ticks| == FirstStop(responses) + 1
      && ticks[|ticks| - 1] == ToDict(responses[FirstStop(responses)].value)
      && Terminal(ticks[|ticks| - 1]) && r == PollResult(ticks[|ticks| - 1])
  {
    ghost var n := FirstStop(responses);
    var k := 0;
    ticks := [];
    while true
      invariant k <= n
      invariant |ticks| == k
      invariant ticks == Ticks(responses[..k])
      decreases n - k
    {
      TicksAt(responses, k);
      if responses[k].Failure? {
        AtFirstStop(responses, k);
        return Failure(Raised(responses[k].error)), ticks;
      }
      var job, outcome := PollStep(responses[k].value);
      ticks := ticks + [job];
      if outcome.Some? {
        AtFirstStop(responses, k);
        return outcome.value, ticks;
      }
      BeforeFirstStop(responses, k);
      k := k + 1;
    }
  }

  // ---------------------------------------------------------------------------
  // extract_asset_url
  // ---------------------------------------------------------------------------

  /** The URL check: a string that starts with "http". */
  function HttpUrl(url: Value): (r: Option<string>)
    ensures r.Some? <==> url.Str? && PyText.StartsWith(url.s, "http")
    ensures r.Some? ==> url == Str(r.value)
  {
    if url.Str? && PyText.StartsWith(url.s, "http") then Some(url.s) else None
  }

  /** `v[0].get("url")`, or None where the expression raises: `v` must be a
      non-empty list whose first element is a dict. */
  function FirstItemUrl(v: Value): Value {
    if v.List? && v.items != [] && v.items[0].Mapping? then Get(v.items[0].entries, "url") else Null
  }

  /** `(job.get("assets") or {}).get("video", {}).get("url")`, or None where
      a step has no `.get`. */
  function NestedVideoUrl(job: Dict): Value {
    var assets := Or(Get(job, "assets"), Mapping(map[]));
    if assets.Mapping? then
      var video := GetOr(assets.entries, "video", Mapping(map[]));
      if video.Mapping? then Get(video.entries, "url") else Null
    else Null
  }

  /** The four places a media URL is looked for, in order. */
  function UrlCandidates(job: Dict): (cs: seq<Value>)
    ensures |cs| == 4
  {
    [ FirstItemUrl(GetOr(job, "assets", List([Mapping(map[])])))
    , FirstItemUrl(GetOr(job, "output", List([Mapping(map[])])))
    , Get(job, "download_url")
    , NestedVideoUrl(job) ]
  }

  /** The first candidate that passes the URL check. */
  function FirstHttp(cs: seq<Value>): (r: Option<string>)
    ensures r.Some? ==> exists k :: 0 <= k < |cs| && HttpUrl(cs[k]) == r && forall j :: 0 <= j < k ==> HttpUrl(cs[j]).None?
    ensures r.None? <==> forall k :: 0 <= k < |cs| ==> HttpUrl(cs[k]).None?
  {
    if cs == [] then None
    else if HttpUrl(cs[0]).Some? then HttpUrl(cs[0])
    else
      var r := FirstHttp(cs[1..]);
      assert forall k :: 1 <= k < |cs| ==> cs[k] == cs[1..][k - 1];
      assert r.Some? ==> exists k :: 1 <= k < |cs| && HttpUrl(cs[k]) == r && forall j :: 0 <= j < k ==> HttpUrl(cs[j]).None? by {
        if r.Some? {
          var k :| 0 <= k < |cs| - 1 && HttpUrl(cs[1..][k]) == r && forall j :: 0 <= j < k ==> HttpUrl(cs[1..][j]).None?;
          assert HttpUrl(cs[k + 1]) == r;
        }
      }
      r
  }

  /** `extract_asset_url(job)`: four attempts in order, each skipped when
      its shape does not fit. */
  function ExtractAssetUrl(job: Dict): (r: Option<string>)
    ensures r.Some? ==> PyText.StartsWith(r.value, "http")
  {
    var assetsUrl := FirstItemUrl(GetOr(job, "assets", List([Mapping(map[])])));
    if HttpUrl(assetsUrl).Some? then HttpUrl(assetsUrl)
    else
      var outputUrl := FirstItemUrl(GetOr(job, "output", List([Mapping(map[])])));
      if HttpUrl(outputUrl).Some? then HttpUrl(outputUrl)
      else
        var downloadUrl := Get(job, "download_url");
        if HttpUrl(downloadUrl).Some? then HttpUrl(downloadUrl)
        else HttpUrl(NestedVideoUrl(job))
  }

  /** The chain of attempts returns the first candidate URL that passes the
      check, and None exactly when none does. */
  lemma {:induction false} ExtractAssetUrlIsFirstCandidate(job: Dict)
    ensures ExtractAssetUrl(job) == FirstHttp(UrlCandidates(job))
  {
    var cs := UrlCandidates(job);
    assert cs[3..][1..] == [];
    assert FirstHttp(cs[3..]) == HttpUrl(cs[3]);
    assert cs[2..][1..] == cs[3..];
    assert FirstHttp(cs[2..]) == if HttpUrl(cs[2]).Some? then HttpUrl(cs[2]) else FirstHttp(cs[3..]);
    assert cs[1..][1..] == cs[2..];
    assert FirstHttp(cs[1..]) == if HttpUrl(cs[1]).Some? then HttpUrl(cs[1]) else FirstHttp(cs[2..]);
    assert cs[1..] == cs[0..][1..];
  }

  /** `assets[0].url` wins over every later shape when it is an http URL. */
  lemma {:induction false} AssetsUrlFirst(job: Dict, url: string)
    requires "assets" in job && job["assets"].List? && job["assets"].items != []
    requires job["assets"].items[0] == Mapping(map["url" := Str(url)])
    requires PyText.StartsWith(url, "http")
    ensures ExtractAssetUrl(job) == Some(url)
  {
  }

  /** A `download_url` is used when no earlier shape yields a URL, whatever
      wrong shapes `assets` and `output` have. */
  lemma {:induction false} DownloadUrlFallback(job: Dict, url: string)
    requires !("assets" in job && job["assets"].List?)
    requires !("output" in job && job["output"].List?)
    requires Get(job, "download_url") == Str(url) && PyText.StartsWith(url, "http")
    ensures ExtractAssetUrl(job) == Some(url)
  {
  }

  // ---------------------------------------------------------------------------
  // list_videos_page and list_videos
  // ---------------------------------------------------------------------------

  /** The keys of a dict as the strings iterating it yields. */
  function KeyItems(keys: seq<string>): (items: seq<Value>)
    ensures |items| == |keys|
    ensures forall i :: 0 <= i < |keys| ==> items[i] == Str(keys[i])
  {
    seq(|keys|, i requires 0 <= i < |keys| => Str(keys[i]))
  }

  /** `iter(data)`: a list yields its items and a string its characters, as
      one-character strings; a dict yields its keys, which the model takes in
      sorted order as it does not record insertion order; an SDK model yields
      one `(name, value)` pair per field, of which the model keeps only that
      it is a truthy object. Other values raise TypeError (None here). */
  function Iterate(data: Value): (r: Option<seq<Value>>)
    ensures data.List? ==> r == Some(data.items)
    ensures data.Str? ==> r.Some? && |r.value| == |data.s|
    ensures data.Str? ==> forall i :: 0 <= i < |data.s| ==> r.value[i] == Str([data.s[i]])
    ensures data.Mapping? ==> r == Some(KeyItems(PyText.Sorted(data.entries.Keys)))
    ensures data.Model? ==> r.Some? && |r.value| == |data.fields| && forall x :: x in r.value ==> x == Other(true)
    ensures !(data.List? || data.Str? || data.Mapping? || data.Model?) ==> r.None?
  {
    match data
    case List(items) => Some(items)
    case Str(s) => Some(seq(|s|, i requires 0 <= i < |s| => Str([s[i]])))
    case Mapping(m) => Some(KeyItems(PyText.Sorted(m.Keys)))
    case Model(fields) => Some(seq(|fields|, _ => Other(true)))
    case _ => None
  }

  /** The message of the TypeError raised when `data` is not iterable. */
  const NotIterable: string := "object is not iterable"

  /** `list_videos_page`'s result: `(items, has_more, next_after, raw)`. */
  datatype Page = Page(items: seq<Dict>, hasMore: bool, nextAfter: Value, raw: Dict)

  /** The page's `data` as `page_dict.get("data") or []`. */
  function PageData(pageDict: Dict): Value {
    Or(Get(pageDict, "data"), List([]))
  }

  /** `list_videos_page` after the request: items normalised one by one, the
      `has_more` flag as a bool and the cursor as the last item's id. */
  function ListVideosPage(response: Value): (r: Result<Page, string>)
    ensures r.Failure? <==> Iterate(PageData(ToDict(response))).None?
    ensures r.Success? ==>
      && r.value.raw == ToDict(response)
      && |r.value.items| == |Iterate(PageData(r.value.raw)).value|
      && (forall k :: 0 <= k < |r.value.items| ==> r.value.items[k] == ToDict(Iterate(PageData(r.value.raw)).value[k]))
      && (r.value.hasMore <==> Truthy(Get(r.value.raw, "has_more")))
      && (r.value.items == [] ==> r.value.nextAfter == Null)
      && (r.value.items != [] ==> r.value.nextAfter == Get(r.value.items[|r.value.items| - 1], "id"))
  {
    var pageDict := ToDict(response);
    match Iterate(PageData(pageDict))
    case None => Failure(NotIterable)
    case Some(data) =>
      var items := seq(|data|, i requires 0 <= i < |data| => ToDict(data[i]));
      var hasMore := Truthy(Get(pageDict, "has_more"));
      var nextAfter := if items != [] then Get(items[|items| - 1], "id") else Null;
      Success(Page(items, hasMore, nextAfter, pageDict))
  }

  /** An absent `has_more` means there is no further page, and an empty page
      has no cursor. */
  lemma {:induction false} PageWithoutMore(response: Value)
    requires "has_more" !in ToDict(response)
    requires ListVideosPage(response).Success?
    ensures !ListVideosPage(response).value.hasMore
  {
  }

  /** For a page of dicts, the cursor is the `id` of the last one. */
  lemma {:induction false} PageCursorIsLastId(pageDict: Dict, data: seq<Dict>)
    requires data != [] && Get(pageDict, "data") == List(seq(|data|, i requires 0 <= i < |data| => Mapping(data[i])))
    ensures ListVideosPage(Mapping(pageDict)).Success?
    ensures ListVideosPage(Mapping(pageDict)).value.nextAfter == Get(data[|data| - 1], "id")
  {
  }

  /** A dict as the page's `data` is walked through its keys: the items are
      `{"id": key}`, one per key, in the order the keys are taken. */
  lemma {:induction false} DictDataListsKeys(pageDict: Dict, m: map<string, Value>)
    requires Get(pageDict, "data") == Mapping(m) && m != map[]
    ensures ListVideosPage(Mapping(pageDict)).Success?
    ensures var keys := PyText.Sorted(m.Keys);
      var items := ListVideosPage(Mapping(pageDict)).value.items;
      |items| == |keys| && forall i :: 0 <= i < |keys| ==> items[i] == map["id" := Str(keys[i])]
  {
    assert PageData(pageDict) == Mapping(m);
    var keys := PyText.Sorted(m.Keys);
    var items := ListVideosPage(Mapping(pageDict)).value.items;
    forall i | 0 <= i < |keys| ensures items[i] == map["id" := Str(keys[i])] {
      assert items[i] == ToDict(KeyItems(keys)[i]);
    }
  }

  /** The cursor of such a page is its last key. */
  lemma {:induction false} DictDataCursor(pageDict: Dict, m: map<string, Value>)
    requires Get(pageDict, "data") == Mapping(m) && m != map[]
    ensures ListVideosPage(Mapping(pageDict)).Success?
    ensures var keys := PyText.Sorted(m.Keys);
      keys != [] && ListVideosPage(Mapping(pageDict)).value.nextAfter == Str(keys[|keys| - 1])
  {
    DictDataListsKeys(pageDict, m);
  }

  /** The page `{"data": {"a": 1}, "has_more": False}` lists one job, `a`,
      which is also the cursor. */
  lemma {:induction false} OneKeyPage()
    ensures var page := ListVideosPage(Mapping(map["data" := Mapping(map["a" := Int(1)]), "has_more" := Bool(false)]));
      && page.Success? && page.value.items == [map["id" := Str("a")]]
      && page.value.nextAfter == Str("a") && !page.value.hasMore
  {
    var pageDict := map["data" := Mapping(map["a" := Int(1)]), "has_more" := Bool(false)];
    var m := map["a" := Int(1)];
    var keys := PyText.Sorted(m.Keys);
    assert "a" in keys;
    assert keys == ["a"];
    assert Get(pageDict, "data") == Mapping(m);
    DictDataListsKeys(pageDict, m);
    DictDataCursor(pageDict, m);
  }

  /** The keyword arguments `list_videos` passes to the list call: `after`
      only when it is truthy, `status` only when it is a non-empty string
      other than "all" in any letter case. */
  function ListVideosParams(limit: int, order: string, after: Value, status: Option<string>): (params: Dict)
    ensures params.Keys <= {"limit", "order", "after", "status"}
    ensures "limit" in params && params["limit"] == Int(limit)
    ensures "order" in params && params["order"] == Str(order)
    ensures "after" in params <==> Truthy(after)
    ensures "after" in params ==> params["after"] == after
    ensures "status" in params <==> status.Some? && status.value != "" && PyText.Lower(status.value) != "all"
    ensures "status" in params ==> params["status"] == Str(status.value)
  {
    var base := map["limit" := Int(limit), "order" := Str(order)];
    var withAfter := if Truthy(after) then base["after" := after] else base;
    if status.Some? && status.value != "" && PyText.Lower(status.value) != "all" then
      withAfter["status" := Str(status.value)]
    else
      withAfter
  }

  // ---------------------------------------------------------------------------
  // download_video_to_file
  // ---------------------------------------------------------------------------

  type Byte = bv8

  /** The k-th `resp.read(chunk_size)`; past the given reads the stream is
      exhausted and reads give `b""`. */
  function ReadAt(stream: seq<seq<Byte>>, k: nat): seq<Byte> {
    if k < |stream| then stream[k] else []
  }

  /** The chunks read from the k-th read on, up to the first empty one. */
  function ChunksFrom(stream: seq<seq<Byte>>, k: nat): (cs: seq<seq<Byte>>)
    requires k <= |stream|
    ensures k + |cs| <= |stream|
    ensures forall i :: 0 <= i < |cs| ==> cs[i] != [] && cs[i] == stream[k + i]
    ensures ReadAt(stream, k + |cs|) == []
    decreases |stream| - k
  {
    if ReadAt(stream, k) == [] then []
    else
      var rest := ChunksFrom(stream, k + 1);
      var cs := [stream[k]] + rest;
      assert cs[0] == stream[k] != [];
      assert forall i :: 1 <= i < |cs| ==> cs[i] == rest[i - 1];
      cs
  }

  /** The concatenation `b"".join(cs)`. */
  function Flatten(cs: seq<seq<Byte>>): seq<Byte> {
    if cs == [] then [] else Flatten(cs[..|cs| - 1]) + cs[|cs| - 1]
  }

  /** The whole body: what a single `resp.read()` returns. */
  function Body(stream: seq<seq<Byte>>): seq<Byte> {
    Flatten(ChunksFrom(stream, 0))
  }

  /** One more non-empty read extends the chunks read so far. */
  lemma {:induction false} ChunksStep(stream: seq<seq<Byte>>, written: seq<seq<Byte>>, k: nat)
    requires k <= |stream|
    requires ChunksFrom(stream, 0) == written + ChunksFrom(stream, k)
    requires ReadAt(stream, k) != []
    ensures ChunksFrom(stream, 0) == (written + [stream[k]]) + ChunksFrom(stream, k + 1)
  {
    assert ChunksFrom(stream, k) == [stream[k]] + ChunksFrom(stream, k + 1);
  }

  lemma {:induction false} FlattenSnoc(cs: seq<seq<Byte>>, c: seq<Byte>)
    ensures Flatten(cs + [c]) == Flatten(cs) + c
  {
    assert (cs + [c])[..|cs|] == cs;
  }

  /** `download_video_to_file`: with a writer, every non-empty chunk goes to
      the writer in order until the first empty read, and the chunks are
      accumulated; without one the body is read at once. Both ways the
      returned bytes are the body. */
  method DownloadToFile(stream: seq<seq<Byte>>, hasWriter: bool) returns (content: seq<Byte>, written: seq<seq<Byte>>)
    ensures content == Body(stream)
    ensures hasWriter ==> written == ChunksFrom(stream, 0)
    ensures !hasWriter ==> written == []
    ensures forall i :: 0 <= i < |written| ==> written[i] != []
  {
    if hasWriter {
      content, written := StreamChunks(stream);
    } else {
      content := Body(stream);
      written := [];
    }
  }

  /** The chunked loop of `download_video_to_file`: read chunks until the
      first empty one, handing each to the writer and accumulating it. */
  method StreamChunks(stream: seq<seq<Byte>>) returns (content: seq<Byte>, written: seq<seq<Byte>>)
    ensures written == ChunksFrom(stream, 0)
    ensures content == Flatten(written)
  {
    written := [];
    content := [];
    var k := 0;
    while true
      invariant k <= |stream|
      invariant ChunksFrom(stream, 0) == written + ChunksFrom(stream, k)
      invariant content == Flatten(written)
      decreases |stream| - k
    {
      var chunk := ReadAt(stream, k);
      if chunk == [] {
        break;
      }
      ChunksStep(stream, written, k);
      FlattenSnoc(written, chunk);
      written := written + [chunk];
      content := content + chunk;
      k := k + 1;
    }
    assert written + [] == written;
  }
}
