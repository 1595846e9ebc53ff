/** The session store of the application: the recent-video history, the
    cache of job payloads by id, the busy flag and the API configuration,
    together with the pure helpers that shape history entries and their
    labels. */
module SessionState {
  import opened Wrappers
  import opened PyValues
  import PyText
  import Seqs
  import Api

  /** How many history entries are kept. */
  const MaxHistory: nat := 20

  /** A prompt snippet longer than this is truncated... */
  const SnippetLimit: nat := 80

  /** ...to this many characters followed by an ellipsis. */
  const SnippetKeep: nat := 77

  // ---------------------------------------------------------------------------
  // History entries
  // ---------------------------------------------------------------------------

  /** The prompt shown in the history: whitespace collapsed, and a long one
      cut to 77 characters and "…". */
  function Snippet(text: string): (r: string)
    ensures |r| <= SnippetLimit
  {
    var c := PyText.Collapse(text);
    if |c| > SnippetLimit then c[..SnippetKeep] + "…" else c
  }

  /** A short snippet is the collapsed prompt, single spaced and with every
      non-blank character kept; a long one is its first 77 characters and an
      ellipsis, 78 characters in all. */
  lemma {:induction false} SnippetShape(text: string)
    ensures var c := PyText.Collapse(text);
      && (|c| <= SnippetLimit ==>
            Snippet(text) == c
            && PyText.SingleSpaced(Snippet(text))
            && PyText.NonBlank(Snippet(text)) == PyText.NonBlank(text))
      && (|c| > SnippetLimit ==>
            |Snippet(text)| == SnippetKeep + 1
            && Snippet(text)[..SnippetKeep] == c[..SnippetKeep]
            && Snippet(text)[SnippetKeep] == '…')
  {
    PyText.CollapseSingleSpaced(text);
    PyText.CollapseKeepsText(text);
  }

  /** `prompt or job_dict.get("prompt") or ""`. */
  function PromptText(prompt: Value, job: Dict): Value {
    Or(Or(prompt, Get(job, "prompt")), Str(""))
  }

  /** An entry of the recent-video history. `id` is `str()` of the job's
      id and `prompt` the snippet; the other fields are copied from the job
      as they are. */
  datatype HistoryEntry = HistoryEntry(
    id: string,
    prompt: string,
    status: Value,
    seconds: Value,
    size: Value,
    source: string,
    updatedAt: Value)

  /** The entry as the dict the session stores. */
  function EntryDict(e: HistoryEntry): Dict {
    map[
      "id" := Str(e.id),
      "prompt" := Str(e.prompt),
      "status" := e.status,
      "seconds" := e.seconds,
      "size" := e.size,
      "source" := Str(e.source),
      "updated_at" := e.updatedAt
    ]
  }

  /** The id a job is filed under in the history: `str(job["id"])`. */
  function EntryId(job: Dict): string {
    PyStr(Get(job, "id"))
  }

  /** The history entry `upsert_video_history` builds for a job. */
  function MakeEntry(job: Dict, prompt: Value, source: string): (e: HistoryEntry)
    ensures e.id == EntryId(job)
    ensures |e.prompt| <= SnippetLimit
  {
    HistoryEntry(
      EntryId(job),
      Snippet(PyStr(PromptText(prompt, job))),
      Get(job, "status"),
      Or(Get(job, "seconds"), Get(job, "duration")),
      Or(Get(job, "size"), Get(job, "resolution")),
      source,
      Or(Or(Get(job, "updated_at"), Get(job, "created_at")), Get(job, "created")))
  }

  /** The explicit prompt wins over the job's own, which wins over nothing;
      a missing `seconds` or `size` falls back to `duration` or
      `resolution`, and the time stamp to `created_at`, then `created`. */
  lemma {:induction false} EntryFieldPrecedence(job: Dict, prompt: Value, source: string)
    ensures var e := MakeEntry(job, prompt, source);
      && (Truthy(prompt) ==> e.prompt == Snippet(PyStr(prompt)))
      && (!Truthy(prompt) && Truthy(Get(job, "prompt")) ==> e.prompt == Snippet(PyStr(Get(job, "prompt"))))
      && (!Truthy(prompt) && !Truthy(Get(job, "prompt")) ==> e.prompt == "")
      && (!Truthy(Get(job, "seconds")) ==> e.seconds == Get(job, "duration"))
      && (!Truthy(Get(job, "size")) ==> e.size == Get(job, "resolution"))
      && (!Truthy(Get(job, "updated_at")) && !Truthy(Get(job, "created_at")) ==> e.updatedAt == Get(job, "created"))
      && e.source == source
  {
    if !Truthy(prompt) && !Truthy(Get(job, "prompt")) {
      assert PyText.Split("") == [];
    }
  }

  /** The id of a history entry. */
  function IdKey(e: HistoryEntry): string {
    e.id
  }

  /** The filter test `entry.get("id") != id`. */
  function NotId(id: Value): HistoryEntry -> bool {
    (e: HistoryEntry) => Str(e.id) != id
  }

  /** The entries whose id differs from `id`, in their order. */
  function WithoutId(history: seq<HistoryEntry>, id: Value): (r: seq<HistoryEntry>)
    ensures |r| <= |history|
  {
    Seqs.Filter(history, NotId(id))
  }

  /** Removing by id removes exactly the entries with that id, keeps the
      others in their order, and a second removal changes nothing. */
  lemma {:induction false} WithoutIdFacts(history: seq<HistoryEntry>, id: Value)
    ensures forall e :: e in WithoutId(history, id) <==> e in history && Str(e.id) != id
    ensures Seqs.IsSubseq(WithoutId(history, id), history)
    ensures WithoutId(WithoutId(history, id), id) == WithoutId(history, id)
  {
    forall e: HistoryEntry ensures e in WithoutId(history, id) <==> e in history && Str(e.id) != id {
      Seqs.FilterMembers(history, NotId(id), e);
    }
    Seqs.FilterIsSubseq(history, NotId(id));
    Seqs.FilterIdempotent(history, NotId(id));
  }

  /** `upsert_video_history` on the history: a job without a truthy id is
      ignored; otherwise its entry goes first, every older entry with the
      same id is dropped, and the list is cut to 20. */
  function UpsertDict(history: seq<HistoryEntry>, job: Dict, prompt: Value, source: string): (r: seq<HistoryEntry>)
    ensures !Truthy(Get(job, "id")) ==> r == history
    ensures Truthy(Get(job, "id")) ==> 0 < |r| <= MaxHistory && r[0] == MakeEntry(job, prompt, source)
  {
    if !Truthy(Get(job, "id")) then history
    else
      var entry := MakeEntry(job, prompt, source);
      Seqs.Take([entry] + WithoutId(history, Str(entry.id)), MaxHistory)
  }

  /** `upsert_video_history(job, ...)` takes any payload and normalises it
      first. */
  function Upserted(history: seq<HistoryEntry>, job: Value, prompt: Value, source: string): seq<HistoryEntry> {
    UpsertDict(history, Api.ToDict(job), prompt, source)
  }

  /** Behind the new entry come the kept older entries, as many as fit. */
  lemma {:induction false} UpsertTail(history: seq<HistoryEntry>, job: Dict, prompt: Value, source: string)
    requires Truthy(Get(job, "id"))
    ensures var w := WithoutId(history, Str(EntryId(job)));
      var r := UpsertDict(history, job, prompt, source);
      r[1..] == w[..|r| - 1]
  {
    var d := job;
    var w := WithoutId(history, Str(EntryId(d)));
    var t := [MakeEntry(d, prompt, source)] + w;
    var r := UpsertDict(history, job, prompt, source);
    assert r == Seqs.Take(t, MaxHistory);
    if |t| <= MaxHistory {
      assert r[1..] == t[1..] == w == w[..|r| - 1];
    } else {
      assert r[1..] == t[1..MaxHistory] == w[..|r| - 1];
    }
  }

  /** After an upsert the new entry is first and carries `str(id)`, no other
      entry has that id, and the older entries that stay keep their order. */
  lemma {:induction false} UpsertFacts(history: seq<HistoryEntry>, job: Dict, prompt: Value, source: string)
    requires Truthy(Get(job, "id"))
    ensures var r := UpsertDict(history, job, prompt, source);
      && r[0].id == EntryId(job)
      && (forall k :: 1 <= k < |r| ==> r[k].id != EntryId(job) && r[k] in history)
      && Seqs.IsSubseq(r[1..], history)
  {
    var d := job;
    var id := EntryId(d);
    var w := WithoutId(history, Str(id));
    var r := UpsertDict(history, job, prompt, source);
    UpsertTail(history, job, prompt, source);
    forall k | 1 <= k < |r|
      ensures r[k].id != id && r[k] in history
    {
      assert r[k] == w[k - 1] && w[k - 1] in w;
      Seqs.FilterMembers(history, NotId(Str(id)), w[k - 1]);
    }
    Seqs.FilterIsSubseq(history, NotId(Str(id)));
    Seqs.SubseqPrefix(w, history, |r| - 1);
  }

  /** A well-formed history: at most 20 entries, no id twice. */
  predicate HistoryValid(history: seq<HistoryEntry>) {
    |history| <= MaxHistory && Seqs.DistinctBy(history, IdKey)
  }

  /** Every upsert keeps the history well formed. */
  lemma {:induction false} UpsertPreservesValid(history: seq<HistoryEntry>, job: Dict, prompt: Value, source: string)
    requires HistoryValid(history)
    ensures HistoryValid(UpsertDict(history, job, prompt, source))
  {
    var d := job;
    if Truthy(Get(d, "id")) {
      var id := EntryId(d);
      var w := WithoutId(history, Str(id));
      var r := UpsertDict(history, job, prompt, source);
      Seqs.FilterDistinct(history, NotId(Str(id)), IdKey);
      UpsertFacts(history, job, prompt, source);
      forall i, j | 0 <= i < j < |r| ensures IdKey(r[i]) != IdKey(r[j]) {
        if i > 0 {
          assert r[i] == w[i - 1] && r[j] == w[j - 1];
        }
      }
    }
  }

  /** Upserting an id the history already holds moves that entry to the
      front: the others keep their places and nothing is duplicated, so a
      history of at most 20 keeps its length. */
  lemma {:induction false} UpsertExistingMovesToFront(history: seq<HistoryEntry>, job: Dict, prompt: Value, source: string, i: nat)
    requires Truthy(Get(job, "id"))
    requires Seqs.DistinctBy(history, IdKey)
    requires i < |history| && history[i].id == EntryId(job)
    ensures var r := UpsertDict(history, job, prompt, source);
      && r == Seqs.Take([MakeEntry(job, prompt, source)] + history[..i] + history[i + 1..], MaxHistory)
      && (|history| <= MaxHistory ==> |r| == |history|)
  {
    var id := EntryId(job);
    forall j | 0 <= j < |history| && j != i ensures NotId(Str(id))(history[j]) {
      assert IdKey(history[j]) != IdKey(history[i]);
    }
    Seqs.FilterRemovesOne(history, NotId(Str(id)), i);
    var e := MakeEntry(job, prompt, source);
    assert [e] + WithoutId(history, Str(id)) == [e] + history[..i] + history[i + 1..];
  }

  /** A run of upserts, one job dict after the other. */
  function UpsertAll(history: seq<HistoryEntry>, jobs: seq<Dict>, prompt: Value, source: string): seq<HistoryEntry> {
    if jobs == [] then history
    else UpsertDict(UpsertAll(history, jobs[..|jobs| - 1], prompt, source), jobs[|jobs| - 1], prompt, source)
  }

  /** The ids of the entries, in order. */
  function Ids(history: seq<HistoryEntry>): (ids: seq<string>)
    ensures |ids| == |history|
  {
    if history == [] then [] else [history[0].id] + Ids(history[1..])
  }

  /** The history ids the jobs are filed under, in order. */
  function JobIds(jobs: seq<Dict>): (ids: seq<string>)
    ensures |ids| == |jobs|
  {
    if jobs == [] then [] else JobIds(jobs[..|jobs| - 1]) + [EntryId(jobs[|jobs| - 1])]
  }

  lemma {:induction false} IdsMembers(history: seq<HistoryEntry>, id: string)
    ensures id in Ids(history) <==> exists k :: 0 <= k < |history| && history[k].id == id
  {
    if history != [] {
      IdsMembers(history[1..], id);
      assert forall k :: 1 <= k < |history| ==> history[k] == history[1..][k - 1];
    }
  }

  lemma {:induction false} IdsTake(history: seq<HistoryEntry>, n: nat)
    ensures Ids(Seqs.Take(history, n)) == Seqs.Take(Ids(history), n)
  {
    if history != [] && n > 0 && |history| > n {
      IdsTake(history[1..], n - 1);
      assert Seqs.Take(history, n)[1..] == Seqs.Take(history[1..], n - 1);
      assert Seqs.Take(Ids(history), n)[1..] == Seqs.Take(Ids(history[1..]), n - 1);
    } else if history != [] && n == 0 {
      assert Seqs.Take(history, n) == [];
    }
  }

  /** Upserting a job whose id is new puts its id in front of the others. */
  lemma {:induction false} UpsertFreshId(history: seq<HistoryEntry>, job: Dict, prompt: Value, source: string)
    requires Truthy(Get(job, "id"))
    requires EntryId(job) !in Ids(history)
    ensures Ids(UpsertDict(history, job, prompt, source)) == Seqs.Take([EntryId(job)] + Ids(history), MaxHistory)
  {
    var id := EntryId(job);
    IdsMembers(history, id);
    forall k | 0 <= k < |history| ensures NotId(Str(id))(history[k]) {
    }
    Seqs.FilterAllKept(history, NotId(Str(id)));
    var e := MakeEntry(job, prompt, source);
    assert UpsertDict(history, job, prompt, source) == Seqs.Take([e] + history, MaxHistory);
    IdsTake([e] + history, MaxHistory);
    assert ([e] + history)[1..] == history;
  }

  /** The history of upserted jobs with distinct ids holds the 20 newest,
      newest first: inserting 21 drops the oldest. */
  lemma {:induction false} UpsertKeepsNewest(jobs: seq<Dict>, prompt: Value, source: string)
    requires forall k :: 0 <= k < |jobs| ==> Truthy(Get(jobs[k], "id"))
    requires forall i, j :: 0 <= i < j < |jobs| ==> EntryId(jobs[i]) != EntryId(jobs[j])
    ensures Ids(UpsertAll([], jobs, prompt, source)) == Seqs.Take(Seqs.Reverse(JobIds(jobs)), MaxHistory)
  {
    if jobs != [] {
      var n := |jobs| - 1;
      var front := jobs[..n];
      var id := EntryId(jobs[n]);
      UpsertKeepsNewest(front, prompt, source);
      var h := UpsertAll([], front, prompt, source);
      assert Seqs.Reverse(JobIds(jobs)) == [id] + Seqs.Reverse(JobIds(front));
      assert id !in Ids(h) by {
        JobIdsMembers(front, id);
        Seqs.ReverseMembers(JobIds(front), id);
      }
      UpsertFreshId(h, jobs[n], prompt, source);
      Seqs.TakeCons(id, Seqs.Reverse(JobIds(front)), MaxHistory);
    }
  }

  lemma {:induction false} JobIdsMembers(jobs: seq<Dict>, id: string)
    requires forall i :: 0 <= i < |jobs| ==> EntryId(jobs[i]) != id
    ensures id !in JobIds(jobs)
  {
    if jobs != [] {
      JobIdsMembers(jobs[..|jobs| - 1], id);
    }
  }

  // ---------------------------------------------------------------------------
  // The job cache
  // ---------------------------------------------------------------------------

  /** `cache_job` on the cache: a job with a truthy id is stored under it,
      replacing what was there; any other job is ignored. */
  function Cached(cache: map<Value, Dict>, job: Dict): (r: map<Value, Dict>)
    ensures !Truthy(Get(job, "id")) ==> r == cache
    ensures Truthy(Get(job, "id")) ==> Get(job, "id") in r && r[Get(job, "id")] == job
    ensures forall k :: k != Get(job, "id") ==> (k in r <==> k in cache) && (k in r ==> r[k] == cache[k])
  {
    var id := Get(job, "id");
    if Truthy(id) then cache[id := job] else cache
  }

  /** A run of `cache_job` calls. */
  function CacheAll(cache: map<Value, Dict>, jobs: seq<Dict>): map<Value, Dict> {
    if jobs == [] then cache else Cached(CacheAll(cache, jobs[..|jobs| - 1]), jobs[|jobs| - 1])
  }

  /** The last job in `jobs` whose id is `id`. */
  function LastWithId(jobs: seq<Dict>, id: Value): (r: Option<Dict>)
    ensures r.Some? ==> r.value in jobs && Get(r.value, "id") == id
    ensures r.None? ==> forall k :: 0 <= k < |jobs| ==> Get(jobs[k], "id") != id
  {
    if jobs == [] then None
    else if Get(jobs[|jobs| - 1], "id") == id then Some(jobs[|jobs| - 1])
    else LastWithId(jobs[..|jobs| - 1], id)
  }

  /** Every job in the cache is stored under its own id. */
  predicate KeyedCache(cache: map<Value, Dict>) {
    forall k :: k in cache ==> Get(cache[k], "id") == k
  }

  /** `cache_job` keeps every job stored under its own id. */
  lemma {:induction false} CacheAllKeyed(cache: map<Value, Dict>, jobs: seq<Dict>)
    requires KeyedCache(cache)
    ensures KeyedCache(CacheAll(cache, jobs))
  {
    if jobs != [] {
      CacheAllKeyed(cache, jobs[..|jobs| - 1]);
    }
  }

  /** `get_cached_job(id)` after a run of `cache_job` calls gives the job
      cached last under that id, or what the cache held before. */
  lemma {:induction false} CacheAllLookup(cache: map<Value, Dict>, jobs: seq<Dict>, id: Value)
    requires Truthy(id)
    ensures var c := CacheAll(cache, jobs);
      match LastWithId(jobs, id)
      case Some(job) => id in c && c[id] == job
      case None => (id in c <==> id in cache) && (id in c ==> c[id] == cache[id])
  {
    if jobs != [] {
      CacheAllLookup(cache, jobs[..|jobs| - 1], id);
    }
  }

  // ---------------------------------------------------------------------------
  // The API configuration
  // ---------------------------------------------------------------------------

  /** `update_api_config(**kwargs)` on the configuration. */
  function ConfigUpdated(cfg: Dict, kwargs: map<string, Value>): (r: Dict)
    ensures kwargs == map[] ==> r == cfg
  {
    var updated := map k | k in cfg.Keys + kwargs.Keys && (k in kwargs ==> kwargs[k] != Null) ::
      if k in kwargs then kwargs[k] else cfg[k];
    assert kwargs == map[] ==> updated.Keys == cfg.Keys;
    updated
  }

  /** A key given None is removed, any other given key is set, and the rest
      stay as they are. */
  lemma {:induction false} ConfigUpdatedAt(cfg: Dict, kwargs: map<string, Value>, k: string)
    ensures var r := ConfigUpdated(cfg, kwargs);
      && (k in kwargs && kwargs[k] == Null ==> k !in r)
      && (k in kwargs && kwargs[k] != Null ==> k in r && r[k] == kwargs[k])
      && (k !in kwargs ==> (k in r <==> k in cfg) && (k in r ==> r[k] == cfg[k]))
  {
  }

  /** No keyword argument applied yet: the configuration as it was. */
  lemma {:induction false} ConfigUpdatedNone(cfg: Dict, kwargs: map<string, Value>)
    ensures ConfigUpdated(cfg, kwargs - kwargs.Keys) == cfg
  {
    var none := kwargs - kwargs.Keys;
    assert none.Keys == {};
    assert ConfigUpdated(cfg, none).Keys == cfg.Keys;
  }

  /** One more keyword argument applied to a partial update. */
  lemma {:induction false} ConfigUpdatedStep(cfg: Dict, kwargs: map<string, Value>, todo: set<string>, key: string)
    requires key in todo && todo <= kwargs.Keys
    ensures var before := ConfigUpdated(cfg, kwargs - todo);
      ConfigUpdated(cfg, kwargs - (todo - {key})) ==
        if kwargs[key] == Null then before - {key} else before[key := kwargs[key]]
  {
  }

  /** `get_api_config()`: the API key (empty when unset) and the base URL. */
  datatype ApiConfig = ApiConfig(apiKey: Value, baseUrl: Value)

  function ApiConfigOf(cfg: Dict): (c: ApiConfig)
    ensures "api_key" in cfg ==> c.apiKey == cfg["api_key"]
    ensures "api_key" !in cfg ==> c.apiKey == Str("")
    ensures "base_url" in cfg ==> c.baseUrl == cfg["base_url"]
    ensures "base_url" !in cfg ==> c.baseUrl == Null
  {
    ApiConfig(GetOr(cfg, "api_key", Str("")), Get(cfg, "base_url"))
  }

  /** What `update_api_config` sets is what `get_api_config` reads back, and
      a key cleared with None reads as unset. */
  lemma {:induction false} ConfigRoundTrip(cfg: Dict, kwargs: map<string, Value>)
    ensures var c := ApiConfigOf(ConfigUpdated(cfg, kwargs));
      && ("api_key" in kwargs && kwargs["api_key"] != Null ==> c.apiKey == kwargs["api_key"])
      && ("api_key" in kwargs && kwargs["api_key"] == Null ==> c.apiKey == Str(""))
      && ("api_key" !in kwargs ==> c.apiKey == ApiConfigOf(cfg).apiKey)
      && ("base_url" in kwargs ==> c.baseUrl == kwargs["base_url"])
      && ("base_url" !in kwargs ==> c.baseUrl == ApiConfigOf(cfg).baseUrl)
  {
    ConfigUpdatedAt(cfg, kwargs, "api_key");
    ConfigUpdatedAt(cfg, kwargs, "base_url");
  }

  // ---------------------------------------------------------------------------
  // describe_video_entry
  // ---------------------------------------------------------------------------

  /** The separator of a label's parts. */
  const Bullet: string := " • "

  /** A falsy id reads as "unknown". */
  const Unknown: string := "unknown"

  /** The parts of the label: the id, then size, `{seconds}s` and the prompt,
      each when truthy. `" • ".join` raises a TypeError on a part that is not
      a string: a truthy id or prompt of another type gives None. */
  function LabelParts(entry: Dict): (r: Option<seq<string>>)
    ensures r.Some? ==> r.value != [] && r.value[0] == PyStr(Or(Get(entry, "id"), Str(Unknown)))
  {
    var id := Or(Get(entry, "id"), Str(Unknown));
    var prompt := Or(Get(entry, "prompt"), Str(""));
    var size := Get(entry, "size");
    var seconds := Get(entry, "seconds");
    if !id.Str? || !prompt.Str? then None
    else
      Some([id.s]
        + (if Truthy(size) then [PyStr(size)] else [])
        + (if Truthy(seconds) then [PyStr(seconds) + "s"] else [])
        + (if Truthy(prompt) then [prompt.s] else []))
  }

  /** `describe_video_entry(entry)`. Every part is non-empty, so
      `filter(None, ...)` drops nothing. */
  function DescribeVideoEntry(entry: Dict): (r: Option<string>)
    ensures r.Some? <==> LabelParts(entry).Some?
  {
    match LabelParts(entry)
    case None => None
    case Some(parts) => Some(PyText.Join(Bullet, parts))
  }

  /** A label starts with the entry's id, or with "unknown" when it has
      none; it fails only on a truthy id or prompt that is not a string. */
  lemma {:induction false} DescribeStartsWithId(entry: Dict)
    ensures DescribeVideoEntry(entry).None? <==>
      (Truthy(Get(entry, "id")) && !Get(entry, "id").Str?)
      || (Truthy(Get(entry, "prompt")) && !Get(entry, "prompt").Str?)
    ensures DescribeVideoEntry(entry).Some? ==>
      PyText.StartsWith(DescribeVideoEntry(entry).value, PyStr(Or(Get(entry, "id"), Str(Unknown))))
  {
    if LabelParts(entry).Some? {
      PyText.JoinStartsWith(Bullet, LabelParts(entry).value);
    }
  }

  /** The label part of an optional field: the separator and the text when
      the field is truthy, nothing otherwise. */
  function Part(v: Value, text: string): string {
    if Truthy(v) then Bullet + text else ""
  }

  /** With a string (or falsy) id and prompt, the label is the id, or
      "unknown", followed by the size, `{seconds}s` and the prompt, in that
      order, each after " • " and each only when truthy. */
  lemma {:induction false} DescribeLabel(entry: Dict)
    requires Get(entry, "id").Str? || !Truthy(Get(entry, "id"))
    requires Get(entry, "prompt").Str? || !Truthy(Get(entry, "prompt"))
    ensures var size := Get(entry, "size");
      var seconds := Get(entry, "seconds");
      var prompt := Get(entry, "prompt");
      DescribeVideoEntry(entry) == Some(
        PyStr(Or(Get(entry, "id"), Str(Unknown)))
        + Part(size, PyStr(size))
        + Part(seconds, PyStr(seconds) + "s")
        + Part(prompt, PyStr(prompt)))
  {
    var size := Get(entry, "size");
    var seconds := Get(entry, "seconds");
    var prompt := Or(Get(entry, "prompt"), Str(""));
    var a := if Truthy(size) then [PyStr(size)] else [];
    var b := if Truthy(seconds) then [PyStr(seconds) + "s"] else [];
    var c := if Truthy(prompt) then [prompt.s] else [];
    var id := PyStr(Or(Get(entry, "id"), Str(Unknown)));
    assert LabelParts(entry) == Some([id] + a + b + c);
    PyText.JoinOptionals(Bullet, id, a, b, c);
    assert PyText.Prefixed(Bullet, a) == Part(size, PyStr(size));
    assert PyText.Prefixed(Bullet, b) == Part(seconds, PyStr(seconds) + "s");
    assert PyText.Prefixed(Bullet, c) == Part(Get(entry, "prompt"), PyStr(Get(entry, "prompt")));
  }

  /** With every part present the label has all four, in order; with only
      an id it is the id alone. */
  lemma {:induction false} DescribeAllOrNothing(id: string, size: string, seconds: string, prompt: string)
    requires id != "" && size != "" && seconds != "" && prompt != ""
    ensures DescribeVideoEntry(map["id" := Str(id), "size" := Str(size), "seconds" := Str(seconds), "prompt" := Str(prompt)])
      == Some(id + (Bullet + size) + (Bullet + (seconds + "s")) + (Bullet + prompt))
    ensures DescribeVideoEntry(map["id" := Str(id)]) == Some(id)
  {
    var full := map["id" := Str(id), "size" := Str(size), "seconds" := Str(seconds), "prompt" := Str(prompt)];
    DescribeLabel(full);
    assert Get(full, "id") == Str(id) && Get(full, "size") == Str(size);
    assert Get(full, "seconds") == Str(seconds) && Get(full, "prompt") == Str(prompt);
    DescribeLabel(map["id" := Str(id)]);
  }

  /** Every entry the history holds has a label, which starts with its id. */
  lemma {:induction false} DescribeHistoryEntry(e: HistoryEntry)
    ensures DescribeVideoEntry(EntryDict(e)).Some?
    ensures PyText.StartsWith(DescribeVideoEntry(EntryDict(e)).value, if e.id != "" then e.id else Unknown)
  {
    var d := EntryDict(e);
    assert Get(d, "id") == Str(e.id) && Get(d, "prompt") == Str(e.prompt);
    DescribeStartsWithId(d);
  }

  // ---------------------------------------------------------------------------
  // The session
  // ---------------------------------------------------------------------------

  /** The keys of `st.session_state` that the state helpers own. */
  class Session {
    var history: seq<HistoryEntry>
    var jobsCache: map<Value, Dict>
    var busy: bool
    var apiConfig: Dict

    /** The state after `ensure_session_defaults` on a fresh session, given
        what the environment holds for the API key and the base URL. */
    constructor(envApiKey: Option<string>, envBaseUrl: Option<string>)
      ensures history == [] && jobsCache == map[] && !busy
      ensures apiConfig == map[
        "api_key" := Str(if envApiKey.Some? then envApiKey.value else ""),
        "base_url" := if envBaseUrl.Some? && envBaseUrl.value != "" then Str(envBaseUrl.value) else Null]
    {
      history := [];
      jobsCache := map[];
      busy := false;
      var apiKey := if envApiKey.Some? then envApiKey.value else "";
      var baseUrl := if envBaseUrl.Some? && envBaseUrl.value != "" then Str(envBaseUrl.value) else Null;
      apiConfig := map["api_key" := Str(apiKey), "base_url" := baseUrl];
    }

    /** `is_busy()`. */
    function IsBusy(): (b: bool)
      reads this
      ensures b == busy
    {
      busy
    }

    /** `set_busy(value)`: afterwards `is_busy()` answers `value`. */
    method SetBusy(value: bool)
      modifies this
      ensures IsBusy() == value
      ensures history == old(history) && jobsCache == old(jobsCache) && apiConfig == old(apiConfig)
    {
      busy := value;
    }

    /** `update_api_config(**kwargs)`: the arguments are applied one by one
        to a copy of the configuration, which then replaces it. */
    method UpdateApiConfig(kwargs: map<string, Value>)
      modifies this
      ensures apiConfig == ConfigUpdated(old(apiConfig), kwargs)
      ensures history == old(history) && jobsCache == old(jobsCache) && busy == old(busy)
    {
      var start := apiConfig;
      var cfg := start;
      var todo := kwargs.Keys;
      ConfigUpdatedNone(start, kwargs);
      while todo != {}
        invariant todo <= kwargs.Keys
        invariant cfg == ConfigUpdated(start, kwargs - todo)
        invariant unchanged(this)
        decreases |todo|
      {
        var key :| key in todo;
        ConfigUpdatedStep(start, kwargs, todo, key);
        if kwargs[key] == Null {
          cfg := cfg - {key};
        } else {
          cfg := cfg[key := kwargs[key]];
        }
        todo := todo - {key};
      }
      assert kwargs - todo == kwargs;
      apiConfig := cfg;
    }

    /** `get_api_config()`. */
    function GetApiConfig(): (c: ApiConfig)
      reads this
      ensures c == ApiConfigOf(apiConfig)
    {
      ApiConfigOf(apiConfig)
    }

    /** `cache_job(job_dict)`. */
    method CacheJob(jobDict: Dict)
      modifies this
      ensures jobsCache == Cached(old(jobsCache), jobDict)
      ensures history == old(history) && busy == old(busy) && apiConfig == old(apiConfig)
    {
      var jobId := Get(jobDict, "id");
      if !Truthy(jobId) {
        return;
      }
      jobsCache := jobsCache[jobId := jobDict];
    }

    /** `get_cached_job(job_id)`. */
    function GetCachedJob(jobId: Value): (r: Option<Dict>)
      reads this
      ensures r.Some? <==> jobId in jobsCache
      ensures r.Some? ==> r.value == jobsCache[jobId]
      ensures r.Some? && KeyedCache(jobsCache) ==> Get(r.value, "id") == jobId
    {
      if jobId in jobsCache then Some(jobsCache[jobId]) else None
    }

    /** `upsert_video_history(job, prompt=prompt, source=source)`. */
    method UpsertVideoHistory(job: Value, prompt: Value, source: string)
      modifies this
      ensures history == Upserted(old(history), job, prompt, source)
      ensures jobsCache == old(jobsCache) && busy == old(busy) && apiConfig == old(apiConfig)
    {
      var jobDict := Api.ToDict(job);
      var vid := Get(jobDict, "id");
      if !Truthy(vid) {
        return;
      }
      var entry := MakeEntry(jobDict, prompt, source);
      var kept := WithoutId(history, Str(entry.id));
      kept := [entry] + kept;
      history := Seqs.Take(kept, MaxHistory);
    }

    /** `remove_video_from_history(video_id)`. */
    method RemoveVideoFromHistory(videoId: Value)
      modifies this
      ensures history == WithoutId(old(history), videoId)
      ensures jobsCache == old(jobsCache) && busy == old(busy) && apiConfig == old(apiConfig)
    {
      history := WithoutId(history, videoId);
    }
  }
}
