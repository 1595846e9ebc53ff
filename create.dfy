/** The generation flow of the create page: checking the inputs, building
    the request payload, and submitting a job, following it to a terminal
    status and keeping the result. The create call, the retrieved job
    responses and the media download are inputs. */
module CreatePage {
  import opened Wrappers
  import opened PyValues
  import PyText
  import Api
  import SessionState
  import Ui

  // ---------------------------------------------------------------------------
  // Input validation
  // ---------------------------------------------------------------------------

  const MissingKeyMessage: string := "Add your OpenAI API key in the sidebar before generating."
  const EmptyPromptMessage: string := "Prompt cannot be empty."
  const DurationMessage: string := "Duration must be between 2 and 25 seconds."

  /** The shortest and the longest clip, in seconds. */
  const MinSeconds: int := 2
  const MaxSeconds: int := 25

  /** `_validate_inputs()`: the first failing check's message, in the order
      API key, prompt, duration; None when every check passes. */
  function ValidateInputs(apiKey: Value, prompt: string, duration: int): (r: Option<string>)
    ensures r.Some? ==> r.value in {MissingKeyMessage, EmptyPromptMessage, DurationMessage}
  {
    if !Truthy(apiKey) then Some(MissingKeyMessage)
    else if PyText.Strip(prompt) == "" then Some(EmptyPromptMessage)
    else if duration < MinSeconds || duration > MaxSeconds then Some(DurationMessage)
    else None
  }

  /** Whether a prompt is all white space (or empty). */
  predicate Blank(prompt: string) {
    forall k :: 0 <= k < |prompt| ==> PyText.IsSpace(prompt[k])
  }

  /** The inputs pass exactly when there is a key, the prompt has some text
      that is not white space, and the duration lies in [2, 25]; a failure
      names the first check that fails. */
  lemma {:induction false} ValidateInputsOrder(apiKey: Value, prompt: string, duration: int)
    ensures ValidateInputs(apiKey, prompt, duration).None? <==>
      Truthy(apiKey) && !Blank(prompt) && MinSeconds <= duration <= MaxSeconds
    ensures !Truthy(apiKey) ==> ValidateInputs(apiKey, prompt, duration) == Some(MissingKeyMessage)
    ensures Truthy(apiKey) && Blank(prompt) ==> ValidateInputs(apiKey, prompt, duration) == Some(EmptyPromptMessage)
    ensures Truthy(apiKey) && !Blank(prompt) && !(MinSeconds <= duration <= MaxSeconds) ==>
      ValidateInputs(apiKey, prompt, duration) == Some(DurationMessage)
  {
    PyText.StripEmptyIffBlank(prompt);
  }

  /** The bounds are inclusive: 2 and 25 seconds pass, 1 and 26 do not. */
  lemma {:induction false} DurationBoundaries(apiKey: Value, prompt: string)
    requires Truthy(apiKey) && !Blank(prompt)
    ensures ValidateInputs(apiKey, prompt, 2).None?
    ensures ValidateInputs(apiKey, prompt, 25).None?
    ensures ValidateInputs(apiKey, prompt, 1) == Some(DurationMessage)
    ensures ValidateInputs(apiKey, prompt, 26) == Some(DurationMessage)
  {
    PyText.StripEmptyIffBlank(prompt);
  }

  // ---------------------------------------------------------------------------
  // The request payload
  // ---------------------------------------------------------------------------

  /** `SIZE_PRESETS`: the resolution of each label of the size selector. */
  const SizePresets: map<string, string> := map[
    "Landscape · 16:9 (1280x720)" := "1280x720",
    "Portrait · 9:16 (720x1280)" := "720x1280",
    "Square · 1:1 (1024x1024)" := "1024x1024",
    "Vertical HD · 9:16 (1080x1920)" := "1080x1920",
    "Wide HD · 16:9 (1920x1080)" := "1920x1080"
  ]

  /** The resolution asked for when the label is not a preset. */
  const DefaultSize: string := "1280x720"

  /** `SIZE_PRESETS.get(size_label, "1280x720")`. */
  function SizeFor(sizeLabel: string): (size: string)
    ensures sizeLabel in SizePresets ==> size == SizePresets[sizeLabel]
    ensures sizeLabel !in SizePresets ==> size == DefaultSize
  {
    if sizeLabel in SizePresets then SizePresets[sizeLabel] else DefaultSize
  }

  /** Whatever the label, the resolution asked for is one of the presets'. */
  lemma {:induction false} SizeIsPreset(sizeLabel: string)
    ensures SizeFor(sizeLabel) in SizePresets.Values
  {
    if sizeLabel !in SizePresets {
      assert SizePresets["Landscape · 16:9 (1280x720)"] == DefaultSize;
    }
  }

  /** The payload `_submit_generation` sends to the create call. */
  function PayloadFor(prompt: string, model: Value, duration: int, sizeLabel: string, image: Value): (p: Dict)
    ensures p.Keys == {"prompt", "model", "seconds", "size"} + (if image != Null then {"input_reference"} else {})
  {
    var payload := map[
      "prompt" := Str(PyText.Strip(prompt)),
      "model" := model,
      "seconds" := Str(PyText.IntToString(duration)),
      "size" := Str(SizeFor(sizeLabel))];
    if image != Null then payload["input_reference" := image] else payload
  }

  /** The payload's five field names are different strings. */
  lemma PayloadKeysDistinct()
    ensures "prompt" != "model" && "prompt" != "seconds" && "prompt" != "size" && "prompt" != "input_reference"
    ensures "model" != "seconds" && "model" != "size" && "model" != "input_reference"
    ensures "seconds" != "size" && "seconds" != "input_reference" && "size" != "input_reference"
  {
    assert |"prompt"| == 6 && |"model"| == 5 && |"seconds"| == 7 && |"size"| == 4 && |"input_reference"| == 15;
  }

  /** The payload carries the stripped prompt and the chosen model. */
  lemma {:induction false} PayloadPromptAndModel(prompt: string, model: Value, duration: int, sizeLabel: string, image: Value)
    ensures var p := PayloadFor(prompt, model, duration, sizeLabel, image);
      && "prompt" in p && p["prompt"] == Str(PyText.Strip(prompt))
      && "model" in p && p["model"] == model
  {
  }

  /** The duration is sent as a decimal string that converts back to it. */
  lemma {:induction false} PayloadSeconds(prompt: string, model: Value, duration: int, sizeLabel: string, image: Value)
    ensures var p := PayloadFor(prompt, model, duration, sizeLabel, image);
      "seconds" in p && p["seconds"].Str? && AsInt(p["seconds"]) == Some(duration)
  {
    PayloadKeysDistinct();
    var p := PayloadFor(prompt, model, duration, sizeLabel, image);
    var text := PyText.IntToString(duration);
    assert p["seconds"] == Str(text);
    AsIntOfDecimal(duration);
  }

  /** The resolution sent is always one of the presets'. */
  lemma {:induction false} PayloadSize(prompt: string, model: Value, duration: int, sizeLabel: string, image: Value)
    ensures var p := PayloadFor(prompt, model, duration, sizeLabel, image);
      "size" in p && p["size"] == Str(SizeFor(sizeLabel)) && SizeFor(sizeLabel) in SizePresets.Values
  {
    PayloadKeysDistinct();
    SizeIsPreset(sizeLabel);
  }

  /** The reference image is sent exactly when one was uploaded. */
  lemma {:induction false} PayloadImage(prompt: string, model: Value, duration: int, sizeLabel: string, image: Value)
    ensures var p := PayloadFor(prompt, model, duration, sizeLabel, image);
      && ("input_reference" in p <==> image != Null)
      && ("input_reference" in p ==> p["input_reference"] == image)
  {
    PayloadKeysDistinct();
  }

  /** The prompt sent has no white space at either end. */
  lemma {:induction false} PayloadPromptTrimmed(prompt: string, model: Value, duration: int, sizeLabel: string, image: Value)
    ensures var s := PayloadFor(prompt, model, duration, sizeLabel, image)["prompt"].s;
      s == [] || (!PyText.IsSpace(s[0]) && !PyText.IsSpace(s[|s| - 1]))
  {
  }

  /** The payload as `_submit_generation` builds it: the four fields, then
      the reference image added when there is one. */
  method BuildPayload(prompt: string, model: Value, duration: int, sizeLabel: string, image: Value)
    returns (payload: Dict)
    ensures payload == PayloadFor(prompt, model, duration, sizeLabel, image)
  {
    var promptText := PyText.Strip(prompt);
    payload := map[
      "prompt" := Str(promptText),
      "model" := model,
      "seconds" := Str(PyText.IntToString(duration)),
      "size" := Str(SizeFor(sizeLabel))];
    if image != Null {
      payload := payload["input_reference" := image];
    }
  }

  // ---------------------------------------------------------------------------
  // Submitting a generation
  // ---------------------------------------------------------------------------

  /** `safe_get_id(job) or job_dict.get("id")`: the id the job is polled
      under. */
  function CreatedId(job: Value): (id: Value)
    ensures Truthy(Get(Api.ToDict(job), "id")) ==> Truthy(id)
    ensures IsIdScalar(Get(Api.ToDict(job), "id")) ==> id == Str(PyStr(Get(Api.ToDict(job), "id")))
    ensures !IsIdScalar(Get(Api.ToDict(job), "id")) ==> id == Get(Api.ToDict(job), "id")
  {
    Api.SafeGetIdAgreesWithToDict(job);
    Or(OptStr(Api.SafeGetId(job)), Get(Api.ToDict(job), "id"))
  }

  /** The text the RuntimeError raised for a response without an id starts
      with; the rest is the payload, rendered. */
  const NoIdMessage: string := "No video id returned from create(). Raw: "

  /** The message of the RuntimeError raised for a response without an id. */
  function NoIdError(jobDict: Dict): string {
    NoIdMessage + PyStr(Mapping(jobDict))
  }

  /** The JSON rendering of a payload, which the model does not reproduce. */
  const JsonText: string := "<json>"

  /** The error shown when polling ends without a finished job: the
      message of the RuntimeError raised for a failed job, or that of the
      exception a retrieval raised. */
  function PollErrorMessage(e: Api.PollError): string {
    match e
    case JobFailed(status, _) => "Video job " + status + ". Details:\n" + JsonText
    case Raised(message) => message
  }

  /** The `on_tick` calls of the poll: the retrieved jobs, normalised, up to
      the retrieval polling stops at, which is included when it returned. */
  ghost function PolledTicks(responses: seq<Api.Retrieval>): (ticks: seq<Dict>)
    requires Api.PollStops(responses)
  {
    Api.Ticks(responses[..Api.FirstStop(responses) + 1])
  }

  /** How the poll ends: the finished job, the error for a failed one, or
      the exception a retrieval raised. */
  ghost function PollOutcome(responses: seq<Api.Retrieval>): Result<Dict, Api.PollError>
    requires Api.PollStops(responses)
  {
    match responses[Api.FirstStop(responses)]
    case Failure(message) => Failure(Api.Raised(message))
    case Success(job) => Api.PollResult(Api.ToDict(job))
  }

  /** The progress bar after an `on_tick` call: its value and its text. */
  datatype Bar = Bar(value: int, text: string)

  /** The bar for a retrieved job: the clamped percentage, shown as at least
      1, read "Finalizing" from 99 on and "Rendering n%" before. */
  function TickBar(job: Dict): (b: Bar)
    ensures 1 <= b.value <= 100
    ensures b.value == Api.ProgressPercent(job) || (b.value == 1 && Api.ProgressPercent(job) == 0)
    ensures b.text == "Finalizing" <==> Api.ProgressPercent(job) >= 99
  {
    var pct := Api.Clamp(Api.ProgressPercent(job));
    var text := if pct >= 99 then "Finalizing" else "Rendering " + PyText.IntToString(pct) + "%";
    assert pct < 99 ==> text[0] == 'R' && "Finalizing"[0] == 'F';
    Bar(if pct > 1 then pct else 1, text)
  }

  /** Whether the create call returned a job with an id, so that it is
      filed and polled. */
  predicate Accepted(created: Result<Value, string>) {
    created.Success? && Truthy(CreatedId(created.value))
  }

  /** The session history after a submission with valid inputs. */
  ghost function GeneratedHistory(history: seq<SessionState.HistoryEntry>, promptText: string,
                                  created: Result<Value, string>, responses: seq<Api.Retrieval>): seq<SessionState.HistoryEntry>
    requires Api.PollStops(responses)
  {
    if !Accepted(created) then history
    else
      var filed := SessionState.UpsertDict(history, Api.ToDict(created.value), Str(promptText), "generate");
      PolledHistory(filed, promptText, responses)
  }

  /** The history after the poll of an accepted job: each retrieved job
      filed with source "poll", then a finished one with "complete". */
  ghost function PolledHistory(history: seq<SessionState.HistoryEntry>, promptText: string,
                               responses: seq<Api.Retrieval>): seq<SessionState.HistoryEntry>
    requires Api.PollStops(responses)
  {
    var polled := SessionState.UpsertAll(history, PolledTicks(responses), Str(promptText), "poll");
    match PollOutcome(responses)
    case Failure(_) => polled
    case Success(final) => SessionState.UpsertDict(polled, final, Str(promptText), "complete")
  }

  /** The job cache after a submission with valid inputs. */
  ghost function GeneratedCache(cache: map<Value, Dict>, created: Result<Value, string>, responses: seq<Api.Retrieval>): map<Value, Dict>
    requires Api.PollStops(responses)
  {
    if !Accepted(created) then cache
    else PolledCache(SessionState.Cached(cache, Api.ToDict(created.value)), responses)
  }

  /** The job cache after the poll of an accepted job. */
  ghost function PolledCache(cache: map<Value, Dict>, responses: seq<Api.Retrieval>): map<Value, Dict>
    requires Api.PollStops(responses)
  {
    var polled := SessionState.CacheAll(cache, PolledTicks(responses));
    match PollOutcome(responses)
    case Failure(_) => polled
    case Success(final) => SessionState.Cached(polled, final)
  }

  /** The keys of `st.session_state` the create page owns: the error shown,
      the last finished job, its media URL and bytes, and whether the first
      render was celebrated (the session's `celebrated_first_render`). */
  datatype Outcome = Outcome(validationError: string, lastJob: Option<Dict>, lastMediaUrl: Option<string>,
                             lastMediaBytes: Option<seq<Api.Byte>>, celebrated: bool)

  /** The keys after a finished job: the job, its media URL, and the
      downloaded bytes when there is no URL and the download succeeded. */
  function Completed(before: Outcome, final: Dict, media: Result<seq<Api.Byte>, string>): Outcome {
    var url := Api.ExtractAssetUrl(final);
    before.(lastJob := Some(final), lastMediaUrl := url,
            lastMediaBytes := if url.None? && media.Success? then Some(media.value) else None,
            celebrated := true)
  }

  /** The keys after a submission with valid inputs. */
  ghost function Generated(before: Outcome, created: Result<Value, string>, responses: seq<Api.Retrieval>,
                           media: Result<seq<Api.Byte>, string>): Outcome
    requires Api.PollStops(responses)
  {
    match created
    case Failure(msg) => before.(validationError := msg)
    case Success(job) =>
      if !Truthy(CreatedId(job)) then before.(validationError := NoIdError(Api.ToDict(job)))
      else PolledState(before, responses, media)
  }

  /** The keys after the poll of an accepted job. */
  ghost function PolledState(before: Outcome, responses: seq<Api.Retrieval>, media: Result<seq<Api.Byte>, string>): Outcome
    requires Api.PollStops(responses)
  {
    match PollOutcome(responses)
    case Failure(e) => before.(validationError := PollErrorMessage(e))
    case Success(final) => Completed(before, final, media)
  }

  /** A create call that raised, or returned no id, files nothing: the
      history and the cache are as before, and the error is shown. */
  lemma {:induction false} RejectedFilesNothing(history: seq<SessionState.HistoryEntry>, cache: map<Value, Dict>,
                                               before: Outcome, promptText: string, created: Result<Value, string>,
                                               responses: seq<Api.Retrieval>, media: Result<seq<Api.Byte>, string>)
    requires Api.PollStops(responses)
    requires !Accepted(created)
    requires created.Failure? ==> created.error != ""
    ensures GeneratedHistory(history, promptText, created, responses) == history
    ensures GeneratedCache(cache, created, responses) == cache
    ensures var after := Generated(before, created, responses, media);
      after.validationError != "" && after.lastJob == before.lastJob
  {
  }

  /** A finished job ends up at the front of the history, filed with source
      "complete" and the submitted prompt, and cached under its id. */
  lemma {:induction false} FinishedJobFiledFirst(history: seq<SessionState.HistoryEntry>, cache: map<Value, Dict>,
                                                promptText: string, created: Result<Value, string>, responses: seq<Api.Retrieval>)
    requires Api.PollStops(responses)
    requires Accepted(created) && PollOutcome(responses).Success?
    requires Truthy(Get(PollOutcome(responses).value, "id"))
    ensures var final := PollOutcome(responses).value;
      var h := GeneratedHistory(history, promptText, created, responses);
      var c := GeneratedCache(cache, created, responses);
      && h != [] && h[0] == SessionState.MakeEntry(final, Str(promptText), "complete") && h[0].source == "complete"
      && |h| <= SessionState.MaxHistory
      && Get(final, "id") in c && c[Get(final, "id")] == final
  {
  }

  /** The job a generation finishes with has a success status, and so shows
      a green badge. */
  lemma {:induction false} FinishedJobIsGreen(responses: seq<Api.Retrieval>)
    requires Api.PollStops(responses)
    requires PollOutcome(responses).Success?
    ensures Api.IsSuccess(PollOutcome(responses).value)
    ensures Ui.JobStatusBadge(Get(PollOutcome(responses).value, "status")) in {"✅ Succeeded", "✅ Completed"}
  {
    Ui.SuccessBadge(PollOutcome(responses).value);
  }

  /** The media is shown from its URL when the job has one, and otherwise
      from the download, when it succeeded. */
  lemma {:induction false} CompletedMedia(before: Outcome, final: Dict, media: Result<seq<Api.Byte>, string>)
    ensures var after := Completed(before, final, media);
      && after.lastJob == Some(final) && after.celebrated && after.validationError == before.validationError
      && (after.lastMediaUrl.Some? ==> after.lastMediaBytes.None?)
      && (after.lastMediaUrl.None? && media.Success? ==> after.lastMediaBytes == Some(media.value))
      && after.lastMediaUrl == Api.ExtractAssetUrl(final)
  {
  }

  /** The create page's keys, beside the shared session state it updates
      through the state helpers. */
  class CreateView {
    const session: SessionState.Session
    var validationError: string
    var lastJob: Option<Dict>
    var lastMediaUrl: Option<string>
    var lastMediaBytes: Option<seq<Api.Byte>>
    var celebrated: bool

    /** The keys, together. */
    function State(): Outcome
      reads this
    {
      Outcome(validationError, lastJob, lastMediaUrl, lastMediaBytes, celebrated)
    }

    /** `_ensure_create_defaults()` on a fresh session (and the session's
        `celebrated_first_render` default). */
    constructor(session: SessionState.Session)
      ensures this.session == session
      ensures State() == Outcome("", None, None, None, false)
    {
      this.session := session;
      validationError := "";
      lastJob := None;
      lastMediaUrl := None;
      lastMediaBytes := None;
      celebrated := false;
    }

    /** `_submit_generation()` with the form's inputs, given what the create
        call returned (or the message of what it raised), what the poll's
        retrievals return or raise, and what the media download returns. Returns the
        payload sent, None when the inputs were rejected. */
    method SubmitGeneration(prompt: string, model: Value, duration: int, sizeLabel: string, image: Value,
                            created: Result<Value, string>, responses: seq<Api.Retrieval>,
                            media: Result<seq<Api.Byte>, string>)
      returns (payload: Option<Dict>)
      requires Api.PollStops(responses)
      modifies this, session
      ensures var error := ValidateInputs(SessionState.ApiConfigOf(session.apiConfig).apiKey, prompt, duration);
        error.Some? ==>
          && payload.None?
          && State() == old(State()).(validationError := error.value)
          && session.busy == old(session.busy)
          && session.history == old(session.history) && session.jobsCache == old(session.jobsCache)
      ensures var error := ValidateInputs(SessionState.ApiConfigOf(session.apiConfig).apiKey, prompt, duration);
        error.None? ==>
          && payload == Some(PayloadFor(prompt, model, duration, sizeLabel, image))
          && State() == Generated(old(State()).(validationError := ""), created, responses, media)
          && session.history == GeneratedHistory(old(session.history), PyText.Strip(prompt), created, responses)
          && session.jobsCache == GeneratedCache(old(session.jobsCache), created, responses)
          && !session.busy
      ensures session.apiConfig == old(session.apiConfig)
    {
      var error := ValidateInputs(session.GetApiConfig().apiKey, prompt, duration);
      if error.Some? {
        validationError := error.value;
        payload := None;
      } else {
        validationError := "";
        session.SetBusy(true);
        var promptText := PyText.Strip(prompt);
        var body := BuildPayload(prompt, model, duration, sizeLabel, image);
        payload := Some(body);
        Generate(promptText, created, responses, media);
        session.SetBusy(false);
      }
    }

    /** The `try` block of `_submit_generation`: file the created job, poll
        it, and keep the finished job and its media; any exception becomes
        the error shown. */
    method Generate(promptText: string, created: Result<Value, string>, responses: seq<Api.Retrieval>,
                    media: Result<seq<Api.Byte>, string>)
      requires Api.PollStops(responses)
      modifies this`validationError, this`lastJob, this`lastMediaUrl, this`lastMediaBytes, this`celebrated, session
      ensures State() == Generated(old(State()), created, responses, media)
      ensures session.history == GeneratedHistory(old(session.history), promptText, created, responses)
      ensures session.jobsCache == GeneratedCache(old(session.jobsCache), created, responses)
      ensures session.busy == old(session.busy) && session.apiConfig == old(session.apiConfig)
    {
      if created.Failure? {
        validationError := created.error;
        return;
      }
      var job := created.value;
      var jobDict := Api.ToDict(job);
      var jobId := CreatedId(job);
      if !Truthy(jobId) {
        validationError := NoIdError(jobDict);
        return;
      }
      session.CacheJob(jobDict);
      Api.ToDictIdempotent(job);
      session.UpsertVideoHistory(Mapping(jobDict), Str(promptText), "generate");
      FollowJob(promptText, responses, media);
    }

    /** Poll the accepted job until polling stops, filing every retrieved
        job, and keep the finished one; the error of a failed job, or of a
        retrieval that raised, is shown. */
    method FollowJob(promptText: string, responses: seq<Api.Retrieval>, media: Result<seq<Api.Byte>, string>)
      requires Api.PollStops(responses)
      modifies this`validationError, this`lastJob, this`lastMediaUrl, this`lastMediaBytes, this`celebrated, session
      ensures State() == PolledState(old(State()), responses, media)
      ensures session.history == PolledHistory(old(session.history), promptText, responses)
      ensures session.jobsCache == PolledCache(old(session.jobsCache), responses)
      ensures session.busy == old(session.busy) && session.apiConfig == old(session.apiConfig)
    {
      var r, ticks := Api.PollUntilComplete(responses);
      PollTraceAgrees(responses, r, ticks);
      ApplyTicks(ticks, promptText);
      if r.Failure? {
        validationError := PollErrorMessage(r.error);
        return;
      }
      FinishGeneration(r.value, promptText, media);
    }

    /** The `on_tick` calls, one per retrieved job: cache it and file it
        with source "poll". */
    method ApplyTicks(ticks: seq<Dict>, promptText: string)
      modifies session
      ensures session.history == SessionState.UpsertAll(old(session.history), ticks, Str(promptText), "poll")
      ensures session.jobsCache == SessionState.CacheAll(old(session.jobsCache), ticks)
      ensures session.busy == old(session.busy) && session.apiConfig == old(session.apiConfig)
    {
      var k := 0;
      while k < |ticks|
        invariant k <= |ticks|
        invariant session.history == SessionState.UpsertAll(old(session.history), ticks[..k], Str(promptText), "poll")
        invariant session.jobsCache == SessionState.CacheAll(old(session.jobsCache), ticks[..k])
        invariant session.busy == old(session.busy) && session.apiConfig == old(session.apiConfig)
      {
        var jobCopy := Api.ToDict(Mapping(ticks[k]));
        session.CacheJob(jobCopy);
        session.UpsertVideoHistory(Mapping(jobCopy), Str(promptText), "poll");
        assert ticks[..k + 1][..k] == ticks[..k];
        k := k + 1;
      }
      assert ticks[..k] == ticks;
    }

    /** The end of a successful poll: file the final job with source
        "complete", then keep it, its media URL or the downloaded bytes, and
        mark the first render celebrated. */
    method FinishGeneration(finalJob: Dict, promptText: string, media: Result<seq<Api.Byte>, string>)
      modifies this`lastJob, this`lastMediaUrl, this`lastMediaBytes, this`celebrated, session
      ensures State() == Completed(old(State()), finalJob, media)
      ensures session.history == SessionState.UpsertDict(old(session.history), finalJob, Str(promptText), "complete")
      ensures session.jobsCache == SessionState.Cached(old(session.jobsCache), finalJob)
      ensures session.busy == old(session.busy) && session.apiConfig == old(session.apiConfig)
    {
      var finalDict := Api.ToDict(Mapping(finalJob));
      session.CacheJob(finalDict);
      session.UpsertVideoHistory(Mapping(finalDict), Str(promptText), "complete");
      var mediaUrl := Api.ExtractAssetUrl(finalDict);
      var mediaBytes: Option<seq<Api.Byte>> := None;
      if mediaUrl.None? && media.Success? {
        mediaBytes := Some(media.value);
      }
      lastJob := Some(finalDict);
      lastMediaUrl := mediaUrl;
      lastMediaBytes := mediaBytes;
      celebrated := true;
    }
  }

  /** What `poll_until_complete` hands back is what the specification
      functions read off the responses. */
  lemma {:induction false} PollTraceAgrees(responses: seq<Api.Retrieval>, r: Result<Dict, Api.PollError>, ticks: seq<Dict>)
    requires Api.PollStops(responses)
    requires ticks == Api.Ticks(responses[..Api.FirstStop(responses) + 1])
    requires responses[Api.FirstStop(responses)].Failure? ==>
      r == Failure(Api.Raised(responses[Api.FirstStop(responses)].error))
    requires responses[Api.FirstStop(responses)].Success? ==>
      && |ticks| == Api.FirstStop(responses) + 1
      && ticks[|ticks| - 1] == Api.ToDict(responses[Api.FirstStop(responses)].value)
      && Api.Terminal(ticks[|ticks| - 1]) && r == Api.PollResult(ticks[|ticks| - 1])
    ensures ticks == PolledTicks(responses)
    ensures r == PollOutcome(responses)
  {
  }

  /** A retrieval that raises ends the generation with its message shown,
      after every job retrieved before it was cached and filed with source
      "poll"; nothing is rolled back and no job is kept. */
  lemma {:induction false} RaisedPollKeepsTicks(history: seq<SessionState.HistoryEntry>, cache: map<Value, Dict>,
                                               before: Outcome, promptText: string, responses: seq<Api.Retrieval>,
                                               media: Result<seq<Api.Byte>, string>)
    requires Api.PollStops(responses)
    requires responses[Api.FirstStop(responses)].Failure?
    ensures var n := Api.FirstStop(responses);
      && |PolledTicks(responses)| == n
      && (forall k :: 0 <= k < n ==> responses[k].Success? && PolledTicks(responses)[k] == Api.ToDict(responses[k].value))
      && PolledHistory(history, promptText, responses)
           == SessionState.UpsertAll(history, PolledTicks(responses), Str(promptText), "poll")
      && PolledCache(cache, responses) == SessionState.CacheAll(cache, PolledTicks(responses))
      && PolledState(before, responses, media) == before.(validationError := responses[n].error)
  {
    var n := Api.FirstStop(responses);
    Api.TicksAt(responses, n);
    Api.TicksBeforeStop(responses, n);
    forall k | 0 <= k < n
      ensures responses[k].Success? && PolledTicks(responses)[k] == Api.ToDict(responses[k].value)
    {
      Api.TicksPrefixIndex(responses, n, k);
    }
  }
}
