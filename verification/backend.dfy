/**
 The `POST /process-meeting` handler of backend/main.py as a pure function of
 the outcomes of its external calls: the audio download, the API-key setting,
 the Whisper transcription, the chat completion, the database update and the
 Expo push. It fixes which status writes happen, in which order, which HTTP
 answer is given, and what summary is stored.
 */
module Backend {
  import opened Outcomes
  import opened BackendText

  /** The summary of a transcript that is empty or all whitespace. */
  const NoSpeechSummary := "No speech detected."

  /** The summary stored when summarisation raised. */
  const SummaryUnavailable := "(Summary unavailable)"

  /** What `_summarize` did: the prompt sent to the model, if any, and what it returned or raised. */
  datatype SummaryRun = SummaryRun(prompt: Option<string>, result: Outcome<string>)

  /**
   `_summarize`. A blank transcript gives the no-speech text without calling
   the model; otherwise the model receives the first 12000 characters and its
   reply (null read as empty) is stripped. `reply` is what the completion
   call returns as message content, or the error it raises.
   */
  function Summarize(transcript: string, reply: Outcome<Option<string>>): (r: SummaryRun)
    ensures r.prompt.None? <==> IsBlank(transcript)
    ensures IsBlank(transcript) ==> r.result == Ok(NoSpeechSummary)
    ensures r.prompt.Some? ==> r.prompt.value == PromptInput(transcript)
    ensures !IsBlank(transcript) ==> (r.result.Err? <==> reply.Err?)
    ensures !IsBlank(transcript) && r.result.Ok? ==>
      && r.result.value == Strip(reply.value.GetOr(""))
      && (r.result.value == [] || (!IsSpace(r.result.value[0]) && !IsSpace(r.result.value[|r.result.value| - 1])))
  {
    // `not transcript.strip()`; `Strip`'s contract shows this is `IsBlank`.
    if IsBlank(transcript) then SummaryRun(None, Ok(NoSpeechSummary))
    else
      var prompt := PromptInput(transcript);
      match reply
      case Err(msg) => SummaryRun(Some(prompt), Err(msg))
      case Ok(content) => SummaryRun(Some(prompt), Ok(Strip(content.GetOr(""))))
  }

  /** The summary `process_meeting` keeps: `_summarize`'s result, or the fallback text when it raised. */
  function SummaryText(transcript: string, reply: Outcome<Option<string>>): (r: string)
    ensures IsBlank(transcript) ==> r == NoSpeechSummary
    ensures !IsBlank(transcript) && reply.Err? ==> r == SummaryUnavailable
    ensures !IsBlank(transcript) && reply.Ok? ==> r == Strip(reply.value.GetOr(""))
  {
    match Summarize(transcript, reply).result
    case Ok(summary) => summary
    case Err(_) => SummaryUnavailable
  }

  /** The title of every push. */
  const PushTitle := "Meeting transcript ready"

  /** The Expo push endpoint. */
  const ExpoPushUrl := "https://exp.host/--/api/v2/push/send"

  /** The JSON payload of an Expo push; `meetingId` is `data.meetingId`. */
  datatype PushPayload = PushPayload(
    to: string,
    title: string,
    body: string,
    meetingId: string,
    channelId: string,
    priority: string)

  /**
   `_send_expo_push`'s payload: addressed to the token, deep-linking to the
   meeting, with a body of at most 101 characters that begins with the
   summary's first (up to) 100 characters.
   */
  function ExpoPushPayload(pushToken: string, meetingId: string, summary: string): (p: PushPayload)
    ensures p.to == pushToken && p.meetingId == meetingId && p.title == PushTitle
    ensures p.channelId == "default" && p.priority == "high"
    ensures |p.body| <= PushBodyLimit + 1
    ensures |summary| <= PushBodyLimit ==> p.body == summary
    ensures |summary| > PushBodyLimit ==>
      |p.body| == PushBodyLimit + 1 && p.body[..PushBodyLimit] == summary[..PushBodyLimit] && p.body[PushBodyLimit] == Ellipsis
  {
    PushPayload(pushToken, PushTitle, PushBody(summary), meetingId, "default", "high")
  }

  /**
   The outcomes of the handler's external calls. The two status writes go
   through `_set_meeting_status`, which catches every error; their outcomes
   are listed so that the model can show they change nothing.
   */
  datatype ProcessEnv = ProcessEnv(
    apiKeyConfigured: bool,                // OPENAI_API_KEY is set and not empty
    download: Outcome<seq<bv8>>,           // GET audio_url, raise_for_status, content
    transcription: Outcome<string>,        // _transcribe_audio
    completion: Outcome<Option<string>>,   // chat completion: message content
    dbUpdate: Outcome<()>,                 // update(...).eq("id", ...).execute()
    push: Outcome<()>,                     // _send_expo_push
    processingWrite: Outcome<()>,          // _set_meeting_status(id, "processing")
    failedWrite: Outcome<()>)              // _set_meeting_status(id, "failed")

  /** An external call the handler makes, in order. */
  datatype BackendCall =
    | SetStatus(meetingId: string, status: MeetingStatus)
    | Download(url: string)
    | Transcribe(audio: seq<bv8>)
    | Complete(prompt: string)
    | UpdateRow(meetingId: string, transcript: string, summary: string, status: MeetingStatus)
    | SendPush(url: string, payload: PushPayload)

  /** The handler's answer: the JSON success body, or an `HTTPException`. */
  datatype HttpResult =
    | Done(meetingId: string, status: MeetingStatus)
    | HttpError(code: int, detail: string)

  /** The calls made and the answer given. */
  datatype ProcessReport = ProcessReport(calls: seq<BackendCall>, response: HttpResult)

  /** The meeting statuses the handler writes, in order (the full update counts as one write). */
  function StatusWrites(calls: seq<BackendCall>): seq<MeetingStatus> {
    if calls == [] then [] else Written(calls[0]) + StatusWrites(calls[1..])
  }

  /** The status one call writes, if any. */
  function Written(c: BackendCall): seq<MeetingStatus> {
    match c
    case SetStatus(_, st) => [st]
    case UpdateRow(_, _, _, st) => [st]
    case _ => []
  }

  /** The statuses of `a + b` are those of `a` then those of `b`. */
  lemma {:induction false} StatusWritesAppend(a: seq<BackendCall>, b: seq<BackendCall>)
    ensures StatusWrites(a + b) == StatusWrites(a) + StatusWrites(b)
    decreases |a|
  {
    if a == [] {
      assert a + b == b;
    } else {
      assert (a + b)[0] == a[0];
      assert (a + b)[1..] == a[1..] + b;
      StatusWritesAppend(a[1..], b);
      calc {
        StatusWrites(a + b);
        Written(a[0]) + StatusWrites(a[1..] + b);
        Written(a[0]) + (StatusWrites(a[1..]) + StatusWrites(b));
        (Written(a[0]) + StatusWrites(a[1..])) + StatusWrites(b);
      }
    }
  }

  /** The handler has made a call of this kind. */
  predicate Transcribed(calls: seq<BackendCall>) { exists c :: c in calls && c.Transcribe? }
  predicate Completed(calls: seq<BackendCall>) { exists c :: c in calls && c.Complete? }
  predicate Pushed(calls: seq<BackendCall>) { exists c :: c in calls && c.SendPush? }

  /** The push `process_meeting` sends for a truthy token. */
  function PushCall(req: ProcessRequest, summary: string): BackendCall
    requires Truthy(req.pushToken)
  {
    SendPush(ExpoPushUrl, ExpoPushPayload(req.pushToken.value, req.meetingId, summary))
  }

  /**
   From the full update on: write transcript, summary and `processed` in one
   update; a failure answers 502 and writes nothing else. Then push when the
   token is truthy, ignoring how the push went.
   */
  function Finish(req: ProcessRequest, transcript: string, summary: string, env: ProcessEnv): (r: ProcessReport)
    ensures r.calls != [] && r.calls[0] == UpdateRow(req.meetingId, transcript, summary, Processed)
    ensures StatusWrites(r.calls) == [Processed]
    ensures !Transcribed(r.calls) && !Completed(r.calls)
    ensures Pushed(r.calls) <==> env.dbUpdate.Ok? && Truthy(req.pushToken)
    ensures forall c :: c in r.calls && c.SendPush? ==> Truthy(req.pushToken) && c == PushCall(req, summary)
    ensures env.dbUpdate.Err? ==> r.response == HttpError(502, "DB update failed: " + env.dbUpdate.msg)
    ensures env.dbUpdate.Ok? ==> r.response == Done(req.meetingId, Processed)
  {
    var update := UpdateRow(req.meetingId, transcript, summary, Processed);
    assert StatusWrites([update]) == [Processed];
    if env.dbUpdate.Err? then ProcessReport([update], HttpError(502, "DB update failed: " + env.dbUpdate.msg))
    else if Truthy(req.pushToken) then
      var push := PushCall(req, summary);
      var calls := [update, push];
      assert push in calls;
      assert calls[1..][1..] == [];
      ProcessReport(calls, Done(req.meetingId, Processed))
    else ProcessReport([update], Done(req.meetingId, Processed))
  }

  /**
   From a transcript on: ask the model unless the transcript is blank (an
   error there only changes the summary text), then finish.
   */
  function Summarised(req: ProcessRequest, transcript: string, env: ProcessEnv): (r: ProcessReport)
    ensures StatusWrites(r.calls) == [Processed]
    ensures !Transcribed(r.calls)
    ensures Completed(r.calls) <==> !IsBlank(transcript)
    ensures forall c :: c in r.calls && c.Complete? ==> c == Complete(PromptInput(transcript))
    ensures UpdateRow(req.meetingId, transcript, SummaryText(transcript, env.completion), Processed) in r.calls
    ensures forall c :: c in r.calls && c.UpdateRow? ==>
      c == UpdateRow(req.meetingId, transcript, SummaryText(transcript, env.completion), Processed)
    ensures Pushed(r.calls) <==> env.dbUpdate.Ok? && Truthy(req.pushToken)
    ensures forall c :: c in r.calls && c.SendPush? ==>
      Truthy(req.pushToken) && c == PushCall(req, SummaryText(transcript, env.completion))
    ensures env.dbUpdate.Err? ==> r.response == HttpError(502, "DB update failed: " + env.dbUpdate.msg)
    ensures env.dbUpdate.Ok? ==> r.response == Done(req.meetingId, Processed)
  {
    var run := Summarize(transcript, env.completion);
    var tail := Finish(req, transcript, SummaryText(transcript, env.completion), env);
    if run.prompt.None? then tail
    else
      var ask := Complete(run.prompt.value);
      assert ask == Complete(PromptInput(transcript));
      CompletionFirst(ask, tail.calls);
      ProcessReport([ask] + tail.calls, tail.response)
  }

  /**
   A completion call put in front of a call log writes no status, and the
   log then holds the completion and exactly the calls it held before.
   */
  lemma CompletionFirst(ask: BackendCall, calls: seq<BackendCall>)
    requires ask.Complete?
    ensures StatusWrites([ask] + calls) == StatusWrites(calls)
    ensures forall c :: c in [ask] + calls <==> c == ask || c in calls
  {
    assert ([ask] + calls)[1..] == calls;
  }

  /**
   From the downloaded audio on (the API key being set): a transcription
   error writes `failed` and answers 502; otherwise summarise and finish.
   */
  function AfterDownload(req: ProcessRequest, audio: seq<bv8>, env: ProcessEnv): (r: ProcessReport)
    ensures r.calls != [] && r.calls[0] == Transcribe(audio)
    ensures env.transcription.Err? ==>
      && r.calls == [Transcribe(audio), SetStatus(req.meetingId, Failed)]
      && StatusWrites(r.calls) == [Failed]
      && r.response == HttpError(502, "Transcription failed: " + env.transcription.msg)
    ensures env.transcription.Ok? ==> r == Before(Transcribe(audio), Summarised(req, env.transcription.value, env))
  {
    var call := Transcribe(audio);
    match env.transcription
    case Err(msg) =>
      var calls := [call, SetStatus(req.meetingId, Failed)];
      assert calls[1..][1..] == [];
      assert StatusWrites(calls[1..]) == [Failed];
      ProcessReport(calls, HttpError(502, "Transcription failed: " + msg))
    case Ok(transcript) => Before(call, Summarised(req, transcript, env))
  }

  /** `r` preceded by the call `c`. */
  function Before(c: BackendCall, r: ProcessReport): ProcessReport {
    ProcessReport([c] + r.calls, r.response)
  }

  /** The calls before any transcription: mark the meeting `processing`, then download. */
  function Opening(req: ProcessRequest): seq<BackendCall> {
    [SetStatus(req.meetingId, Processing), Download(req.audioUrl)]
  }

  /**
   `process_meeting`. It writes `processing` before the download. A download
   error writes `failed` and answers 502. A missing API key answers 503 and
   leaves the status at `processing`. Otherwise it goes on as `AfterDownload`.
   */
  function ProcessMeeting(req: ProcessRequest, env: ProcessEnv): (r: ProcessReport)
    ensures |r.calls| >= 2 && r.calls[..2] == Opening(req)
    ensures env.download.Err? ==>
      && r.calls == Opening(req) + [SetStatus(req.meetingId, Failed)]
      && r.response == HttpError(502, "Failed to download audio: " + env.download.msg)
    ensures env.download.Ok? && !env.apiKeyConfigured ==>
      r == ProcessReport(Opening(req), HttpError(503, "OPENAI_API_KEY not configured"))
    ensures env.download.Ok? && env.apiKeyConfigured ==>
      && var tail := AfterDownload(req, env.download.value, env);
      && r == ProcessReport(Opening(req) + tail.calls, tail.response)
  {
    match env.download
    case Err(msg) =>
      ProcessReport(Opening(req) + [SetStatus(req.meetingId, Failed)], HttpError(502, "Failed to download audio: " + msg))
    case Ok(audio) =>
      if !env.apiKeyConfigured then ProcessReport(Opening(req), HttpError(503, "OPENAI_API_KEY not configured"))
      else
        var tail := AfterDownload(req, audio, env);
        ProcessReport(Opening(req) + tail.calls, tail.response)
  }

  /** The transcript the handler obtained, when it got that far. */
  predicate HasTranscript(env: ProcessEnv) {
    env.download.Ok? && env.apiKeyConfigured && env.transcription.Ok?
  }

  /**
   The status writes of one request: `processing` first, then `failed` after
   a download or transcription error, nothing more after a missing API key,
   and `processed` (in the full update) once a transcript exists.
   */
  lemma {:induction false} ProcessMeetingStatusWrites(req: ProcessRequest, env: ProcessEnv)
    ensures StatusWrites(ProcessMeeting(req, env).calls) ==
      if env.download.Err? then [Processing, Failed]
      else if !env.apiKeyConfigured then [Processing]
      else if env.transcription.Err? then [Processing, Failed]
      else [Processing, Processed]
  {
    var r := ProcessMeeting(req, env);
    var o := Opening(req);
    assert o[1..][1..] == [];
    assert StatusWrites(o[1..]) == [];
    assert StatusWrites(o) == [Processing];
    if env.download.Err? {
      StatusWritesAppend(o, [SetStatus(req.meetingId, Failed)]);
    } else if env.apiKeyConfigured {
      var tail := AfterDownload(req, env.download.value, env);
      StatusWritesAppend(o, tail.calls);
      if env.transcription.Ok? {
        var rest := Summarised(req, env.transcription.value, env);
        assert tail.calls[1..] == rest.calls;
      }
    }
  }

  /**
   The answer of one request: 502 after a download, transcription or
   database error, 503 when the API key is missing, and the processed body
   otherwise. Exactly the download and transcription errors write `failed`.
   */
  lemma ProcessMeetingResponse(req: ProcessRequest, env: ProcessEnv)
    ensures var r := ProcessMeeting(req, env);
      && (r.response == Done(req.meetingId, Processed) <==> HasTranscript(env) && env.dbUpdate.Ok?)
      && (r.response.HttpError? && r.response.code == 503 <==> env.download.Ok? && !env.apiKeyConfigured)
      && (r.response.HttpError? && r.response.code == 502 <==>
            env.download.Err? || (env.apiKeyConfigured && (env.transcription.Err? || env.dbUpdate.Err?)))
      && (Failed in StatusWrites(r.calls) <==> env.download.Err? || (env.apiKeyConfigured && env.transcription.Err?))
  {
    ProcessMeetingStatusWrites(req, env);
  }

  /** Only a reached download with the API key set is transcribed. */
  lemma ProcessMeetingTranscribes(req: ProcessRequest, env: ProcessEnv)
    ensures Transcribed(ProcessMeeting(req, env).calls) <==> env.download.Ok? && env.apiKeyConfigured
  {
    var r := ProcessMeeting(req, env);
    var o := Opening(req);
    assert !Transcribed(o) by { assert forall c :: c in o ==> !c.Transcribe?; }
    if env.download.Err? {
      assert forall c :: c in r.calls ==> !c.Transcribe?;
    } else if env.apiKeyConfigured {
      assert r.calls[2] in r.calls;
    }
  }

  /**
   Once a transcript exists, the one full update stores it with the summary
   `_summarize` gave, or the fallback text if summarising raised; the model is
   asked only for a non-blank transcript, with its first 12000 characters.
   */
  lemma ProcessMeetingStoresSummary(req: ProcessRequest, env: ProcessEnv)
    requires HasTranscript(env)
    ensures var r := ProcessMeeting(req, env); var t := env.transcription.value;
      && UpdateRow(req.meetingId, t, SummaryText(t, env.completion), Processed) in r.calls
      && (forall c :: c in r.calls && c.UpdateRow? ==> c == UpdateRow(req.meetingId, t, SummaryText(t, env.completion), Processed))
      && (Completed(r.calls) <==> !IsBlank(t))
      && (forall c :: c in r.calls && c.Complete? ==> c == Complete(PromptInput(t)))
  {
    var r := ProcessMeeting(req, env);
    var t := env.transcription.value;
    var rest := Summarised(req, t, env);
    var pre := Opening(req) + [Transcribe(env.download.value)];
    assert r.calls == pre + rest.calls by {
      assert r.calls == Opening(req) + ([Transcribe(env.download.value)] + rest.calls);
    }
    assert forall c :: c in pre ==> !c.UpdateRow? && !c.Complete?;
    assert forall c :: c in r.calls && (c.UpdateRow? || c.Complete?) ==> c in rest.calls;
    assert UpdateRow(req.meetingId, t, SummaryText(t, env.completion), Processed) in r.calls;
    if Completed(rest.calls) {
      var c :| c in rest.calls && c.Complete?;
      assert c in r.calls;
    }
  }

  /** Without a transcript the handler stops before the update, so it sends no push. */
  lemma NoPushWithoutTranscript(req: ProcessRequest, env: ProcessEnv)
    requires !HasTranscript(env)
    ensures var r := ProcessMeeting(req, env);
      && (forall c :: c in r.calls ==> !c.SendPush?)
      && r.response != Done(req.meetingId, Processed)
  {
    var r := ProcessMeeting(req, env);
    var o := Opening(req);
    if env.download.Err? {
      assert r.calls == o + [SetStatus(req.meetingId, Failed)];
    } else if !env.apiKeyConfigured {
      assert r.calls == o;
    } else {
      assert r.calls == o + [Transcribe(env.download.value), SetStatus(req.meetingId, Failed)];
    }
  }

  /** With a transcript, the pushes and the answer are those of the summarising stage. */
  lemma PushesOfTranscript(req: ProcessRequest, env: ProcessEnv)
    requires HasTranscript(env)
    ensures var r := ProcessMeeting(req, env); var rest := Summarised(req, env.transcription.value, env);
      && r.response == rest.response
      && (forall c: BackendCall :: c.SendPush? ==> (c in r.calls <==> c in rest.calls))
  {
    var r := ProcessMeeting(req, env);
    var rest := Summarised(req, env.transcription.value, env);
    var pre := Opening(req) + [Transcribe(env.download.value)];
    assert r.calls == pre + rest.calls by {
      assert r.calls == Opening(req) + ([Transcribe(env.download.value)] + rest.calls);
    }
    assert forall c :: c in pre ==> !c.SendPush?;
  }

  /**
   A push is sent only after a successful update and only for a truthy
   token, carrying the stored summary and the meeting id.
   */
  lemma ProcessMeetingPushes(req: ProcessRequest, env: ProcessEnv)
    ensures var r := ProcessMeeting(req, env);
      && (Pushed(r.calls) <==> r.response == Done(req.meetingId, Processed) && Truthy(req.pushToken))
      && (forall c :: c in r.calls && c.SendPush? ==>
            HasTranscript(env) && Truthy(req.pushToken) &&
            c == PushCall(req, SummaryText(env.transcription.value, env.completion)))
  {
    var r := ProcessMeeting(req, env);
    if !HasTranscript(env) {
      NoPushWithoutTranscript(req, env);
    } else {
      PushesOfTranscript(req, env);
      var rest := Summarised(req, env.transcription.value, env);
      if Pushed(rest.calls) {
        var c :| c in rest.calls && c.SendPush?;
        assert c in r.calls;
      }
    }
  }

  /**
   `_set_meeting_status` never raises and a push error is only logged: the
   outcomes of those calls change neither the calls made nor the answer.
   */
  lemma IgnoredFailuresChangeNothing(req: ProcessRequest, env: ProcessEnv, w1: Outcome<()>, w2: Outcome<()>, p: Outcome<()>)
    ensures ProcessMeeting(req, env.(processingWrite := w1, failedWrite := w2, push := p)) == ProcessMeeting(req, env)
  {
  }
}
