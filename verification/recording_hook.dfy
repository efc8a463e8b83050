/**
 The client recording hook of lib/recording.ts as pure transitions.

 The hook holds a recording reference, the `isRecording` / `isPaused` flags,
 the `durationSec` counter, the interval handle that ticks it, and the last
 error message. Every awaited call into Expo, Supabase or `fetch` is replaced
 by a supplied `Outcome`; a `setInterval` callback firing is the explicit
 `Tick` transition.
 */
module RecordingHook {
  import opened Outcomes

  /** Identity of one `Audio.Recording` object returned by `createAsync`. */
  type RecordingId = nat

  /** Identity of one `setInterval` handle. */
  type TickerId = nat

  /**
   The hook's state. `live` is the set of intervals created and not yet
   cleared (each one keeps adding to `durationSec`); `intervalRef` is the one
   handle the hook remembers and can clear; `nextTicker` is the handle the
   next `setInterval` will return.
   */
  datatype HookState = HookState(
    held: Option<RecordingId>,
    isRecording: bool,
    isPaused: bool,
    durationSec: nat,
    intervalRef: Option<TickerId>,
    live: set<TickerId>,
    nextTicker: TickerId,
    error: Option<string>)

  /** The state of a freshly mounted hook. */
  const Initial := HookState(None, false, false, 0, None, {}, 0, None)

  /** Handles are issued in increasing order and the remembered one is still running. */
  predicate Valid(s: HookState) {
    && (forall t :: t in s.live ==> t < s.nextTicker)
    && (s.intervalRef.Some? ==> s.intervalRef.value in s.live)
  }

  /** `setInterval(...)` stored into the interval ref: a new running handle that the hook now remembers. */
  function InstallTicker(s: HookState): (r: HookState)
    requires Valid(s)
    ensures Valid(r)
    ensures s.nextTicker !in s.live && r.live == s.live + {s.nextTicker}
    ensures r.intervalRef == Some(s.nextTicker)
    ensures r.durationSec == s.durationSec && r.held == s.held
  {
    s.(intervalRef := Some(s.nextTicker), live := s.live + {s.nextTicker}, nextTicker := s.nextTicker + 1)
  }

  /** `if (ref) { clearInterval(ref); ref = null }`: stops only the remembered handle. */
  function ClearTicker(s: HookState): (r: HookState)
    requires Valid(s)
    ensures Valid(r)
    ensures r.intervalRef.None?
    ensures r.live == if s.intervalRef.Some? then s.live - {s.intervalRef.value} else s.live
    ensures r.durationSec == s.durationSec && r.held == s.held
  {
    if s.intervalRef.Some? then
      s.(intervalRef := None, live := s.live - {s.intervalRef.value})
    else s
  }

  /** A running interval fires: `setDurationSec((s) => s + 1)`. A cleared handle never fires. */
  function Tick(s: HookState, t: TickerId): (r: HookState)
    ensures r.durationSec == if t in s.live then s.durationSec + 1 else s.durationSec
    ensures r == s.(durationSec := r.durationSec)
  {
    if t in s.live then s.(durationSec := s.durationSec + 1) else s
  }

  // ---------------------------------------------------------------- start

  /** Outcomes of the three awaited calls of `startRecording`. */
  datatype StartEnv = StartEnv(
    permissions: Outcome<()>,      // Audio.requestPermissionsAsync()
    audioMode: Outcome<()>,        // Audio.setAudioModeAsync(...)
    create: Outcome<RecordingId>)  // Audio.Recording.createAsync(...)

  /** The first of the awaited calls that rejects, if any. */
  function StartFailure(env: StartEnv): Option<string> {
    if env.permissions.Err? then Some(env.permissions.msg)
    else if env.audioMode.Err? then Some(env.audioMode.msg)
    else if env.create.Err? then Some(env.create.msg)
    else None
  }

  /**
   `startRecording`. On success the new recording replaces whatever was held
   (nothing rejects an already running recording) and a new interval is
   installed without clearing the previous one. On a rejection the message is
   stored in `error` and rethrown, and nothing else changes.
   */
  function StartRecording(s: HookState, env: StartEnv): (r: (HookState, Outcome<()>))
    requires Valid(s)
    ensures Valid(r.0)
    ensures StartFailure(env).Some? ==>
      r.1 == Err(StartFailure(env).value) && r.0 == s.(error := Some(StartFailure(env).value))
    ensures StartFailure(env).None? ==>
      && r.1 == Ok(())
      && r.0.held == Some(env.create.value)
      && r.0.isRecording && !r.0.isPaused && r.0.durationSec == 0
      && r.0.intervalRef == Some(s.nextTicker)
      && s.nextTicker !in s.live && r.0.live == s.live + {s.nextTicker}
      && r.0.error == s.error
  {
    match StartFailure(env)
    case Some(msg) => (s.(error := Some(msg)), Err(msg))
    case None =>
      var s1 := s.(held := Some(env.create.value), isRecording := true, isPaused := false, durationSec := 0);
      (InstallTicker(s1), Ok(()))
  }

  // ------------------------------------------------------- pause / resume

  /**
   `pauseRecording`. With no held recording it does nothing. Otherwise it
   awaits `pauseAsync` (a rejection propagates without touching the state),
   clears the remembered interval and sets `isPaused`.
   */
  function PauseRecording(s: HookState, pauseCall: Outcome<()>): (r: (HookState, Outcome<()>))
    requires Valid(s)
    ensures Valid(r.0)
    ensures s.held.None? ==> r == (s, Ok(()))
    ensures s.held.Some? && pauseCall.Err? ==> r == (s, Err(pauseCall.msg))
    ensures s.held.Some? && pauseCall.Ok? ==>
      && r.1 == Ok(())
      && r.0.isPaused && r.0.intervalRef.None?
      && r.0.live == (if s.intervalRef.Some? then s.live - {s.intervalRef.value} else s.live)
      && r.0.durationSec == s.durationSec && r.0.held == s.held && r.0.isRecording == s.isRecording
      && r.0.nextTicker == s.nextTicker && r.0.error == s.error
  {
    if s.held.None? then (s, Ok(()))
    else if pauseCall.Err? then (s, Err(pauseCall.msg))
    else (ClearTicker(s).(isPaused := true), Ok(()))
  }

  /**
   `resumeRecording`. With no held recording it does nothing. Otherwise it
   awaits `startAsync`, clears `isPaused` and installs a new interval. It does
   not look at `isPaused` and does not clear a running interval first.
   */
  function ResumeRecording(s: HookState, startCall: Outcome<()>): (r: (HookState, Outcome<()>))
    requires Valid(s)
    ensures Valid(r.0)
    ensures s.held.None? ==> r == (s, Ok(()))
    ensures s.held.Some? && startCall.Err? ==> r == (s, Err(startCall.msg))
    ensures s.held.Some? && startCall.Ok? ==>
      && r.1 == Ok(())
      && !r.0.isPaused
      && r.0.intervalRef == Some(s.nextTicker)
      && s.nextTicker !in s.live && r.0.live == s.live + {s.nextTicker}
      && r.0.durationSec == s.durationSec && r.0.held == s.held
      && r.0.isRecording == s.isRecording && r.0.error == s.error
  {
    if s.held.None? then (s, Ok(()))
    else if startCall.Err? then (s, Err(startCall.msg))
    else (InstallTicker(s.(isPaused := false)), Ok(()))
  }

  // ----------------------------------------------------------------- stop

  /** The storage bucket recordings are uploaded to. */
  const Bucket := "recordings"

  /** The content type of an uploaded recording. */
  const AudioContentType := "audio/mp4"

  /** The message thrown when the finished recording has no URI. */
  const NoUriMessage := "No recording URI"

  /** The message thrown when the insert returns no meeting id. */
  const NoIdMessage := "No meeting id returned"

  /** The path of the backend endpoint, appended to the backend base URL. */
  const ProcessPath := "/process-meeting"

  /** The decimal digits of `n`, as JavaScript prints a non-negative integer. */
  function Decimal(n: nat): (r: string)
    ensures |r| >= 1
    ensures forall i :: 0 <= i < |r| ==> '0' <= r[i] <= '9'
    ensures n >= 10 ==> |r| >= 2
  {
    var d := ['0' + (n % 10) as char];
    if n < 10 then d else Decimal(n / 10) + d
  }

  /** Distinct numbers print differently. */
  lemma {:induction false} DecimalInjective(a: nat, b: nat)
    requires Decimal(a) == Decimal(b)
    ensures a == b
  {
    var da, db := Decimal(a), Decimal(b);
    assert da[|da| - 1] == db[|db| - 1];
    assert a % 10 == b % 10;
    if a >= 10 && b >= 10 {
      assert Decimal(a / 10) == da[..|da| - 1] == db[..|db| - 1] == Decimal(b / 10);
      DecimalInjective(a / 10, b / 10);
    } else if a < 10 && b >= 10 {
      assert false;
    } else if a >= 10 && b < 10 {
      assert false;
    }
  }

  /** The object key of an upload: `meetings/<userId>/<Date.now()>.m4a`. */
  function UploadKey(userId: string, nowMs: nat): (r: string)
    ensures |r| > |"meetings/" + userId + "/"| + 4
    ensures r[..|"meetings/" + userId + "/"|] == "meetings/" + userId + "/"
    ensures r[|r| - 4..] == ".m4a"
  {
    "meetings/" + userId + "/" + Decimal(nowMs) + ".m4a"
  }

  /** Two uploads by the same user at different instants never share a key. */
  lemma UploadKeyDistinct(userId: string, t1: nat, t2: nat)
    requires t1 != t2
    ensures UploadKey(userId, t1) != UploadKey(userId, t2)
  {
    if UploadKey(userId, t1) == UploadKey(userId, t2) {
      var p := "meetings/" + userId + "/";
      var k1, k2 := UploadKey(userId, t1), UploadKey(userId, t2);
      assert k1 == p + Decimal(t1) + ".m4a";
      assert k2 == p + Decimal(t2) + ".m4a";
      assert Decimal(t1) == k1[|p|..|k1| - 4];
      assert Decimal(t2) == k2[|p|..|k2| - 4];
      DecimalInjective(t1, t2);
    }
  }

  /** The response of the backend POST: its `ok` flag and what `text()` gives. */
  datatype Response = Response(ok: bool, text: Outcome<string>)

  /** Outcomes of the calls `stopRecording` makes after it has cleared the hook state. */
  datatype StopEnv = StopEnv(
    finalise: Outcome<()>,                   // recording.stopAndUnloadAsync()
    uri: Option<string>,                     // recording.getURI()
    nowMs: nat,                              // Date.now()
    blob: Outcome<seq<bv8>>,                 // fetch(uri) then .blob()
    upload: Outcome<string>,                 // storage upload, giving data.path
    publicUrl: string -> string,             // getPublicUrl(path).publicUrl
    insert: Outcome<Option<string>>,         // insert(...).select('id').single(), giving the id
    pushToken: Outcome<Option<string>>,      // getExpoPushToken()
    backendUrl: string,                      // BACKEND_URL
    post: Outcome<Response>)                 // fetch(`${BACKEND_URL}/process-meeting`)

  /** An external call made by `stopRecording`, in the order it is made. */
  datatype Effect =
    | Finalise(rec: RecordingId)
    | FetchBlob(uri: string)
    | Upload(bucket: string, key: string, bytes: seq<bv8>, contentType: string, upsert: bool)
    | Insert(row: MeetingRow)
    | FetchPushToken
    | Post(url: string, body: ProcessRequest)
    | UpdateStatus(meetingId: string, status: MeetingStatus)

  /** The calls made and the value returned (`Ok`) or thrown (`Err`). */
  datatype PipelineRun = PipelineRun(effects: seq<Effect>, result: Outcome<string>)

  /** `r` preceded by the call `e`. */
  function Before(e: Effect, r: PipelineRun): PipelineRun {
    PipelineRun([e] + r.effects, r.result)
  }

  /** The effect log has an upload / an insert / a POST / a status update in it. */
  predicate HasUpload(es: seq<Effect>) { exists e :: e in es && e.Upload? }
  predicate HasInsert(es: seq<Effect>) { exists e :: e in es && e.Insert? }
  predicate HasPost(es: seq<Effect>) { exists e :: e in es && e.Post? }
  predicate HasUpdate(es: seq<Effect>) { exists e :: e in es && e.UpdateStatus? }

  /** Number of upload calls in an effect log. */
  function Uploads(es: seq<Effect>): nat {
    if es == [] then 0 else (if es[0].Upload? then 1 else 0) + Uploads(es[1..])
  }

  /** A log without uploads counts none. */
  lemma {:induction false} NoUploadsCountZero(es: seq<Effect>)
    requires !HasUpload(es)
    ensures Uploads(es) == 0
  {
    if es != [] {
      assert es[0] in es;
      assert forall e :: e in es[1..] ==> e in es;
      NoUploadsCountZero(es[1..]);
    }
  }

  /** Every step up to and including the storage upload succeeded. */
  predicate UploadSucceeds(env: StopEnv) {
    env.finalise.Ok? && Truthy(env.uri) && env.blob.Ok? && env.upload.Ok?
  }

  /** The insert returned a truthy meeting id. */
  predicate InsertSucceeds(env: StopEnv) {
    UploadSucceeds(env) && env.insert.Ok? && Truthy(env.insert.value)
  }

  /** After the insert: the push token was obtained, so the backend POST is sent. */
  predicate TokenObtained(env: StopEnv) {
    env.pushToken.Ok?
  }

  /** After the POST: the backend answered with a non-OK status whose body could be read. */
  predicate Rejected(env: StopEnv) {
    env.pushToken.Ok? && env.post.Ok? && !env.post.value.ok && env.post.value.text.Ok?
  }

  /** After the POST: nothing was thrown, whatever the backend answered. */
  predicate Answered(env: StopEnv) {
    env.pushToken.Ok? && env.post.Ok? && (env.post.value.ok || env.post.value.text.Ok?)
  }

  /** The row the client inserts: status `pending`, the public URL of the uploaded path, nothing derived yet. */
  function NewRow(userId: string, env: StopEnv): MeetingRow
    requires UploadSucceeds(env)
  {
    MeetingRow(userId, None, None, None, env.publicUrl(env.upload.value), Pending)
  }

  /** The POST to the backend for meeting `id` whose audio is at `audioUrl`. */
  function PostFor(id: string, audioUrl: string, env: StopEnv): Effect
    requires env.pushToken.Ok?
  {
    Post(env.backendUrl + ProcessPath, ProcessRequest(audioUrl, id, env.pushToken.value))
  }

  /**
   The last steps, once the insert gave meeting `id`: get the push token,
   POST to the backend, and when the answer is not OK read its text and then
   mark the meeting `failed`. The id is returned whatever the backend said.
   */
  function Notify(id: string, audioUrl: string, env: StopEnv): (r: PipelineRun)
    ensures r.effects != [] && r.effects[0] == FetchPushToken
    ensures !HasUpload(r.effects) && !HasInsert(r.effects)
    ensures HasPost(r.effects) <==> TokenObtained(env)
    ensures forall e :: e in r.effects && e.Post? ==> TokenObtained(env) && e == PostFor(id, audioUrl, env)
    ensures HasUpdate(r.effects) <==> Rejected(env)
    ensures forall e :: e in r.effects && e.UpdateStatus? ==> e == UpdateStatus(id, Failed)
    ensures Rejected(env) ==> r.effects[|r.effects| - 1] == UpdateStatus(id, Failed)
    ensures r.result.Ok? <==> Answered(env)
    ensures r.result.Ok? ==> r.result.value == id
  {
    if env.pushToken.Err? then PipelineRun([FetchPushToken], Err(env.pushToken.msg))
    else
      var post := PostFor(id, audioUrl, env);
      var sent := [FetchPushToken, post];
      assert post in sent;
      if env.post.Err? then PipelineRun(sent, Err(env.post.msg))
      else if env.post.value.ok then PipelineRun(sent, Ok(id))
      else if env.post.value.text.Err? then PipelineRun(sent, Err(env.post.value.text.msg))
      else
        var mark := UpdateStatus(id, Failed);
        assert mark in sent + [mark] && post in sent + [mark];
        PipelineRun(sent + [mark], Ok(id))
  }

  /**
   The steps after a successful upload: insert the `pending` row; an insert
   error or a missing id ends the run before anything is sent to the backend.
   */
  function Register(userId: string, env: StopEnv): (r: PipelineRun)
    requires UploadSucceeds(env)
    ensures r.effects != [] && r.effects[0] == Insert(NewRow(userId, env))
    ensures !HasUpload(r.effects)
    ensures forall e :: e in r.effects && e.Insert? ==> e == Insert(NewRow(userId, env))
    ensures HasPost(r.effects) <==> InsertSucceeds(env) && TokenObtained(env)
    ensures forall e :: e in r.effects && e.Post? ==>
      InsertSucceeds(env) && TokenObtained(env) && e == PostFor(env.insert.value.value, NewRow(userId, env).audioUrl, env)
    ensures HasUpdate(r.effects) <==> InsertSucceeds(env) && Rejected(env)
    ensures InsertSucceeds(env) && Rejected(env) ==>
      r.effects[|r.effects| - 1] == UpdateStatus(env.insert.value.value, Failed)
    ensures r.result.Ok? <==> InsertSucceeds(env) && Answered(env)
    ensures r.result.Ok? ==> r.result.value == env.insert.value.value
    ensures env.insert.Ok? && !InsertSucceeds(env) ==> r.result == Err(NoIdMessage)
  {
    var ins := Insert(NewRow(userId, env));
    if env.insert.Err? then PipelineRun([ins], Err(env.insert.msg))
    else if !Truthy(env.insert.value) then PipelineRun([ins], Err(NoIdMessage))
    else Before(ins, Notify(env.insert.value.value, NewRow(userId, env).audioUrl, env))
  }

  /** The upload this user's recording is stored with when the blob could be read. */
  function UploadFor(userId: string, env: StopEnv): Effect
    requires env.blob.Ok?
  {
    Upload(Bucket, UploadKey(userId, env.nowMs), env.blob.value, AudioContentType, false)
  }

  /**
   The steps after a truthy URI is known: read the file, upload it create-only
   (`upsert: false`) under `meetings/<userId>/<now>.m4a`; an upload error ends
   the run before any row is inserted.
   */
  function Transfer(userId: string, env: StopEnv): (r: PipelineRun)
    requires env.finalise.Ok? && Truthy(env.uri)
    ensures r.effects != [] && r.effects[0] == FetchBlob(env.uri.value)
    ensures HasUpload(r.effects) <==> env.blob.Ok?
    ensures forall e :: e in r.effects && e.Upload? ==> env.blob.Ok? && e == UploadFor(userId, env)
    ensures HasInsert(r.effects) <==> UploadSucceeds(env)
    ensures forall e :: e in r.effects && e.Insert? ==> UploadSucceeds(env) && e == Insert(NewRow(userId, env))
    ensures HasPost(r.effects) <==> InsertSucceeds(env) && TokenObtained(env)
    ensures forall e :: e in r.effects && e.Post? ==>
      InsertSucceeds(env) && TokenObtained(env) && e == PostFor(env.insert.value.value, NewRow(userId, env).audioUrl, env)
    ensures HasUpdate(r.effects) <==> InsertSucceeds(env) && Rejected(env)
    ensures InsertSucceeds(env) && Rejected(env) ==>
      r.effects[|r.effects| - 1] == UpdateStatus(env.insert.value.value, Failed)
    ensures r.result.Ok? <==> InsertSucceeds(env) && Answered(env)
    ensures r.result.Ok? ==> r.result.value == env.insert.value.value
    ensures UploadSucceeds(env) && env.insert.Ok? && !InsertSucceeds(env) ==> r.result == Err(NoIdMessage)
  {
    var fetch := FetchBlob(env.uri.value);
    if env.blob.Err? then PipelineRun([fetch], Err(env.blob.msg))
    else if env.upload.Err? then
      var up := UploadFor(userId, env);
      assert up in [fetch, up];
      PipelineRun([fetch, up], Err(env.upload.msg))
    else
      var up := UploadFor(userId, env);
      var r := Before(fetch, Before(up, Register(userId, env)));
      assert up in r.effects;
      r
  }

  /**
   The error the `try` block of `stopRecording` throws, if any: the first
   failure in the order the calls are made. A missing or empty URI and a
   falsy meeting id throw the hook's own messages; every other failure is a
   rejected call, thrown with its own message. A non-OK answer is a failure
   only when its text cannot be read.
   */
  function StopFailure(env: StopEnv): Option<string> {
    if env.finalise.Err? then Some(env.finalise.msg)
    else if !Truthy(env.uri) then Some(NoUriMessage)
    else if env.blob.Err? then Some(env.blob.msg)
    else if env.upload.Err? then Some(env.upload.msg)
    else if env.insert.Err? then Some(env.insert.msg)
    else if !Truthy(env.insert.value) then Some(NoIdMessage)
    else if env.pushToken.Err? then Some(env.pushToken.msg)
    else if env.post.Err? then Some(env.post.msg)
    else if !env.post.value.ok && env.post.value.text.Err? then Some(env.post.value.text.msg)
    else None
  }

  /**
   The `try` block of `stopRecording`, after the hook state has been cleared:
   finalise the recording, read its URI (a missing or empty one throws), then
   transfer, register and notify.
   A meeting row is inserted exactly when the upload succeeded, the backend is
   called only for an inserted row, and a non-OK answer is the one case that
   writes `failed`.
   */
  function Pipeline(rec: RecordingId, userId: string, env: StopEnv): (r: PipelineRun)
    ensures r.effects != [] && r.effects[0] == Finalise(rec)
    ensures HasUpload(r.effects) <==> env.finalise.Ok? && Truthy(env.uri) && env.blob.Ok?
    ensures forall e :: e in r.effects && e.Upload? ==> env.blob.Ok? && e == UploadFor(userId, env)
    ensures HasInsert(r.effects) <==> UploadSucceeds(env)
    ensures forall e :: e in r.effects && e.Insert? ==> UploadSucceeds(env) && e == Insert(NewRow(userId, env))
    ensures HasPost(r.effects) <==> InsertSucceeds(env) && TokenObtained(env)
    ensures forall e :: e in r.effects && e.Post? ==>
      InsertSucceeds(env) && TokenObtained(env) && e == PostFor(env.insert.value.value, NewRow(userId, env).audioUrl, env)
    ensures HasUpdate(r.effects) <==> InsertSucceeds(env) && Rejected(env)
    ensures InsertSucceeds(env) && Rejected(env) ==>
      r.effects[|r.effects| - 1] == UpdateStatus(env.insert.value.value, Failed)
    ensures r.result.Ok? <==> InsertSucceeds(env) && Answered(env)
    ensures r.result.Ok? ==> r.result.value == env.insert.value.value
    ensures env.finalise.Ok? && !Truthy(env.uri) ==> r.effects == [Finalise(rec)] && r.result == Err(NoUriMessage)
    ensures UploadSucceeds(env) && env.insert.Ok? && !InsertSucceeds(env) ==> r.result == Err(NoIdMessage)
    ensures StopFailure(env).Some? ==> r.result == Err(StopFailure(env).value)
    ensures StopFailure(env).None? ==> r.result.Ok?
  {
    if env.finalise.Err? then PipelineRun([Finalise(rec)], Err(env.finalise.msg))
    else if !Truthy(env.uri) then PipelineRun([Finalise(rec)], Err(NoUriMessage))
    else Before(Finalise(rec), Transfer(userId, env))
  }

  /** The transfer makes exactly one upload call, after fetching the blob, or none when the fetch fails. */
  lemma {:induction false} TransferUploadsAtMostOnce(userId: string, env: StopEnv)
    requires env.finalise.Ok? && Truthy(env.uri)
    ensures Uploads(Transfer(userId, env).effects) <= 1
  {
    var t := Transfer(userId, env);
    if env.blob.Err? {
      assert t.effects[1..] == [];
    } else if env.upload.Err? {
      assert t.effects[1..] == [UploadFor(userId, env)];
      assert t.effects[1..][1..] == [];
      assert Uploads(t.effects[1..]) == 1;
    } else {
      var g := Register(userId, env);
      assert t.effects[1..][1..] == g.effects;
      NoUploadsCountZero(g.effects);
      assert Uploads(t.effects[1..]) == 1;
    }
  }

  /** A stop uploads at most once: the pipeline's only upload call is the one in `Transfer`. */
  lemma {:induction false} PipelineUploadsAtMostOnce(rec: RecordingId, userId: string, env: StopEnv)
    ensures Uploads(Pipeline(rec, userId, env).effects) <= 1
  {
    var r := Pipeline(rec, userId, env);
    if env.finalise.Err? || !Truthy(env.uri) {
      assert r.effects[1..] == [];
    } else {
      TransferUploadsAtMostOnce(userId, env);
      assert r.effects[1..] == Transfer(userId, env).effects;
    }
  }


  /** What one call of `stopRecording` leaves behind: the hook state, the calls made, and the value returned or thrown. */
  datatype StopReport = StopReport(state: HookState, effects: seq<Effect>, result: Outcome<Option<string>>)

  /**
   `stopRecording`. With no held recording or no signed-in user it returns
   null and does nothing. Otherwise it clears the interval, the recording
   reference, `isRecording` and `isPaused` before any await, then runs the
   pipeline; a thrown error is stored in `error` and rethrown. `durationSec`
   is left as it was.
   */
  function StopRecording(s: HookState, user: Option<string>, env: StopEnv): (r: StopReport)
    requires Valid(s)
    ensures Valid(r.state)
    ensures s.held.None? || user.None? ==> r == StopReport(s, [], Ok(None))
    ensures s.held.Some? && user.Some? ==>
      && r.state.held.None? && !r.state.isRecording && !r.state.isPaused
      && r.state.intervalRef.None?
      && r.state.live == (if s.intervalRef.Some? then s.live - {s.intervalRef.value} else s.live)
      && r.state.durationSec == s.durationSec
      && r.effects == Pipeline(s.held.value, user.value, env).effects
      && (r.result.Err? <==> Pipeline(s.held.value, user.value, env).result.Err?)
      && (r.result.Ok? ==> r.result == Ok(Some(Pipeline(s.held.value, user.value, env).result.value)) && r.state.error == s.error)
      && (r.result.Err? ==> r.result == Err(Pipeline(s.held.value, user.value, env).result.msg))
      && (r.result.Err? <==> StopFailure(env).Some?)
      && (r.result.Err? ==> r.result.msg == StopFailure(env).value && r.state.error == Some(r.result.msg))
  {
    if s.held.None? || user.None? then StopReport(s, [], Ok(None))
    else
      var cleared := ClearTicker(s).(held := None, isRecording := false, isPaused := false);
      var run := Pipeline(s.held.value, user.value, env);
      match run.result
      case Ok(id) => StopReport(cleared, run.effects, Ok(Some(id)))
      case Err(msg) => StopReport(cleared.(error := Some(msg)), run.effects, Err(msg))
  }

  /** `clearError`. */
  function ClearError(s: HookState): (r: HookState)
    ensures r.error.None? && r == s.(error := None)
  {
    s.(error := None)
  }
}
