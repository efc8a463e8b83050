# Meeting notes: recording hook, processing pipeline and background-audio plugin

This project models three decision cores of the meeting-notes app in Dafny:

- **The client recording hook** (`useRecording` in `lib/recording.ts`). It holds a
  recording reference, the `isRecording` and `isPaused` flags, the `durationSec`
  counter driven by a one-second interval, and the last error. Its operations are
  start, pause, resume and stop. Stop runs a short-circuiting chain of steps:
  finalise the recording, read its URI, upload it create-only under
  `meetings/<userId>/<Date.now()>.m4a`, insert a `pending` meeting row, get the
  push token, POST to the backend, and on a non-OK answer mark the row `failed`.
- **The backend handler** (`process_meeting` in `backend/main.py`). It writes
  `processing`, downloads the audio, checks the OpenAI key, transcribes and
  summarises, then stores transcript, summary and `processed` in one update and
  optionally sends an Expo push. The model fixes the order of its status writes,
  its HTTP answer (200, 502 or 503), and the summary it stores. The string helpers
  are modelled exactly: Python's `strip`, the 12000-character prompt cut, and the
  100-character push body.
- **The Expo config plugin** (`plugins/withBackgroundAudio.js`). It makes guarded
  insertions into the iOS Info.plist and the Android manifest.

Every external call is a supplied `Outcome` value, `Ok(value)` or `Err(msg)`:
Expo AV, Supabase storage and database, `fetch`, httpx, and the OpenAI calls. An
interval firing is an explicit event. Each `setInterval` handle has an identity.
The hook state records which handles are still running (`live`) and which one
the hook remembers (`intervalRef`). This is what lets the model show the
orphaned intervals the code can create.

Files:

- `outcomes.dfy`: `Option`, `Outcome`, the meeting status enum of `lib/types.ts`,
  and the row and request shapes.
- `recording_hook.dfy`: the hook's transitions and the staged stop pipeline.
- `recording_trace.dfy`: runs over event sequences, and the lemmas about
  duration, orphaned intervals and uploads.
- `backend_text.dfy`: `isspace`, `strip`, the prompt cut and the push body.
- `backend.dfy`: `_summarize`, the push payload and `process_meeting`, split into
  its stages.
- `background_audio.dfy`: the iOS step, the Android step, the combined plugin and
  idempotence.

The code behaves as follows, and the model follows it:

- `startRecording` does not reject while a recording is held, and does not check
  for a signed-in user. A second start replaces the held reference. It also
  installs a second interval without clearing the first.
- `resumeRecording` does not check `isPaused`. Resuming while recording leaves
  the earlier interval running.
- There is no distinct upload-conflict error. Any upload error is rethrown with
  its own message.
- Only a non-OK backend answer is turned into a `failed` write. If `fetch`
  itself throws, or if reading the error text throws, the error is stored in
  `error` and rethrown. No `failed` write happens in those cases.
- A rejection of `getExpoPushToken` aborts the stop after the row was inserted.
  The POST is never sent.
- Stop does not reset `durationSec`.

## Model

| member | source | states |
|---|---|---|
| Outcomes.ParseStatus | lib/types.ts:8 | Reading a status string back gives a status only for one of the four stored strings, and that status prints as the string read |
| Outcomes.StatusRoundTrip | lib/types.ts:8 | The four status strings are distinct, so storing a status and reading it back gives the same status |
| RecordingHook.StartRecording | lib/recording.ts:21-49 | If a permission, audio-mode or create call rejects, only `error` changes and the error is rethrown. On success the new recording is held (replacing any held one), `isRecording` is true, `isPaused` is false, the counter is 0, and a fresh interval is added to the running ones without clearing any |
| RecordingHook.Tick | lib/recording.ts:42-44 | A firing adds exactly one to `durationSec` if its interval is still running, and does nothing if it was cleared. Nothing else changes |
| RecordingHook.PauseRecording | lib/recording.ts:127-137 | With no held recording it is a no-op. If `pauseAsync` rejects, the state is unchanged. Otherwise only the remembered interval is cleared and `isPaused` is set. The counter, the held recording, `isRecording`, `error` and the next handle are kept |
| RecordingHook.ResumeRecording | lib/recording.ts:139-148 | With no held recording it is a no-op. If `startAsync` rejects, the state is unchanged. Otherwise `isPaused` is cleared and a new interval is installed without clearing a running one. The counter is kept, not reset, and the held recording, `isRecording` and `error` are kept |
| RecordingHook.UploadKeyDistinct | lib/recording.ts:68 | Two uploads by the same user at different instants get different object keys |
| RecordingHook.Transfer | lib/recording.ts:65-78 | Given a truthy URI, the file is uploaded exactly when it could be read. The upload is create-only (`upsert` false) to bucket `recordings` under `meetings/<userId>/<now>.m4a`. A row is inserted exactly when the upload succeeded |
| RecordingHook.Register | lib/recording.ts:80-98 | The inserted row has the user id, `pending`, the public URL of the uploaded path, and null title, summary and transcript. An insert error or a missing id ends the run before the POST. A missing id throws "No meeting id returned" |
| RecordingHook.Notify | lib/recording.ts:100-120 | The POST carries the audio URL, the meeting id and the push token. The id is returned exactly when nothing threw. A `failed` update for that id happens exactly on a non-OK answer whose text was read, and it is the last call |
| RecordingHook.Pipeline | lib/recording.ts:63-120 | Finalising comes first. A missing or empty URI throws "No recording URI" with no call after finalising. A row is created iff the upload succeeded. The backend is called iff a truthy row id came back and the token was obtained. `failed` is written iff the backend answered non-OK and its text was read. The meeting id is returned whatever the backend said. The run fails iff some call fails, and then with the message of the first failure in call order: a rejection's own message, "No recording URI", "No meeting id returned", or an unreadable non-OK answer's text error |
| RecordingHook.TransferUploadsAtMostOnce | lib/recording.ts:63-78 | Once a URI is in hand, the transfer makes at most one upload call |
| RecordingHook.PipelineUploadsAtMostOnce | lib/recording.ts:63-78 | One stop makes at most one upload call |
| RecordingHook.StopRecording | lib/recording.ts:51-125 | With no held recording or no user it returns null, calls nothing and changes nothing. Otherwise the remembered interval, the reference, `isRecording` and `isPaused` are cleared whatever happens next. The counter is kept. The pipeline's id is returned, or its error is stored in `error` and rethrown. The rethrown error is the pipeline's own message, which is the first failing call's |
| RecordingHook.ClearError | lib/recording.ts:19 | `clearError` empties `error` and changes nothing else |
| RecordingTrace.TicksCountLiveFirings | lib/recording.ts:42-44 | Over any run of firings the counter grows by exactly the number of firings from running intervals, and no external call is made |
| RecordingTrace.PauseFreezesDuration | lib/recording.ts:127-137 | With no orphaned interval, a successful pause stops every interval, so the counter stays frozen through any later firings |
| RecordingTrace.ResumeAfterPauseHasNoOrphans | lib/recording.ts:139-148 | Resuming after a clean pause leaves exactly one running interval, the remembered one |
| RecordingTrace.PauseResumeDuration | lib/recording.ts:37-148 | Start, a seconds recorded, pause, any firings, resume, b seconds recorded: the counter reads a + b, with the pause excluded |
| RecordingTrace.FiveThenThreeIsEight | lib/recording.ts:37-148 | Five seconds recorded, ten paused, three more: the counter reads 8 |
| RecordingTrace.DoubleStartOrphansTicker | lib/recording.ts:21-137 | Two successful starts hold the second recording and run two intervals. A later pause leaves the first one running, so the counter still grows while paused |
| RecordingTrace.ResumeWithoutPauseOrphansTicker | lib/recording.ts:127-148 | Resuming while an interval runs adds a second one. A later pause clears only the newer one, and the older one keeps adding to the counter |
| RecordingTrace.StopLeavesOrphanRunning | lib/recording.ts:55-61 | Stop clears only the remembered interval. An orphaned one keeps adding to the counter after stop |
| RecordingTrace.StepKeepsClean | lib/recording.ts:21-148 | With Start only while not recording and Resume only while paused, as the record screen (`app/(tabs)/index.tsx`, lines 69 and 85) offers them, and with each call finishing before the next one is made: every allowed event keeps the hook free of orphaned intervals, with a recording held exactly while recording and no interval running while paused or stopped |
| RecordingTrace.RunKeepsClean | lib/recording.ts:21-148 | When each call finishes before the next one is made, every run of events the screen allows keeps the hook clean in that sense |
| RecordingTrace.GuardedPauseFreezesDuration | lib/recording.ts:127-148 | When each call finishes before the next one is made, on every run the screen allows from a fresh hook, once the hook is paused any number of firings leaves the state, and so the counter, as it is |
| RecordingTrace.UploadsBoundedByRecordings | lib/recording.ts:21-78 | Over any run, uploads plus the recording still held never exceed the successful starts plus the recording held at the outset. So there is at most one upload per created recording |
| RecordingTrace.SecondStopIsNull | lib/recording.ts:52-61 | After a stop that had a recording and a user, the next stop returns null and calls nothing |
| BackendText.Strip | backend/main.py:141 | `strip` returns a slice of its input. Only whitespace (Python's `isspace` set) is removed before and after it. The result neither starts nor ends with whitespace, and it is empty iff the input is all whitespace |
| BackendText.StripIdempotent | backend/main.py:151 | Stripping a stripped string changes nothing |
| BackendText.PromptInput | backend/main.py:147 | The model input is the prefix of the transcript of length min(len, 12000): the whole transcript iff it has at most 12000 characters, otherwise exactly its first 12000 |
| BackendText.PromptInputIdempotent | backend/main.py:147 | Cutting a cut transcript again changes nothing |
| BackendText.PromptInputIgnoresTail | backend/main.py:147 | Characters after the first 12000 never reach the model: appending to a long transcript leaves the model input unchanged |
| BackendText.PushBody | backend/main.py:164 | The push body has at most 101 characters and starts with the summary's first min(len, 100) characters. It is the summary itself when that has at most 100 characters. It ends in an ellipsis at position 100 iff the summary was longer |
| Backend.Summarize | backend/main.py:139-151 | The model is called iff the transcript is not all whitespace. A blank transcript summarises to "No speech detected.". The prompt is the transcript's prefix of at most 12000 characters. A model error is raised, and a reply is stripped |
| Backend.SummaryText | backend/main.py:96-100 | The stored summary is the no-speech text for a blank transcript, "(Summary unavailable)" when summarising raised, and the stripped reply otherwise |
| Backend.ExpoPushPayload | backend/main.py:161-172 | The payload goes to the token, with `data.meetingId` equal to the meeting id, the fixed title, channel "default" and priority "high". Its body has at most 101 characters and keeps the summary's first 100 |
| Backend.Finish | backend/main.py:102-122 | One update writes transcript, summary and `processed`. A DB error answers 502 and sends no push. A push is sent iff the update succeeded and the token is truthy, and its outcome is ignored |
| Backend.Summarised | backend/main.py:95-122 | After a transcript: the model is asked iff the transcript is not blank. Exactly one update stores the transcript and the kept summary. The push and the answer are as in `Finish` |
| Backend.AfterDownload | backend/main.py:85-93 | A transcription error writes `failed` and answers 502 "Transcription failed: ...". Otherwise processing continues with the transcript |
| Backend.ProcessMeeting | backend/main.py:61-122 | `processing` is written before the download is attempted. A download error writes `failed` and answers 502. A missing API key answers 503 after the download and writes nothing more |
| Backend.ProcessMeetingStatusWrites | backend/main.py:70-113 | The status writes are [processing, failed] after a download or transcription error, [processing] after a missing key, and [processing, processed] once a transcript exists |
| Backend.ProcessMeetingResponse | backend/main.py:72-122 | The answer is processed iff transcript and DB update succeeded, 503 iff the key is missing after a download, and 502 iff download, transcription or update failed. `failed` is written iff download or transcription failed, never on a DB error |
| Backend.ProcessMeetingTranscribes | backend/main.py:82-89 | Transcription is attempted iff the download succeeded and the API key is set |
| Backend.ProcessMeetingStoresSummary | backend/main.py:96-110 | Once a transcript exists, the single update stores it with the kept summary. The model is asked iff the transcript is not blank, with its first 12000 characters |
| Backend.ProcessMeetingPushes | backend/main.py:115-122 | A push is sent iff the answer is processed and the token is truthy. It carries the stored summary and the meeting id |
| Backend.IgnoredFailuresChangeNothing | backend/main.py:115-158 | The outcomes of the two status writes and of the push change neither the calls made nor the answer: `_set_meeting_status` never raises and push errors are swallowed |
| BackgroundAudio.WithBackgroundAudioIOS | plugins/withBackgroundAudio.js:17-37 | Afterwards `UIBackgroundModes` exists and contains 'audio'. Existing modes stay first and in order. 'audio' is appended only when absent. The usage text is set to the default only when falsy, and other keys are untouched |
| BackgroundAudio.IOSIdempotent | plugins/withBackgroundAudio.js:22-33 | Running the iOS step on its own output changes nothing |
| BackgroundAudio.AddMissing | plugins/withBackgroundAudio.js:55-59 | The permission loop keeps the old list as a prefix, and every required name is declared afterwards |
| BackgroundAudio.AddMissingAppendsUndeclared | plugins/withBackgroundAudio.js:55-59 | For distinct names, the loop (which checks the growing list) appends exactly the names the original list lacks, in order |
| BackgroundAudio.AddMissingNoop | plugins/withBackgroundAudio.js:55-59 | A list that already declares every required name gains nothing |
| BackgroundAudio.PermissionMerge | plugins/withBackgroundAudio.js:47-60 | The merged permission list is the old list followed by the elements of the required names it lacked, in the required order. Those names are distinct, so nothing is added for a present name and nothing is added twice |
| BackgroundAudio.AddService | plugins/withBackgroundAudio.js:63-77 | The recording service (exported false, foreground type microphone) is appended only if no service has its name. Existing services stay in order, and the service is declared afterwards |
| BackgroundAudio.WithBackgroundAudioAndroid | plugins/withBackgroundAudio.js:39-81 | Without a main application the manifest is returned unchanged. Otherwise `uses-permission` is set to the merged list, the main application gets the service step, and the other applications and attributes are untouched |
| BackgroundAudio.AndroidDeclaresEverything | plugins/withBackgroundAudio.js:47-77 | After the Android step all four permissions and the recording service are declared |
| BackgroundAudio.AndroidKeepsApplications | plugins/withBackgroundAudio.js:63-77 | The main application's old services stay first and in order, its other attributes and the other applications are untouched |
| BackgroundAudio.AndroidKeepsExisting | plugins/withBackgroundAudio.js:47-77 | The Android step only adds: the old permissions stay first and in order, and so does everything `AndroidKeepsApplications` keeps and the root element's other attributes |
| BackgroundAudio.AndroidIdempotent | plugins/withBackgroundAudio.js:42-77 | Running the Android step on its own output changes nothing |
| BackgroundAudio.WithBackgroundAudio | plugins/withBackgroundAudio.js:83-87 | After the plugin the plist lists the audio mode after the modes it had, keeps a truthy usage text and otherwise has a non-empty one, and keeps its other keys. A manifest without a main application is left alone. Otherwise it keeps everything it declared and declares all four permissions and the recording service |
| BackgroundAudio.WithBackgroundAudioIdempotent | plugins/withBackgroundAudio.js:83-87 | Applying the plugin twice gives the same config as applying it once |

## Left out

- Audio-mode and background-capture settings (`lib/recording.ts:23-32`): these are platform configuration with nothing to check. `requestPermissionsAsync` and `setAudioModeAsync` appear only as outcomes that may reject. A denied permission that resolves is not an error in the code either.
- Timing: the one-second cadence of `setInterval`, wall-clock time and `Date.now()` are inputs. An interval firing is an explicit event, so `durationSec` counts firings, not real elapsed time.
- Concurrency: React state batching and overlapping async calls of the hook are not modelled. Each operation is one atomic transition, and its awaits happen in program order.
- The `failed` update in `stopRecording` is recorded as a call. Its result is not modelled, because the code never reads it.
- `getPublicUrl` is a supplied function of the uploaded path. It cannot fail, and the code checks no error for it.
- `lib/notifications.ts` is not part of this model. The push token is an outcome: a token, null, or a rejection.
- `_transcribe_audio` response coercion (`backend/main.py:125-136`) is a library wrapper. Its result is the transcription outcome.
- The OpenAI and Supabase clients, httpx timeouts, logging and the `updated_at` timestamp of the backend update are not modelled. The API key is a flag.
- The `/health` endpoint, the app lifespan, and environment loading in `backend/main.py` are not modelled.
- `withInfoPlist` and `withAndroidManifest` register mods that Expo runs later. The model applies each mod function directly to the plist or manifest it receives. `UIBackgroundModes` is assumed to be an array when present.
- `app/`, `lib/supabase.ts` and `app.config.js`: UI, navigation and client configuration. Of the record screen only the conditions under which it shows Start and Resume (`app/(tabs)/index.tsx:69-85`) are modelled, as the guards of a run.
- BackgroundAudio.AddMissingAppendsUndeclared: states the exact appended list only for a list of distinct names. The plugin's own list of four permissions is distinct (`RequiredDistinct`).
