# dichvideo backend: the decision layer, in Dafny

This project models the deterministic decisions of the dichvideo dubbing server.
The server takes an uploaded video, finds who speaks when (diarization), lets the
user map each speaker to an ElevenLabs voice, and then runs a pipeline:
transcribe, translate, synthesise one voice per speaker, mix, render and upload.
It reports progress by writing `status`, `progress` and `error_message` into the
project's database row.

Every foreign engine is a function-typed parameter (an oracle). These are the
video download, ffmpeg, the pyvideotrans diarizer, Whisper, the Google
translator, the ElevenLabs SDK, mixing, rendering, upload and the pyvideotrans
HTTP API. A call that can raise returns `Result`, and `Err` carries the
exception's text.

The database is the class `SupabaseClient.ProjectStore`:

- `projects` is the `projects` table, a map from id to record.
- `speakerRows` is the list of inserted `speakers` rows.
- A ghost log `writes` holds every update dictionary sent.
- The invariant `Valid()` says the table is always the initial table with the
  logged updates replayed.

Handlers and the pipeline are specified by the exact sequence of updates they
append to that log. The pipeline's result, and how far it got, are also tied
to the engines' answers through the reference function
`VideoProcessor.PipelineOutcome`. Lemmas then say what that sequence does to a
record.

Modules, one per source file:

- `Util`: `Option`, `Result`, Python truthiness of an optional string.
- `SupabaseClient`: the status update dictionary, `update_project`,
  `create_speakers` and the client singleton.
- `VideoProcessor`: the diarization conversion, the speaker summary, the three
  per-segment loops and the status trace of the full pipeline.
- `ElevenLabsService`: the voice catalogue, the file-based and hard-coded
  default voices, lookup by id, and the result of speech generation.
- `PyVideoTransClient`: the task-id classification of the four task requests,
  the health check and the polling loop `wait_for_task`.
- `ProjectRoutes`: the `analyze`, `process` and `status` handlers and the two
  background tasks.

## Model

| member | source | states |
|---|---|---|
| SupabaseClient.StatusUpdate | backend/app/services/supabase_client.py:34-51 | The update always holds status and progress. It holds `error_message` exactly when the message is truthy, and then the message itself. It holds `completed_at` ("now()") exactly when the status is completed, and no other column. |
| SupabaseClient.StatusUpdateKeys | backend/app/services/supabase_client.py:42-49 | The key set is {status, progress}, plus `error_message` for a truthy message, plus `completed_at` on "completed". |
| SupabaseClient.StatusUpdateEffect | backend/app/services/supabase_client.py:42-51 | Applied to a stored row, a status update sets status and progress. An empty or missing message leaves the stored message untouched. `completed_at` changes only on "completed". Every other column is unchanged. |
| SupabaseClient.SpeakerRecords | backend/app/services/supabase_client.py:55-65 | One record per input speaker, in order. Each has the project id, `speaker_label` from `label`, and duration and count with a missing value defaulting to 0. |
| SupabaseClient.ReplayKeys | backend/app/services/supabase_client.py:29-32 | Any sequence of updates leaves the set of project ids unchanged. |
| SupabaseClient.ReplayOthers | backend/app/services/supabase_client.py:29-32 | Updates filtered to other ids leave a project's row as it was. |
| SupabaseClient.ProjectStore.GetProject | backend/app/services/supabase_client.py:24-27 | The stored row for a known id, None exactly for an unknown one. |
| SupabaseClient.ProjectStore.UpdateProject | backend/app/services/supabase_client.py:29-32 | The table is the old table with the update applied to that id. The write is logged. The result is the updated row, or None (the empty dictionary) when no row matched. |
| SupabaseClient.ProjectStore.UpdateProjectStatus | backend/app/services/supabase_client.py:34-51 | Logs exactly one update, the dictionary `StatusUpdate` builds. Speaker rows are untouched. |
| SupabaseClient.ProjectStore.CreateSpeakers | backend/app/services/supabase_client.py:55-68 | Appends exactly the `SpeakerRecords` rows and returns them. The projects table and the update log are unchanged. |
| SupabaseClient.ClientSingleton.GetSupabase | backend/app/services/supabase_client.py:127-135 | The first call builds one client over the given tables. Every later call returns that same instance. At most one client is ever built, and the one returned always satisfies the store's invariant. |
| VideoProcessor.LanguageCode | backend/app/services/video_processor.py:92 | `language[:2]`: the first two characters, or the whole string when it is shorter. |
| VideoProcessor.DiarizedSegments | backend/app/services/video_processor.py:97-104 | One segment per diarizer item, in order. Each has the item's speaker, `start_ms = timing[0]`, `end_ms = timing[1]`, and no other key. |
| VideoProcessor.RunSpeakerDiarization | backend/app/services/video_processor.py:80-110 | The loop returns the converted segments of the diarizer's result. A diarizer exception is passed on with its text. |
| VideoProcessor.FirstOccurrences | backend/app/services/video_processor.py:116-124 | The summary's key order holds exactly the labels that occur in the segments. |
| VideoProcessor.GetSpeakersSummary | backend/app/services/video_processor.py:112-131 | The dictionary loop yields the reference summary. Its keys are the labels that occur, in first-occurrence order. Each entry has `label` = key, the sum of `end_ms - start_ms` and the count of that speaker's segments, and those segments in input order. |
| VideoProcessor.CountAllIsSummary | backend/app/services/video_processor.py:116-129 | Counting segments one at a time, as the loop does, gives the declarative per-label summary. |
| VideoProcessor.FirstOccurrencesDistinct | backend/app/services/video_processor.py:118-124 | No label appears twice in the key order. |
| VideoProcessor.SummarySize | backend/app/services/video_processor.py:112-131 | The number of entries equals the number of distinct labels and the length of the key order. |
| VideoProcessor.SummaryAddsUp | backend/app/services/video_processor.py:126-128 | Over the summary's keys, the segment counts sum to the number of segments and the durations sum to the total duration. |
| VideoProcessor.GroupingPartitions | backend/app/services/video_processor.py:116-128 | Grouping by any distinct list of labels that covers the segments counts every segment exactly once. |
| VideoProcessor.OfSpeakerMembers | backend/app/services/video_processor.py:129 | A speaker's segment list holds exactly the input segments carrying that label. |
| VideoProcessor.TranscribeSegments | backend/app/services/video_processor.py:140-175 | The loop yields exactly the reference result `TranscriptionOf`: the setup error, or the loop's result from the first segment on. |
| VideoProcessor.TranscribeFromSpec | backend/app/services/video_processor.py:153-171 | From any segment on, the loop succeeds exactly when Whisper succeeds on every later span. Each result segment is the input segment with that span's `text` added, in order. Otherwise the error is the first failure. |
| VideoProcessor.TranscriptionSpec | backend/app/services/video_processor.py:140-175 | A failed setup (import, model load, reading the audio) is re-raised, even for no segments. Otherwise the run succeeds exactly when Whisper succeeds on every segment's span. Each segment then gains its `text`, keeping length and order. Otherwise the error is the first failure. |
| VideoProcessor.TranslateSegments | backend/app/services/video_processor.py:184-209 | The loop yields exactly the reference result `TranslationOf`: the import error, or the loop's result from the first segment on. |
| VideoProcessor.TranslateFromSpec | backend/app/services/video_processor.py:189-203 | From any segment on: length, order and all other fields are kept. `translated_text` is "" when `text` is falsy, otherwise the translator's result if non-empty, else the original text. Fails exactly when a call on a later segment with text raises, with the first such failure. |
| VideoProcessor.TranslationSpec | backend/app/services/video_processor.py:184-209 | A failed import is re-raised, even when no segment has text. Otherwise the per-segment rule of `TranslateFromSpec` holds from the first segment, and the run fails exactly on the first translator exception. |
| VideoProcessor.GenerateMultiVoiceAudio | backend/app/services/video_processor.py:224-251 | The loop yields the reference `DubbedSegments`. Length and order are kept. Segment i gains `audio_path` exactly when all three hold: its speech text (`translated_text`, else `text`) is non-empty, its speaker has a voice, and synthesis succeeds. The path is `seg_{i:04d}_{speaker}.mp3` under `segment_audio`. Otherwise the segment is unchanged. |
| VideoProcessor.ZeroPad4Value | backend/app/services/video_processor.py:232 | `{i:04d}` consists of decimal digits that spell i. |
| VideoProcessor.SegmentAudioPathsDistinct | backend/app/services/video_processor.py:232 | Two segments with different indexes never share an audio file, whatever their speakers. |
| VideoProcessor.SourceAudio | backend/app/services/video_processor.py:48-78 | Succeeds exactly when the download returns and ffmpeg runs and leaves the output file. The audio is then `original_audio.wav` in the work directory. A download or ffmpeg exception is passed on with its text. A missing output file is the error "Failed to extract audio from video". |
| VideoProcessor.CheckpointWritesAt | backend/app/services/video_processor.py:388-431 | The k-th checkpoint update sets the k-th fixed status and progress, and no message. |
| VideoProcessor.PipelineSucceedsIff | backend/app/services/video_processor.py:386-444 | A run succeeds exactly when every stage succeeds: the audio is fetched, diarization, transcription, translation and mixing return, the rendered file exists, and the upload returns. The URL returned is the upload's answer for the rendered file. |
| VideoProcessor.ProcessFullPipeline | backend/app/services/video_processor.py:371-452 | The result and the number of checkpoints written are the reference `PipelineOutcome` of the engines' answers: the first failing stage ends the run with its message. The run appends exactly one of two update sequences. On success: every checkpoint, then completed/100 with the output URL. On failure: the checkpoints reached (at least the first), then failed/0 with the exception's text, and the exception is passed on. Speaker rows are untouched. |
| VideoProcessor.SuccessWrites | backend/app/services/video_processor.py:388-442 | On success the updates run diarizing/5, diarizing/15, transcribing/30, translating/50, dubbing/65, mixing/80, rendering/90, completed/100. Progress never decreases, and the last update carries the output URL. |
| VideoProcessor.FailureWrites | backend/app/services/video_processor.py:388-449 | On failure, the checkpoints reached come first, in rising progress order. Then comes failed/0, which carries the message exactly when it is non-empty. |
| VideoProcessor.PipelineNeverSetsCompletedAt | backend/app/services/video_processor.py:438-442 | No update of a run sets `completed_at`, including the completion. |
| VideoProcessor.PipelineFinalRecord | backend/app/services/video_processor.py:388-449 | The stored record after a run is one of two. On success: completed/100 with the output URL, and the earlier message kept. On failure: failed/0 with the message, or with the old message when the new one is empty. `completed_at` is never changed. |
| ElevenLabsService.HasClient | backend/app/services/elevenlabs_service.py:19-23 | A client exists exactly when the given key, or else the configured key, is non-empty. |
| ElevenLabsService.FileVoices | backend/app/services/elevenlabs_service.py:56-66 | A voice is listed exactly when some item is a dictionary with a truthy `voice_id`. Its name is the key, category "premade", no labels and no preview. Every listed id is non-empty. |
| ElevenLabsService.FileVoicesAppend | backend/app/services/elevenlabs_service.py:56-66 | The file's voices keep the file's order. |
| ElevenLabsService.FallbackVoicesDistinct | backend/app/services/elevenlabs_service.py:71-81 | The fallback list has nine premade voices with distinct, non-empty ids. |
| ElevenLabsService.DefaultVoices | backend/app/services/elevenlabs_service.py:47-81 | A missing or unreadable file gives the fallback list. A parsed file gives its listed voices. |
| ElevenLabsService.CatalogueVoices | backend/app/services/elevenlabs_service.py:33-42 | One voice per SDK voice, in order, with id, name and preview copied. A falsy category becomes "premade" and missing labels become {}. |
| ElevenLabsService.GetVoices | backend/app/services/elevenlabs_service.py:25-45 | With no client, or when fetching raises, the result is the defaults. Otherwise it is the mapped catalogue. |
| ElevenLabsService.FindVoice | backend/app/services/elevenlabs_service.py:124-127 | The first voice with that id, or None exactly when no voice has it. |
| ElevenLabsService.GetVoiceById | backend/app/services/elevenlabs_service.py:121-127 | A voice of `get_voices` with that id, or None exactly when `get_voices` has none. |
| ElevenLabsService.GenerateSpeech | backend/app/services/elevenlabs_service.py:83-119 | True exactly when there is a client and the converted audio was written. It is false without a client and false on any exception. |
| PyVideoTransClient.TaskIdOf | backend/app/services/pyvideotrans_client.py:60-67 | The task id when the answer's code is 0. None for any other code, a missing code or an exception. |
| PyVideoTransClient.RecognizeSpeech | backend/app/services/pyvideotrans_client.py:33-67 | Returns a task id only when the answer's code is 0, and then the answer's task id. |
| PyVideoTransClient.TranslateSubtitles | backend/app/services/pyvideotrans_client.py:69-100 | Returns a task id only when the answer's code is 0, and then the answer's task id. |
| PyVideoTransClient.TextToSpeech | backend/app/services/pyvideotrans_client.py:102-138 | Returns a task id only when the answer's code is 0, and then the answer's task id. |
| PyVideoTransClient.FullTranslation | backend/app/services/pyvideotrans_client.py:140-187 | Returns a task id only when the answer's code is 0, and then the answer's task id. |
| PyVideoTransClient.HealthCheck | backend/app/services/pyvideotrans_client.py:23-31 | Up exactly when the API root answers 200. |
| PyVideoTransClient.GetTaskStatus | backend/app/services/pyvideotrans_client.py:189-204 | A failed status request becomes `{code: 1, msg: str(e)}`; an answer is passed on. |
| PyVideoTransClient.Polled | backend/app/services/pyvideotrans_client.py:219-222 | The statuses of the first n polls, in poll order. |
| PyVideoTransClient.WaitForTask | backend/app/services/pyvideotrans_client.py:206-235 | The loop returns the status and poll count of the reference wait. The callback receives every polled status, once each and in order, and nothing without a callback. |
| PyVideoTransClient.WaitResultSettled | backend/app/services/pyvideotrans_client.py:216-235 | The returned code is never negative. |
| PyVideoTransClient.WaitPollsInTime | backend/app/services/pyvideotrans_client.py:216-233 | Every poll happens while the elapsed time is still below the timeout. |
| PyVideoTransClient.WaitPollBound | backend/app/services/pyvideotrans_client.py:216-235 | With a positive interval the wait makes at most ⌈timeout / interval⌉ status requests. |
| PyVideoTransClient.PendingTimesOut | backend/app/services/pyvideotrans_client.py:216-235 | While every answer is in progress (a negative code), the wait polls exactly ⌈timeout / interval⌉ times. It then returns `{code: 2, msg: "Task timeout"}`. |
| PyVideoTransClient.FirstSettledStatusReturned | backend/app/services/pyvideotrans_client.py:224-229 | A first status with code 0 or above is returned at once, after one poll. |
| PyVideoTransClient.MissingCodeIsError | backend/app/services/pyvideotrans_client.py:202-204 | A missing code or a failed status request ends the wait at once with code 1. |
| ProjectRoutes.NumSpeakersArg | backend/app/api/routes/projects.py:47 | The stored speaker count is passed on, except that a missing count or 0 becomes -1. |
| ProjectRoutes.AnalyzeCheck | backend/app/api/routes/projects.py:31-48 | 404 exactly for an unknown project. 400 exactly when the status is neither pending nor failed. Otherwise the job with the stored URL, language and speaker count. |
| ProjectRoutes.AnalyzeSpeakers | backend/app/api/routes/projects.py:23-50 | A rejected request writes nothing. An accepted one writes diarizing/5 and returns "started" and the job. |
| ProjectRoutes.AnalyzeReentersFromFailed | backend/app/api/routes/projects.py:35-39 | A failed project is accepted again. It goes back to diarizing/5 and keeps its old error message. |
| ProjectRoutes.SpeakerInputs | backend/app/api/routes/projects.py:80-87 | One speaker item per summary key, in key order, with that entry's duration and count. |
| ProjectRoutes.RunSpeakerAnalysis | backend/app/api/routes/projects.py:53-101 | On success: one speaker row per label, then one update (speaker count = number of labels, voice_mapping, 25). On an exception: no rows, and failed/0 with its text. |
| ProjectRoutes.AnalysisRowLabels | backend/app/api/routes/projects.py:80-89 | The rows follow the summary's key order. |
| ProjectRoutes.AnalysisRowsCoverLabels | backend/app/api/routes/projects.py:80-89 | There is one row per label that occurs, and no label twice. |
| ProjectRoutes.AnalysisRowsStats | backend/app/api/routes/projects.py:80-89 | Each row carries its project, and that speaker's total duration and segment count. |
| ProjectRoutes.AnalysisRowsCountAll | backend/app/api/routes/projects.py:80-89 | The rows' segment counts add up to the number of segments. |
| ProjectRoutes.ProcessCheck | backend/app/api/routes/projects.py:115-134 | 404 exactly for an unknown project. 400 exactly for an empty voice mapping. Otherwise the job; the project's status is never consulted. |
| ProjectRoutes.StartProcessing | backend/app/api/routes/projects.py:106-136 | A rejected request writes nothing. An accepted one writes the mapping with transcribing/30 and returns "started" and the job. |
| ProjectRoutes.ProcessIgnoresStatus | backend/app/api/routes/projects.py:119-127 | A project in any status, even completed, is accepted. It is set to transcribing/30 with the new mapping; message, `completed_at` and speaker count are kept. |
| ProjectRoutes.RunFullProcessing | backend/app/api/routes/projects.py:139-157 | A missing project gets one failed/0 update. Otherwise the pipeline runs on the stored video URL, both stored languages, the given mapping and the stored speaker count (0 or missing becoming -1). Its outcome is `PipelineOutcome` of those arguments. Its updates are sent, followed by a second failed/0 with the same text when the pipeline raised. |
| ProjectRoutes.RepeatedFailureIsIdempotent | backend/app/api/routes/projects.py:156-157 | The second failed update leaves the record as the first left it. |
| ProjectRoutes.ProgressRegressesWhenPipelineStarts | backend/app/api/routes/projects.py:123-134 | On the stored record, `process` sets transcribing/30 with the mapping. The pipeline's first update then moves it back to diarizing/5, and the mapping stays. |
| ProjectRoutes.GetProcessingStatus | backend/app/api/routes/projects.py:162-176 | 404 exactly for an unknown project. Otherwise exactly the id, the status name, the progress and the message of the stored record. |
| ProjectRoutes.StatusAfterFailedRun | backend/app/api/routes/projects.py:139-176 | After a run that raised a non-empty message, the status query reports "failed", 0 and that message. |

## Left out

- Foreign engines are oracles, and no claim is made about any of them. These
  are the ffmpeg subprocesses (`extract_audio` and `render_final_video` up to
  whether the output file exists, and `mix_audio` entirely), the pyvideotrans
  diarizer, Whisper (the model choice and the float sample-index arithmetic),
  the Google translator and the ElevenLabs SDK.
- Each setup failure is a single `Result<()>` oracle that the method consults
  before its loop, so it is raised even when the loop would make no call:
  - `transcribe_segments`: the Whisper import, the model load and reading the
    audio file.
  - `translate_segments`: the translator import.
- The diarizer's import is always followed by its one call, so its failure is
  part of the diarizer oracle's `Err`.
- VideoProcessor.GenerateMultiVoiceAudio: assumes that creating the ElevenLabs
  service and the `segment_audio` directory does not raise.
- The database calls themselves never fail in the model: Supabase, HTTP and
  storage errors are not modelled. `get_speakers`, `create_segments`,
  `download_video`, `upload_video`, `upload_audio`, the URL split in
  `download_video`, `cleanup` and work directory creation are not part of this
  model.
- SupabaseClient.ProjectStore.GetProject: returns None for an unknown id, as the
  callers' `if not project` test expects. What the client library's `.single()`
  does for a missing row is not part of this model.
- Progress is an integer and wait times are integer ticks. The source uses
  floats for both.
- PyVideoTransClient.TaskStatus: a JSON `null` code cannot be written, since
  None stands for a missing key. For such an answer the source compares None
  with 0 and raises `TypeError`, and the model does not cover that case.
- PyVideoTransClient.WaitForTask: requires a positive poll interval. With 0,
  the source polls forever while codes stay negative.
- The pipeline catches exceptions, updates the record and re-raises, and the
  model keeps all of that. The `finally: cleanup()` is left out.
- The project routes do not model FastAPI `BackgroundTasks` or asyncio
  scheduling. A handler returns the job it would schedule, and the background
  task is a separate method.
- Nothing runs concurrently in the model, so interleavings of two requests on
  one project are not covered.
- ProjectRoutes.RunFullProcessing: when the project is missing, the model's
  message is the text Python gives for subscripting None.
- ElevenLabsService.GetVoiceById: its contract states membership and the None
  case. The first-match order is stated by FindVoice, the loop it calls.
- The application wiring (`main.py`), configuration reading (`config.py`) and
  the `voices` and `languages` routes are not part of this model.

Two behaviours of the source are kept as written and stated as lemmas.

- The pipeline's final update goes through `update_project`, not
  `update_project_status`, so `completed_at` is never set.
  See `VideoProcessor.PipelineNeverSetsCompletedAt`.
- `process` has no status guard, so progress falls from 30 back to 5 when the
  pipeline starts.
  See `ProjectRoutes.ProgressRegressesWhenPipelineStarts`.
