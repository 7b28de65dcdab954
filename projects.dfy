/** The project routes of the processing server: the `analyze` and `process`
    handlers with their guards, the two background tasks they schedule, and the
    status query. Scheduling is not modelled: a handler returns the job it
    would add, and the background task is a separate method over the same store. */
module ProjectRoutes {
  import opened Util
  import opened SupabaseClient
  import opened VideoProcessor

  /** A handler's answer: its JSON body, or the `HTTPException` it raised. */
  datatype HttpResult<T> = Respond(body: T) | HttpException(statusCode: int, detail: string)

  /** `{"status": "started", "message": ...}`. */
  datatype Started = Started(status: string, message: string)

  /** The arguments `analyze` passes to `run_speaker_analysis`. */
  datatype AnalysisJob = AnalysisJob(projectId: string, videoUrl: string, language: string, numSpeakers: int)

  const NotFound: string := "Project not found"
  const AlreadyProcessing: string := "Project is already being processed"
  const MappingRequired: string := "Voice mapping required"

  /** `project["num_speakers"] or -1`: a missing or zero count becomes -1. */
  function NumSpeakersArg(stored: Option<int>): (n: int)
    ensures stored.None? || stored.value == 0 ==> n == -1
    ensures stored.Some? && stored.value != 0 ==> n == stored.value
  {
    if stored.Some? && stored.value != 0 then stored.value else -1
  }

  // ---------------------------------------------------------------- analyze

  /** The checks of `analyze_speakers`: 404 for an unknown project, 400 unless
      it is pending or failed, and otherwise the job to schedule. */
  function AnalyzeCheck(projectId: string, project: Option<Project>): (r: HttpResult<AnalysisJob>)
    ensures project.None? <==> r == HttpException(404, NotFound)
    ensures project.Some? && project.value.status !in {Pending, Failed} <==> r == HttpException(400, AlreadyProcessing)
    ensures r.Respond? <==> project.Some? && project.value.status in {Pending, Failed}
    ensures r.Respond? ==> r.body == AnalysisJob(projectId, project.value.originalVideoUrl, project.value.originalLanguage,
                                                  NumSpeakersArg(project.value.numSpeakers))
  {
    if project.None? then HttpException(404, NotFound)
    else if project.value.status != Pending && project.value.status != Failed then HttpException(400, AlreadyProcessing)
    else
      var p := project.value;
      Respond(AnalysisJob(projectId, p.originalVideoUrl, p.originalLanguage, NumSpeakersArg(p.numSpeakers)))
  }

  /** `analyze_speakers`: check, set diarizing/5, and return the job to schedule. */
  method AnalyzeSpeakers(store: ProjectStore, projectId: string) returns (resp: HttpResult<Started>, job: Option<AnalysisJob>)
    requires store.Valid()
    modifies store
    ensures store.Valid() && store.speakerRows == old(store.speakerRows)
    ensures var check := AnalyzeCheck(projectId, old(store.GetProject(projectId)));
      && (check.HttpException? ==>
            resp == HttpException(check.statusCode, check.detail) && job == None && store.writes == old(store.writes))
      && (check.Respond? ==>
            resp == Respond(Started("started", "Speaker analysis started")) && job == Some(check.body)
            && store.writes == old(store.writes) + [Write(projectId, StatusUpdate(Diarizing, 5, None))])
  {
    var project := store.GetProject(projectId);
    var check := AnalyzeCheck(projectId, project);
    if check.HttpException? {
      return HttpException(check.statusCode, check.detail), None;
    }
    store.UpdateProjectStatus(projectId, Diarizing, 5, None);
    return Respond(Started("started", "Speaker analysis started")), Some(check.body);
  }

  /** `analyze` re-enters from "failed": the record goes back to diarizing/5 and the
      old error message stays, because the status update carries no message. */
  lemma AnalyzeReentersFromFailed(projectId: string, p: Project)
    requires p.status == Failed
    ensures AnalyzeCheck(projectId, Some(p)).Respond?
    ensures var q := Apply(p, StatusUpdate(Diarizing, 5, None));
      q.status == Diarizing && q.progress == 5 && q.errorMessage == p.errorMessage && q.completedAt == p.completedAt
  {
  }

  /** The speaker list built from the summary, in the summary's key order. */
  function SpeakerInputs(order: seq<string>, entries: map<string, SpeakerStats>): (ins: seq<SpeakerInput>)
    requires forall l :: l in order ==> l in entries
    ensures |ins| == |order|
    ensures forall i :: 0 <= i < |order| ==>
      ins[i] == SpeakerInput(order[i], Some(entries[order[i]].totalDurationMs), Some(entries[order[i]].segmentCount))
  {
    if order == [] then []
    else
      [SpeakerInput(order[0], Some(entries[order[0]].totalDurationMs), Some(entries[order[0]].segmentCount))]
      + SpeakerInputs(order[1..], entries)
  }

  /** The update that ends a successful analysis. */
  function AnalysisUpdate(speakerCount: int): ProjectUpdate {
    ProjectUpdate(Some(VoiceMapping), Some(25), None, None, Some(speakerCount), None, None)
  }

  /** What the work of `run_speaker_analysis` yields before any database call:
      the diarized segments, or the exception. */
  function AnalysisSegments(eng: Engines, workDir: string, job: AnalysisJob): Result<seq<Segment>> {
    match SourceAudio(eng, workDir, job.videoUrl)
    case Err(m) => Err(m)
    case Ok(audio) => DiarizationOf(eng.diarize, audio, job.language, job.numSpeakers, job.projectId)
  }

  /** `run_speaker_analysis`: on success one speaker row per label and the update
      {num speakers, voice_mapping, 25}; on an exception failed/0 with its message. */
  method RunSpeakerAnalysis(store: ProjectStore, job: AnalysisJob, tempDir: string, eng: Engines)
    requires store.Valid()
    modifies store
    ensures store.Valid()
    ensures var outcome := AnalysisSegments(eng, tempDir + "/" + job.projectId, job);
      && (outcome.Ok? ==>
            && store.speakerRows == old(store.speakerRows) + AnalysisRows(job.projectId, outcome.value)
            && store.writes == old(store.writes) + [Write(job.projectId, AnalysisUpdate(|Labels(outcome.value)|))])
      && (outcome.Err? ==>
            && store.speakerRows == old(store.speakerRows)
            && store.writes == old(store.writes) + [Write(job.projectId, StatusUpdate(Failed, 0, Some(outcome.msg)))])
  {
    var workDir := tempDir + "/" + job.projectId;
    var audio := SourceAudio(eng, workDir, job.videoUrl);
    if audio.Err? {
      store.UpdateProjectStatus(job.projectId, Failed, 0, Some(audio.msg));
      return;
    }
    var segments := RunSpeakerDiarization(eng.diarize, audio.value, job.language, job.numSpeakers, job.projectId);
    if segments.Err? {
      store.UpdateProjectStatus(job.projectId, Failed, 0, Some(segments.msg));
      return;
    }
    var summary := GetSpeakersSummary(segments.value);
    SummarySize(segments.value);
    var speakersList := SpeakerInputs(summary.order, summary.entries);
    var _ := store.CreateSpeakers(job.projectId, speakersList);
    var _ := store.UpdateProject(job.projectId, AnalysisUpdate(|summary.entries|));
  }

  /** Sum of the segment counts of speaker rows. */
  function RowCounts(rs: seq<SpeakerRecord>): int {
    if rs == [] then 0 else rs[0].segmentCount + RowCounts(rs[1..])
  }

  lemma {:induction false} RowCountsOfInputs(id: string, segs: seq<Segment>, order: seq<string>)
    requires forall l :: l in order ==> l in SummaryOf(segs).entries
    ensures RowCounts(SpeakerRecords(id, SpeakerInputs(order, SummaryOf(segs).entries))) == CountSum(segs, order)
  {
    if order != [] {
      var entries := SummaryOf(segs).entries;
      var rs := SpeakerRecords(id, SpeakerInputs(order, entries));
      assert SpeakerInputs(order, entries)[1..] == SpeakerInputs(order[1..], entries);
      assert SpeakerRecords(id, SpeakerInputs(order, entries))[1..] == SpeakerRecords(id, SpeakerInputs(order[1..], entries));
      RowCountsOfInputs(id, segs, order[1..]);
    }
  }

  /** The speaker rows of a successful analysis, in order of first occurrence. */
  function AnalysisRows(id: string, segs: seq<Segment>): seq<SpeakerRecord> {
    var s := SummaryOf(segs);
    SpeakerRecords(id, SpeakerInputs(s.order, s.entries))
  }

  lemma AnalysisRowLabels(id: string, segs: seq<Segment>)
    ensures var rs, order := AnalysisRows(id, segs), FirstOccurrences(segs);
      |rs| == |order| && forall i :: 0 <= i < |rs| ==> rs[i].speakerLabel == order[i]
  {
  }

  /** One row per label that occurs, each label once. */
  lemma AnalysisRowsCoverLabels(id: string, segs: seq<Segment>)
    ensures var rs := AnalysisRows(id, segs);
      && |rs| == |Labels(segs)|
      && (forall i, j :: 0 <= i < j < |rs| ==> rs[i].speakerLabel != rs[j].speakerLabel)
      && (forall l :: l in Labels(segs) <==> exists i :: 0 <= i < |rs| && rs[i].speakerLabel == l)
  {
    var order := FirstOccurrences(segs);
    FirstOccurrencesDistinct(segs);
    SummarySize(segs);
    AnalysisRowLabels(id, segs);
    var rs := AnalysisRows(id, segs);
    forall l | l in Labels(segs) ensures exists i :: 0 <= i < |rs| && rs[i].speakerLabel == l {
      var i :| 0 <= i < |order| && order[i] == l;
      assert rs[i].speakerLabel == l;
    }
  }

  /** Each row carries its project and that speaker's total duration and segment count. */
  lemma AnalysisRowsStats(id: string, segs: seq<Segment>)
    ensures var rs := AnalysisRows(id, segs);
      forall i :: 0 <= i < |rs| ==>
        && rs[i].projectId == id
        && rs[i].totalDurationMs == TotalDuration(OfSpeaker(segs, rs[i].speakerLabel))
        && rs[i].segmentCount == |OfSpeaker(segs, rs[i].speakerLabel)|
  {
  }

  /** The rows' segment counts add up to the number of segments. */
  lemma AnalysisRowsCountAll(id: string, segs: seq<Segment>)
    ensures RowCounts(AnalysisRows(id, segs)) == |segs|
  {
    RowCountsOfInputs(id, segs, SummaryOf(segs).order);
    SummaryAddsUp(segs);
  }

  // ---------------------------------------------------------------- process

  /** The arguments `process` passes to `run_full_processing`. */
  datatype ProcessingJob = ProcessingJob(projectId: string, voiceMapping: map<string, string>)

  /** The checks of `start_processing`: 404 for an unknown project, 400 for an
      empty mapping, and nothing about the project's status. */
  function ProcessCheck(projectId: string, project: Option<Project>, voiceMapping: map<string, string>): (r: HttpResult<ProcessingJob>)
    ensures project.None? <==> r == HttpException(404, NotFound)
    ensures project.Some? && voiceMapping == map[] <==> r == HttpException(400, MappingRequired)
    ensures r.Respond? <==> project.Some? && voiceMapping != map[]
    ensures r.Respond? ==> r.body == ProcessingJob(projectId, voiceMapping)
  {
    if project.None? then HttpException(404, NotFound)
    else if voiceMapping == map[] then HttpException(400, MappingRequired)
    else Respond(ProcessingJob(projectId, voiceMapping))
  }

  /** The update `start_processing` sends. */
  function ProcessUpdate(voiceMapping: map<string, string>): ProjectUpdate {
    ProjectUpdate(Some(Transcribing), Some(30), None, None, None, Some(voiceMapping), None)
  }

  /** `start_processing`: check, store the mapping with transcribing/30, and return the job. */
  method StartProcessing(store: ProjectStore, projectId: string, voiceMapping: map<string, string>)
    returns (resp: HttpResult<Started>, job: Option<ProcessingJob>)
    requires store.Valid()
    modifies store
    ensures store.Valid() && store.speakerRows == old(store.speakerRows)
    ensures var check := ProcessCheck(projectId, old(store.GetProject(projectId)), voiceMapping);
      && (check.HttpException? ==>
            resp == HttpException(check.statusCode, check.detail) && job == None && store.writes == old(store.writes))
      && (check.Respond? ==>
            resp == Respond(Started("started", "Processing started")) && job == Some(check.body)
            && store.writes == old(store.writes) + [Write(projectId, ProcessUpdate(voiceMapping))])
  {
    var project := store.GetProject(projectId);
    var check := ProcessCheck(projectId, project, voiceMapping);
    if check.HttpException? {
      return HttpException(check.statusCode, check.detail), None;
    }
    var _ := store.UpdateProject(projectId, ProcessUpdate(voiceMapping));
    return Respond(Started("started", "Processing started")), Some(check.body);
  }

  /** `process` accepts a project in any status, even one already completed or
      in the middle of a run, and sets transcribing/30 with the new mapping while
      the message, `completed_at` and the speaker count stay as they were. */
  lemma ProcessIgnoresStatus(projectId: string, p: Project, voiceMapping: map<string, string>)
    requires voiceMapping != map[]
    ensures ProcessCheck(projectId, Some(p), voiceMapping).Respond?
    ensures var q := Apply(p, ProcessUpdate(voiceMapping));
      && q.status == Transcribing && q.progress == 30 && q.voiceMapping == Some(voiceMapping)
      && q.errorMessage == p.errorMessage && q.completedAt == p.completedAt && q.numSpeakers == p.numSpeakers
  {
  }

  /** The message Python gives when the project lookup returned None and the
      task subscripts it. */
  const NoneSubscript: string := "'NoneType' object is not subscriptable"

  /** The updates `run_full_processing` sends: the pipeline's, then a second
      failed/0 when the pipeline re-raised; for a missing project, one failed/0. */
  function ProcessingWrites(projectId: string, found: bool, r: Result<string>, reached: nat): seq<Write>
    requires reached <= |Checkpoints|
  {
    if !found then [Write(projectId, StatusUpdate(Failed, 0, Some(NoneSubscript)))]
    else PipelineWrites(projectId, r, reached)
         + (if r.Err? then [Write(projectId, StatusUpdate(Failed, 0, Some(r.msg)))] else [])
  }

  /** `run_full_processing`: the pipeline runs on the stored URL and languages,
      the given mapping and the stored speaker count (or -1). */
  method RunFullProcessing(store: ProjectStore, job: ProcessingJob, tempDir: string, eng: Engines)
    returns (ghost found: bool, ghost r: Result<string>, ghost reached: nat)
    requires store.Valid()
    modifies store
    ensures store.Valid() && store.speakerRows == old(store.speakerRows)
    ensures found <==> job.projectId in old(store.projects)
    ensures found ==> 1 <= reached <= |Checkpoints| && (r.Ok? ==> reached == |Checkpoints|)
    ensures !found ==> reached == 0
    ensures found ==> var p := old(store.projects)[job.projectId];
      (r, reached) == PipelineOutcome(eng, job.projectId, tempDir + "/" + job.projectId,
                                      p.originalVideoUrl, p.originalLanguage, p.targetLanguage,
                                      job.voiceMapping, NumSpeakersArg(p.numSpeakers))
    ensures store.writes == old(store.writes) + ProcessingWrites(job.projectId, found, r, reached)
  {
    ghost var w0 := store.writes;
    var project := store.GetProject(job.projectId);
    if project.None? {
      store.UpdateProjectStatus(job.projectId, Failed, 0, Some(NoneSubscript));
      found, r, reached := false, Err(NoneSubscript), 0;
      return;
    }
    found := true;
    var p := project.value;
    var result;
    result, reached := ProcessFullPipeline(store, job.projectId, tempDir + "/" + job.projectId,
                                           p.originalVideoUrl, p.originalLanguage, p.targetLanguage,
                                           job.voiceMapping, NumSpeakersArg(p.numSpeakers), eng);
    r := result;
    if result.Err? {
      store.UpdateProjectStatus(job.projectId, Failed, 0, Some(result.msg));
    }
  }

  /** The second failed update is harmless: it sets what the first one set. */
  lemma RepeatedFailureIsIdempotent(p: Project, msg: string)
    ensures var u := StatusUpdate(Failed, 0, Some(msg));
      Apply(Apply(p, u), u) == Apply(p, u)
  {
  }

  /** After `process` and the first update of the pipeline it schedules, the
      record has gone from transcribing/30 back to diarizing/5, keeping the new
      voice mapping. */
  lemma ProgressRegressesWhenPipelineStarts(db: map<string, Project>, projectId: string,
                                            voiceMapping: map<string, string>, r: Result<string>, reached: nat)
    requires projectId in db && 1 <= reached <= |Checkpoints|
    ensures var accepted := ApplyWrite(db, Write(projectId, ProcessUpdate(voiceMapping)));
      var started := ApplyWrite(accepted, PipelineWrites(projectId, r, reached)[0]);
      && projectId in accepted && projectId in started
      && accepted[projectId].status == Transcribing && accepted[projectId].progress == 30
      && started[projectId].status == Diarizing && started[projectId].progress == 5
      && started[projectId].voiceMapping == Some(voiceMapping)
  {
    var k := if r.Ok? then |Checkpoints| else reached;
    CheckpointWritesAt(projectId, k);
    assert PipelineWrites(projectId, r, reached)[0] == CheckpointWrites(projectId, k)[0];
  }

  // ----------------------------------------------------------------- status

  /** `{project_id, status, progress, error_message}`. */
  datatype StatusView = StatusView(projectId: string, status: string, progress: int, errorMessage: Option<string>)

  /** `get_processing_status`: a read of one record, or 404. */
  function GetProcessingStatus(projects: map<string, Project>, projectId: string): (r: HttpResult<StatusView>)
    ensures r.HttpException? <==> projectId !in projects
    ensures r.HttpException? ==> r == HttpException(404, NotFound)
    ensures r.Respond? ==> r.body.projectId == projectId
    ensures r.Respond? ==> var p := projects[projectId];
      r.body == StatusView(projectId, StatusName(p.status), p.progress, p.errorMessage)
  {
    if projectId !in projects then HttpException(404, NotFound)
    else
      var p := projects[projectId];
      Respond(StatusView(projectId, StatusName(p.status), p.progress, p.errorMessage))
  }

  /** After a pipeline run that raised a non-empty message, the status query
      reports "failed", progress 0 and that message. */
  lemma StatusAfterFailedRun(db: map<string, Project>, id: string, msg: string, reached: nat)
    requires id in db && msg != "" && 1 <= reached <= |Checkpoints|
    ensures GetProcessingStatus(Replay(db, ProcessingWrites(id, true, Err(msg), reached)), id)
      == Respond(StatusView(id, "failed", 0, Some(msg)))
  {
    var ws := PipelineWrites(id, Err(msg), reached);
    var extra := [Write(id, StatusUpdate(Failed, 0, Some(msg)))];
    PipelineFinalRecord(db, id, Err(msg), reached);
    ReplayAppend(db, ws, extra);
    assert ProcessingWrites(id, true, Err(msg), reached) == ws + extra;
    assert Replay(Replay(db, ws), extra) == ApplyWrite(Replay(db, ws), extra[0]) by {
      assert extra[..0] == [];
    }
  }
}
