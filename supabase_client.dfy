/** The database side of the processing server: the `projects` table as an
    in-memory map from project id to record, the `speakers` table as the list
    of rows inserted so far, the dictionaries the server sends to `update`,
    and the process-wide client singleton. */
module SupabaseClient {
  import opened Util

  /** The pipeline status of a project; the database stores `StatusName`. */
  datatype Status =
    | Pending | Uploading | Diarizing | Transcribing | Translating
    | VoiceMapping | Dubbing | Mixing | Rendering | Completed | Failed

  function StatusName(s: Status): string {
    match s
    case Pending => "pending"
    case Uploading => "uploading"
    case Diarizing => "diarizing"
    case Transcribing => "transcribing"
    case Translating => "translating"
    case VoiceMapping => "voice_mapping"
    case Dubbing => "dubbing"
    case Mixing => "mixing"
    case Rendering => "rendering"
    case Completed => "completed"
    case Failed => "failed"
  }

  /** One row of the `projects` table (the columns this server reads or writes). */
  datatype Project = Project(
    id: string,
    status: Status,
    progress: int,
    errorMessage: Option<string>,
    completedAt: Option<string>,
    voiceMapping: Option<map<string, string>>,
    numSpeakers: Option<int>,
    originalVideoUrl: string,
    originalLanguage: string,
    targetLanguage: string,
    outputVideoUrl: Option<string>)

  /** The dictionary given to `update`: a field is Some exactly when its key is present. */
  datatype ProjectUpdate = ProjectUpdate(
    status: Option<Status>,
    progress: Option<int>,
    errorMessage: Option<string>,
    completedAt: Option<string>,
    numSpeakers: Option<int>,
    voiceMapping: Option<map<string, string>>,
    outputVideoUrl: Option<string>)

  /** The column names present in an update dictionary. */
  function Keys(u: ProjectUpdate): set<string> {
    (if u.status.Some? then {"status"} else {})
    + (if u.progress.Some? then {"progress"} else {})
    + (if u.errorMessage.Some? then {"error_message"} else {})
    + (if u.completedAt.Some? then {"completed_at"} else {})
    + (if u.numSpeakers.Some? then {"num_speakers"} else {})
    + (if u.voiceMapping.Some? then {"voice_mapping"} else {})
    + (if u.outputVideoUrl.Some? then {"output_video_url"} else {})
  }

  function Pick<T>(given: Option<T>, current: T): T {
    if given.Some? then given.value else current
  }

  /** The row after the database applies an update: present keys overwrite, absent keys stay. */
  function Apply(p: Project, u: ProjectUpdate): Project {
    p.(status := Pick(u.status, p.status),
       progress := Pick(u.progress, p.progress),
       errorMessage := if u.errorMessage.Some? then u.errorMessage else p.errorMessage,
       completedAt := if u.completedAt.Some? then u.completedAt else p.completedAt,
       numSpeakers := if u.numSpeakers.Some? then u.numSpeakers else p.numSpeakers,
       voiceMapping := if u.voiceMapping.Some? then u.voiceMapping else p.voiceMapping,
       outputVideoUrl := if u.outputVideoUrl.Some? then u.outputVideoUrl else p.outputVideoUrl)
  }

  /** The value the server writes into `completed_at`. */
  const CompletedAtNow: string := "now()"

  /** The dictionary `update_project_status` builds. */
  function StatusUpdate(status: Status, progress: int, errorMessage: Option<string>): (u: ProjectUpdate)
    ensures u.status == Some(status) && u.progress == Some(progress)
    ensures u.errorMessage.Some? <==> Truthy(errorMessage)
    ensures u.errorMessage.Some? ==> u.errorMessage == errorMessage
    ensures u.completedAt.Some? <==> status == Completed
    ensures u.completedAt.Some? ==> u.completedAt.value == CompletedAtNow
    ensures u.numSpeakers == None && u.voiceMapping == None && u.outputVideoUrl == None
  {
    ProjectUpdate(
      Some(status), Some(progress),
      if Truthy(errorMessage) then errorMessage else None,
      if status == Completed then Some(CompletedAtNow) else None,
      None, None, None)
  }

  /** The keys of a status update: always status and progress, `error_message`
      only for a truthy message, `completed_at` only on "completed". */
  lemma StatusUpdateKeys(status: Status, progress: int, errorMessage: Option<string>)
    ensures Keys(StatusUpdate(status, progress, errorMessage))
      == {"status", "progress"}
         + (if Truthy(errorMessage) then {"error_message"} else {})
         + (if status == Completed then {"completed_at"} else {})
  {
  }

  /** What a status update does to a stored row: status and progress are set, the
      message only when truthy, `completed_at` only on "completed", nothing else moves. */
  lemma StatusUpdateEffect(p: Project, status: Status, progress: int, err: Option<string>)
    ensures var q := Apply(p, StatusUpdate(status, progress, err));
      && q.status == status && q.progress == progress
      && q.errorMessage == (if Truthy(err) then err else p.errorMessage)
      && q.completedAt == (if status == Completed then Some(CompletedAtNow) else p.completedAt)
      && q.(status := p.status, progress := p.progress,
            errorMessage := p.errorMessage, completedAt := p.completedAt) == p
  {
  }

  /** An item of the list passed to `create_speakers`; None is a missing key. */
  datatype SpeakerInput = SpeakerInput(labelName: string, totalDurationMs: Option<int>, segmentCount: Option<int>)

  /** A row of the `speakers` table as this server inserts it. */
  datatype SpeakerRecord = SpeakerRecord(projectId: string, speakerLabel: string, totalDurationMs: int, segmentCount: int)

  /** The rows `create_speakers` inserts, one per input speaker, in order. */
  function SpeakerRecords(projectId: string, speakers: seq<SpeakerInput>): (rs: seq<SpeakerRecord>)
    ensures |rs| == |speakers|
    ensures forall i :: 0 <= i < |speakers| ==>
      && rs[i].projectId == projectId
      && rs[i].speakerLabel == speakers[i].labelName
      && rs[i].totalDurationMs == speakers[i].totalDurationMs.GetOr(0)
      && rs[i].segmentCount == speakers[i].segmentCount.GetOr(0)
  {
    if speakers == [] then []
    else
      [SpeakerRecord(projectId, speakers[0].labelName,
                     speakers[0].totalDurationMs.GetOr(0), speakers[0].segmentCount.GetOr(0))]
      + SpeakerRecords(projectId, speakers[1..])
  }

  /** One `update(data).eq("id", id)` request. */
  datatype Write = Write(id: string, update: ProjectUpdate)

  function ApplyWrite(db: map<string, Project>, w: Write): map<string, Project> {
    if w.id in db then db[w.id := Apply(db[w.id], w.update)] else db
  }

  /** The table after a sequence of update requests, oldest first. */
  function Replay(db: map<string, Project>, ws: seq<Write>): map<string, Project>
    decreases |ws|
  {
    if ws == [] then db else ApplyWrite(Replay(db, ws[..|ws| - 1]), ws[|ws| - 1])
  }

  lemma {:induction false} ReplayAppend(db: map<string, Project>, a: seq<Write>, b: seq<Write>)
    ensures Replay(db, a + b) == Replay(Replay(db, a), b)
    decreases |b|
  {
    if b == [] {
      assert a + b == a;
    } else {
      var b' := b[..|b| - 1];
      assert (a + b)[..|a + b| - 1] == a + b';
      ReplayAppend(db, a, b');
    }
  }

  /** Updates never add or remove projects. */
  lemma {:induction false} ReplayKeys(db: map<string, Project>, ws: seq<Write>)
    ensures Replay(db, ws).Keys == db.Keys
    decreases |ws|
  {
    if ws != [] {
      ReplayKeys(db, ws[..|ws| - 1]);
    }
  }

  /** Writes addressed to other projects leave a project's row alone. */
  lemma {:induction false} ReplayOthers(db: map<string, Project>, ws: seq<Write>, id: string)
    requires forall k :: 0 <= k < |ws| ==> ws[k].id != id
    ensures id in db ==> id in Replay(db, ws) && Replay(db, ws)[id] == db[id]
    decreases |ws|
  {
    if ws != [] {
      ReplayOthers(db, ws[..|ws| - 1], id);
    }
  }

  /** The `projects` and `speakers` tables, with the log of every update sent. */
  class ProjectStore {
    var projects: map<string, Project>
    var speakerRows: seq<SpeakerRecord>
    ghost var writes: seq<Write>
    ghost const initial: map<string, Project>

    /** The table is always the initial table with the logged updates applied. */
    ghost predicate Valid()
      reads this
    {
      projects == Replay(initial, writes)
    }

    constructor (db: map<string, Project>)
      ensures Valid()
      ensures projects == db && initial == db && writes == [] && speakerRows == []
    {
      projects := db;
      speakerRows := [];
      writes := [];
      initial := db;
    }

    /** `get_project`: the stored row, or None for an unknown id. */
    function GetProject(id: string): (p: Option<Project>)
      reads this
      ensures p.Some? <==> id in projects
      ensures p.Some? ==> p.value == projects[id]
    {
      if id in projects then Some(projects[id]) else None
    }

    /** `update_project`: apply the update to the row with that id and return the
        first updated row, or None (the empty dictionary) when no row matched. */
    method UpdateProject(id: string, data: ProjectUpdate) returns (row: Option<Project>)
      requires Valid()
      modifies this
      ensures Valid()
      ensures writes == old(writes) + [Write(id, data)]
      ensures projects == ApplyWrite(old(projects), Write(id, data))
      ensures speakerRows == old(speakerRows)
      ensures row == if id in old(projects) then Some(Apply(old(projects)[id], data)) else None
    {
      var rows := if id in projects then [Apply(projects[id], data)] else [];
      writes := writes + [Write(id, data)];
      assert writes[..|writes| - 1] == old(writes);
      projects := ApplyWrite(projects, Write(id, data));
      row := if |rows| > 0 then Some(rows[0]) else None;
    }

    /** `update_project_status`: send the dictionary built by StatusUpdate. */
    method UpdateProjectStatus(id: string, status: Status, progress: int, errorMessage: Option<string>)
      requires Valid()
      modifies this
      ensures Valid()
      ensures writes == old(writes) + [Write(id, StatusUpdate(status, progress, errorMessage))]
      ensures speakerRows == old(speakerRows)
    {
      var _ := UpdateProject(id, StatusUpdate(status, progress, errorMessage));
    }

    /** `create_speakers`: insert one row per speaker and return the inserted rows. */
    method CreateSpeakers(projectId: string, speakers: seq<SpeakerInput>) returns (rows: seq<SpeakerRecord>)
      requires Valid()
      modifies this
      ensures Valid()
      ensures rows == SpeakerRecords(projectId, speakers)
      ensures speakerRows == old(speakerRows) + rows
      ensures projects == old(projects) && writes == old(writes)
    {
      rows := SpeakerRecords(projectId, speakers);
      speakerRows := speakerRows + rows;
    }
  }

  /** The module-level `_supabase_client` variable and `get_supabase`. */
  class ClientSingleton {
    var instance: ProjectStore?
    ghost var constructions: nat

    /** At most one client has been built, it is the one held, and its tables
        agree with its update log. */
    ghost predicate Valid()
      reads this, instance
    {
      constructions <= 1 && (instance == null <==> constructions == 0)
      && (instance != null ==> instance.Valid())
    }

    constructor ()
      ensures Valid() && instance == null
    {
      instance := null;
      constructions := 0;
    }

    /** The first call builds the client over the remote tables `db`; every later
        call returns that same instance and builds nothing. */
    method GetSupabase(db: map<string, Project>) returns (c: ProjectStore)
      requires Valid()
      modifies this
      ensures Valid() && c.Valid()
      ensures instance == c
      ensures old(instance) != null ==> c == old(instance) && constructions == old(constructions)
      ensures old(instance) == null ==> fresh(c) && c.Valid() && c.projects == db && constructions == 1
    {
      if instance == null {
        instance := new ProjectStore(db);
        constructions := constructions + 1;
      }
      c := instance;
    }
  }
}
