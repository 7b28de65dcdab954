/** The dubbing workflow of `VideoProcessor`: diarization results turned into
    segments, the per-speaker summary, the per-segment transcription,
    translation and speech rules, and the status updates of the full pipeline.
    Every engine (download, ffmpeg, diarization, Whisper, the translator, the
    speech service, mixing, rendering, upload) is an oracle in `Engines`. */
module VideoProcessor {
  import opened Util
  import opened SupabaseClient
  import ElevenLabsService

  /** A speech segment dictionary; None marks a key that is not (yet) present. */
  datatype Segment = Segment(
    speaker: string,
    startMs: int,
    endMs: int,
    text: Option<string>,
    translatedText: Option<string>,
    audioPath: Option<string>)

  /** One item of the diarizer's result: `(timing, speaker)`. */
  datatype DiarItem = DiarItem(timing: (int, int), speaker: string)

  /** `language[:2]`. */
  function LanguageCode(language: string): (code: string)
    ensures |code| == if |language| <= 2 then |language| else 2
    ensures code == language[..|code|]
  {
    if |language| <= 2 then language else language[..2]
  }

  function Init<T>(s: seq<T>): seq<T>
    requires s != []
  {
    s[..|s| - 1]
  }

  function Last<T>(s: seq<T>): T
    requires s != []
  {
    s[|s| - 1]
  }

  lemma InitOfPrefix<T>(s: seq<T>, i: nat)
    requires i < |s|
    ensures s[..i + 1] != [] && Init(s[..i + 1]) == s[..i] && Last(s[..i + 1]) == s[i]
  {
  }

  // ------------------------------------------------------------ diarization

  /** The segments built from the diarizer's items: speaker and timing copied,
      nothing else present, same length and order. */
  function DiarizedSegments(items: seq<DiarItem>): (segs: seq<Segment>)
    ensures |segs| == |items|
    ensures forall i :: 0 <= i < |items| ==>
      segs[i] == Segment(items[i].speaker, items[i].timing.0, items[i].timing.1, None, None, None)
  {
    if items == [] then []
    else
      [Segment(items[0].speaker, items[0].timing.0, items[0].timing.1, None, None, None)]
      + DiarizedSegments(items[1..])
  }

  /** `run_speaker_diarization`: call the diarizer and convert its items in a loop;
      a diarizer exception is re-raised. */
  method RunSpeakerDiarization(diarize: (string, string, int, string) -> Result<seq<DiarItem>>,
                               audioPath: string, language: string, numSpeakers: int, projectId: string)
    returns (r: Result<seq<Segment>>)
    ensures r == DiarizationOf(diarize, audioPath, language, numSpeakers, projectId)
  {
    var results := diarize(audioPath, LanguageCode(language), numSpeakers, projectId);
    if results.Err? {
      return Err(results.msg);
    }
    var items := results.value;
    var segments: seq<Segment> := [];
    for i := 0 to |items|
      invariant segments == DiarizedSegments(items[..i])
    {
      var timing, speaker := items[i].timing, items[i].speaker;
      segments := segments + [Segment(speaker, timing.0, timing.1, None, None, None)];
    }
    assert items[..|items|] == items;
    return Ok(segments);
  }

  /** The segments diarization yields, or the exception it raised. */
  function DiarizationOf(diarize: (string, string, int, string) -> Result<seq<DiarItem>>,
                         audioPath: string, language: string, numSpeakers: int, projectId: string): Result<seq<Segment>>
  {
    match diarize(audioPath, LanguageCode(language), numSpeakers, projectId)
    case Ok(items) => Ok(DiarizedSegments(items))
    case Err(m) => Err(m)
  }

  // --------------------------------------------------------- speaker summary

  function Duration(seg: Segment): int {
    seg.endMs - seg.startMs
  }

  /** The speaker labels that occur in the segments. */
  function Labels(segs: seq<Segment>): set<string> {
    set i | 0 <= i < |segs| :: segs[i].speaker
  }

  /** The labels in order of first occurrence: the key order of a Python dict
      filled by scanning the segments. */
  lemma LabelsInit(segs: seq<Segment>)
    requires segs != []
    ensures Labels(segs) == Labels(Init(segs)) + {Last(segs).speaker}
  {
    InitOfPrefix(segs, |segs| - 1);
    LabelsSnoc(segs, |segs| - 1);
    assert segs[..|segs|] == segs;
  }

  function FirstOccurrences(segs: seq<Segment>): (order: seq<string>)
    ensures forall l :: l in order <==> l in Labels(segs)
    decreases |segs|
  {
    if segs == [] then []
    else
      LabelsInit(segs);
      var order := FirstOccurrences(Init(segs));
      if Last(segs).speaker in order then order else order + [Last(segs).speaker]
  }

  /** The segments of one speaker, in input order. */
  function OfSpeaker(segs: seq<Segment>, name: string): seq<Segment>
    decreases |segs|
  {
    if segs == [] then []
    else OfSpeaker(Init(segs), name) + (if Last(segs).speaker == name then [Last(segs)] else [])
  }

  /** The sum of `end_ms - start_ms` over the segments. */
  function TotalDuration(segs: seq<Segment>): int
    decreases |segs|
  {
    if segs == [] then 0 else TotalDuration(Init(segs)) + Duration(Last(segs))
  }

  /** One summary entry: `{label, total_duration_ms, segment_count, segments}`. */
  datatype SpeakerStats = SpeakerStats(labelName: string, totalDurationMs: int, segmentCount: nat, segments: seq<Segment>)

  /** The summary dictionary: its keys in insertion order, and its entries. */
  datatype Summary = Summary(order: seq<string>, entries: map<string, SpeakerStats>)

  /** What the summary entry of a label must hold. */
  function StatsOf(segs: seq<Segment>, name: string): SpeakerStats {
    var mine := OfSpeaker(segs, name);
    SpeakerStats(name, TotalDuration(mine), |mine|, mine)
  }

  /** The summary of a segment list, as a value: the reference for `get_speakers_summary`. */
  function SummaryOf(segs: seq<Segment>): Summary {
    Summary(FirstOccurrences(segs), map l | l in Labels(segs) :: StatsOf(segs, l))
  }

  lemma LabelsSnoc(segs: seq<Segment>, i: nat)
    requires i < |segs|
    ensures Labels(segs[..i + 1]) == Labels(segs[..i]) + {segs[i].speaker}
  {
    var a, b := segs[..i + 1], segs[..i];
    forall l | l in Labels(a) ensures l in Labels(b) + {segs[i].speaker} {
      var k :| 0 <= k < |a| && a[k].speaker == l;
      if k < i { assert b[k] == a[k]; }
    }
    forall l | l in Labels(b) + {segs[i].speaker} ensures l in Labels(a) {
      if l == segs[i].speaker {
        assert a[i].speaker == l;
      } else {
        var k :| 0 <= k < |b| && b[k].speaker == l;
        assert a[k] == b[k];
      }
    }
  }

  lemma {:induction false} OfSpeakerAbsent(segs: seq<Segment>, name: string)
    requires name !in Labels(segs)
    ensures OfSpeaker(segs, name) == []
    decreases |segs|
  {
    if segs != [] {
      assert Last(segs) == segs[|segs| - 1];
      assert Labels(Init(segs)) <= Labels(segs) by {
        forall l | l in Labels(Init(segs)) ensures l in Labels(segs) {
          var k :| 0 <= k < |Init(segs)| && Init(segs)[k].speaker == l;
          assert segs[k] == Init(segs)[k];
        }
      }
      OfSpeakerAbsent(Init(segs), name);
    }
  }

  /** The entry after one more segment of that speaker is counted. */
  function StatsStep(entry: SpeakerStats, seg: Segment): SpeakerStats {
    entry.(totalDurationMs := entry.totalDurationMs + Duration(seg),
           segmentCount := entry.segmentCount + 1,
           segments := entry.segments + [seg])
  }

  lemma StatsSnoc(segs: seq<Segment>, i: nat, name: string)
    requires i < |segs|
    ensures StatsOf(segs[..i + 1], name)
      == if segs[i].speaker == name then StatsStep(StatsOf(segs[..i], name), segs[i]) else StatsOf(segs[..i], name)
  {
    InitOfPrefix(segs, i);
    var mine, x := OfSpeaker(segs[..i], name), segs[i];
    assert OfSpeaker(segs[..i + 1], name) == mine + (if x.speaker == name then [x] else []);
    if x.speaker == name {
      assert Init(mine + [x]) == mine && Last(mine + [x]) == x;
      assert TotalDuration(mine + [x]) == TotalDuration(mine) + Duration(x);
    } else {
      assert mine + [] == mine;
    }
  }

  /** `get_speakers_summary`: one pass over the segments updating a dictionary of counters. */
  method GetSpeakersSummary(segs: seq<Segment>) returns (s: Summary)
    ensures s == SummaryOf(segs)
  {
    var order: seq<string> := [];
    var speakers: map<string, SpeakerStats> := map[];
    for i := 0 to |segs|
      invariant Summary(order, speakers) == CountAll(segs[..i])
    {
      InitOfPrefix(segs, i);
      ghost var next := Counted(Summary(order, speakers), segs[i]);
      var seg := segs[i];
      var spk := seg.speaker;
      if spk !in speakers {
        speakers := speakers[spk := SpeakerStats(spk, 0, 0, [])];
        order := order + [spk];
      }
      ghost var counted := speakers;
      var duration := seg.endMs - seg.startMs;
      var entry := speakers[spk];
      speakers := speakers[spk := entry.(totalDurationMs := entry.totalDurationMs + duration,
                                         segmentCount := entry.segmentCount + 1,
                                         segments := entry.segments + [seg])];
      assert speakers == counted[spk := StatsStep(counted[spk], seg)];
      assert Summary(order, speakers) == next;
    }
    assert segs[..|segs|] == segs;
    CountAllIsSummary(segs);
    s := Summary(order, speakers);
  }

  /** The summary built by counting the segments one after the other. */
  function CountAll(segs: seq<Segment>): Summary
    decreases |segs|
  {
    if segs == [] then Summary([], map[]) else Counted(CountAll(Init(segs)), Last(segs))
  }

  /** Counting one segment at a time yields the summary: the key order of first
      occurrences and, per label, the statistics of that speaker's segments. */
  lemma {:induction false} CountAllIsSummary(segs: seq<Segment>)
    ensures CountAll(segs) == SummaryOf(segs)
    decreases |segs|
  {
    if segs == [] {
      assert SummaryOf(segs).entries == map[];
    } else {
      var i := |segs| - 1;
      InitOfPrefix(segs, i);
      assert segs[..i + 1] == segs;
      CountAllIsSummary(segs[..i]);
      SummarySnoc(segs, i);
    }
  }

  /** The summary after one more segment is counted, as the loop of
      `get_speakers_summary` does it: a new label is appended to the key order
      with a zero entry, then the segment is added to its label's entry. */
  function Counted(sm: Summary, seg: Segment): Summary {
    var spk := seg.speaker;
    var base := if spk in sm.entries then sm.entries[spk] else SpeakerStats(spk, 0, 0, []);
    Summary(if spk in sm.entries then sm.order else sm.order + [spk],
            sm.entries[spk := StatsStep(base, seg)])
  }

  lemma SummarySnoc(segs: seq<Segment>, i: nat)
    requires i < |segs|
    ensures SummaryOf(segs[..i + 1]) == Counted(SummaryOf(segs[..i]), segs[i])
  {
    InitOfPrefix(segs, i);
    LabelsSnoc(segs, i);
    FirstOccurrencesDistinct(segs[..i]);
    var before, after := SummaryOf(segs[..i]), SummaryOf(segs[..i + 1]);
    var spk := segs[i].speaker;
    if spk !in Labels(segs[..i]) {
      OfSpeakerAbsent(segs[..i], spk);
    }
    var next := Counted(before, segs[i]);
    forall l | l in Labels(segs[..i + 1]) ensures after.entries[l] == next.entries[l] {
      StatsSnoc(segs, i, l);
    }
    assert after.entries.Keys == next.entries.Keys;
    assert after.entries == next.entries;
  }

  predicate Distinct(ls: seq<string>) {
    forall i, j :: 0 <= i < j < |ls| ==> ls[i] != ls[j]
  }

  /** The key order lists every label exactly once. */
  lemma {:induction false} FirstOccurrencesDistinct(segs: seq<Segment>)
    ensures Distinct(FirstOccurrences(segs))
    decreases |segs|
  {
    if segs != [] {
      FirstOccurrencesDistinct(Init(segs));
    }
  }

  lemma {:induction false} DistinctCard(ls: seq<string>)
    requires Distinct(ls)
    ensures |set l | l in ls| == |ls|
  {
    if ls != [] {
      var rest := ls[1..];
      assert Distinct(rest);
      DistinctCard(rest);
      assert (set l | l in ls) == (set l | l in rest) + {ls[0]};
      assert ls[0] !in (set l | l in rest);
    }
  }

  /** The summary has one key per label that occurs: as many as its key order lists. */
  lemma SummarySize(segs: seq<Segment>)
    ensures |SummaryOf(segs).entries| == |Labels(segs)| == |FirstOccurrences(segs)|
  {
    FirstOccurrencesDistinct(segs);
    DistinctCard(FirstOccurrences(segs));
    assert (set l | l in FirstOccurrences(segs)) == Labels(segs);
    assert SummaryOf(segs).entries.Keys == Labels(segs);
  }

  /** Sum of the segment counts over a list of labels. */
  function CountSum(segs: seq<Segment>, ls: seq<string>): int {
    if ls == [] then 0 else |OfSpeaker(segs, ls[0])| + CountSum(segs, ls[1..])
  }

  /** Sum of the total durations over a list of labels. */
  function DurationSum(segs: seq<Segment>, ls: seq<string>): int {
    if ls == [] then 0 else TotalDuration(OfSpeaker(segs, ls[0])) + DurationSum(segs, ls[1..])
  }

  lemma {:induction false} TotalDurationAppend(a: seq<Segment>, b: seq<Segment>)
    ensures TotalDuration(a + b) == TotalDuration(a) + TotalDuration(b)
    decreases |b|
  {
    if b == [] {
      assert a + b == a;
    } else {
      assert Init(a + b) == a + Init(b);
      assert Last(a + b) == Last(b);
      TotalDurationAppend(a, Init(b));
    }
  }

  lemma {:induction false} SumsStep(segs: seq<Segment>, ls: seq<string>)
    requires segs != [] && Distinct(ls)
    ensures CountSum(segs, ls) == CountSum(Init(segs), ls) + (if Last(segs).speaker in ls then 1 else 0)
    ensures DurationSum(segs, ls) == DurationSum(Init(segs), ls) + (if Last(segs).speaker in ls then Duration(Last(segs)) else 0)
  {
    if ls != [] {
      assert Distinct(ls[1..]);
      SumsStep(segs, ls[1..]);
      var x := Last(segs);
      var before := OfSpeaker(Init(segs), ls[0]);
      TotalDurationAppend(before, if x.speaker == ls[0] then [x] else []);
      assert TotalDuration([x]) == Duration(x) by {
        assert Init([x]) == [];
      }
      assert x.speaker in ls <==> x.speaker == ls[0] || x.speaker in ls[1..];
      assert x.speaker == ls[0] ==> x.speaker !in ls[1..];
    }
  }

  lemma {:induction false} SumsEmpty(ls: seq<string>)
    ensures CountSum([], ls) == 0 && DurationSum([], ls) == 0
  {
    if ls != [] {
      SumsEmpty(ls[1..]);
    }
  }

  /** Grouping by speaker partitions the segments: over distinct labels covering
      every speaker, the counts add up to the number of segments and the
      durations to the total duration. */
  lemma {:induction false} GroupingPartitions(segs: seq<Segment>, ls: seq<string>)
    requires Distinct(ls)
    requires Labels(segs) <= set l | l in ls
    ensures CountSum(segs, ls) == |segs|
    ensures DurationSum(segs, ls) == TotalDuration(segs)
    decreases |segs|
  {
    if segs == [] {
      SumsEmpty(ls);
    } else {
      InitOfPrefix(segs, |segs| - 1);
      LabelsSnoc(segs, |segs| - 1);
      assert segs[..|segs|] == segs;
      GroupingPartitions(Init(segs), ls);
      SumsStep(segs, ls);
    }
  }

  /** Over the summary's keys, the segment counts sum to the number of segments
      and the total durations to the duration of all segments. */
  lemma SummaryAddsUp(segs: seq<Segment>)
    ensures var s := SummaryOf(segs);
      CountSum(segs, s.order) == |segs| && DurationSum(segs, s.order) == TotalDuration(segs)
  {
    FirstOccurrencesDistinct(segs);
    GroupingPartitions(segs, FirstOccurrences(segs));
  }

  /** A speaker's segments are exactly the input segments with that label. */
  lemma {:induction false} OfSpeakerMembers(segs: seq<Segment>, name: string)
    ensures forall x :: x in OfSpeaker(segs, name) <==> x in segs && x.speaker == name
    decreases |segs|
  {
    if segs != [] {
      OfSpeakerMembers(Init(segs), name);
      assert segs == Init(segs) + [Last(segs)];
    }
  }

  // --------------------------------------------------- per-segment enrichment

  predicate HasText(seg: Segment) {
    Truthy(seg.text)
  }

  /** `a or b` on strings. */
  function OrElse(a: string, b: string): string {
    if a != "" then a else b
  }

  /** The segments `xs` put in front of a successful result; an error is passed on. */
  function PrependAll(xs: seq<Segment>, r: Result<seq<Segment>>): Result<seq<Segment>> {
    if r.Ok? then Ok(xs + r.value) else r
  }

  /** Reference definition of the loop of `transcribe_segments`, from segment i on. */
  function TranscribeFrom(whisper: (string, int, int, string) -> Result<string>,
                          audioPath: string, segs: seq<Segment>, code: string, i: nat): Result<seq<Segment>>
    decreases |segs| - i
  {
    if i >= |segs| then Ok([])
    else
      match whisper(audioPath, segs[i].startMs, segs[i].endMs, code)
      case Err(m) => Err(m)
      case Ok(t) => PrependAll([segs[i].(text := Some(t))], TranscribeFrom(whisper, audioPath, segs, code, i + 1))
  }

  /** What `transcribe_segments` yields: the setup error (import, model load or
      reading the audio), or the loop's result. */
  function TranscriptionOf(setup: Result<()>, whisper: (string, int, int, string) -> Result<string>,
                           audioPath: string, segs: seq<Segment>, language: string): Result<seq<Segment>>
  {
    if setup.Err? then Err(setup.msg) else TranscribeFrom(whisper, audioPath, segs, LanguageCode(language), 0)
  }

  /** The loop of `transcribe_segments` from segment i on succeeds exactly when
      Whisper succeeds on every later span; it then adds each span's text and
      keeps length and order, and otherwise fails with the first failure. */
  lemma {:induction false} TranscribeFromSpec(whisper: (string, int, int, string) -> Result<string>,
                                              audioPath: string, segs: seq<Segment>, code: string, i: nat)
    requires i <= |segs|
    ensures var r := TranscribeFrom(whisper, audioPath, segs, code, i);
      && (r.Ok? <==> forall j :: i <= j < |segs| ==> whisper(audioPath, segs[j].startMs, segs[j].endMs, code).Ok?)
      && (r.Ok? ==> |r.value| == |segs| - i && forall j :: i <= j < |segs| ==>
            r.value[j - i] == segs[j].(text := Some(whisper(audioPath, segs[j].startMs, segs[j].endMs, code).value)))
      && (r.Err? ==> exists j :: (i <= j < |segs|
            && whisper(audioPath, segs[j].startMs, segs[j].endMs, code) == Err(r.msg)
            && forall k :: i <= k < j ==> whisper(audioPath, segs[k].startMs, segs[k].endMs, code).Ok?))
    decreases |segs| - i
  {
    if i < |segs| {
      TranscribeFromSpec(whisper, audioPath, segs, code, i + 1);
      var rest := TranscribeFrom(whisper, audioPath, segs, code, i + 1);
      var w := whisper(audioPath, segs[i].startMs, segs[i].endMs, code);
      if w.Ok? && rest.Err? {
        var j :| i + 1 <= j < |segs|
          && whisper(audioPath, segs[j].startMs, segs[j].endMs, code) == Err(rest.msg)
          && forall k :: i + 1 <= k < j ==> whisper(audioPath, segs[k].startMs, segs[k].endMs, code).Ok?;
        assert forall k :: i <= k < j ==> whisper(audioPath, segs[k].startMs, segs[k].endMs, code).Ok?;
      }
    }
  }

  /** What `transcribe_segments` yields: after the setup, each segment gains the
      text Whisper gives for its span, and the first exception is re-raised. */
  lemma TranscriptionSpec(setup: Result<()>, whisper: (string, int, int, string) -> Result<string>,
                          audioPath: string, segs: seq<Segment>, language: string)
    ensures var r := TranscriptionOf(setup, whisper, audioPath, segs, language);
      && (setup.Err? ==> r == Err(setup.msg))
      && (r.Ok? <==> setup.Ok? && forall i :: 0 <= i < |segs| ==>
            whisper(audioPath, segs[i].startMs, segs[i].endMs, LanguageCode(language)).Ok?)
      && (r.Ok? ==> |r.value| == |segs| && forall i :: 0 <= i < |segs| ==>
            r.value[i] == segs[i].(text := Some(whisper(audioPath, segs[i].startMs, segs[i].endMs, LanguageCode(language)).value)))
      && (r.Err? && setup.Ok? ==> exists i :: (0 <= i < |segs|
            && whisper(audioPath, segs[i].startMs, segs[i].endMs, LanguageCode(language)) == Err(r.msg)
            && forall j :: 0 <= j < i ==> whisper(audioPath, segs[j].startMs, segs[j].endMs, LanguageCode(language)).Ok?))
  {
    if setup.Ok? {
      var code := LanguageCode(language);
      TranscribeFromSpec(whisper, audioPath, segs, code, 0);
      var r := TranscribeFrom(whisper, audioPath, segs, code, 0);
      if r.Ok? {
        forall i | 0 <= i < |segs|
          ensures r.value[i] == segs[i].(text := Some(whisper(audioPath, segs[i].startMs, segs[i].endMs, code).value))
        {
          assert i - 0 == i;
        }
      }
    }
  }

  /** `transcribe_segments`: the setup, then one Whisper call per segment in a loop. */
  method TranscribeSegments(setup: Result<()>, whisper: (string, int, int, string) -> Result<string>,
                            audioPath: string, segs: seq<Segment>, language: string)
    returns (r: Result<seq<Segment>>)
    ensures r == TranscriptionOf(setup, whisper, audioPath, segs, language)
  {
    if setup.Err? {
      return Err(setup.msg);
    }
    var code := LanguageCode(language);
    var transcribed: seq<Segment> := [];
    ghost var all := TranscribeFrom(whisper, audioPath, segs, code, 0);
    assert all.Ok? ==> transcribed + all.value == all.value;
    for i := 0 to |segs|
      invariant all == PrependAll(transcribed, TranscribeFrom(whisper, audioPath, segs, code, i))
    {
      var seg := segs[i];
      var result := whisper(audioPath, seg.startMs, seg.endMs, code);
      if result.Err? {
        return Err(result.msg);
      }
      ghost var rest := TranscribeFrom(whisper, audioPath, segs, code, i + 1);
      assert rest.Ok? ==> transcribed + ([seg.(text := Some(result.value))] + rest.value)
                          == (transcribed + [seg.(text := Some(result.value))]) + rest.value;
      transcribed := transcribed + [seg.(text := Some(result.value))];
    }
    assert transcribed + [] == transcribed;
    return Ok(transcribed);
  }

  /** Reference definition of the loop of `translate_segments`, from segment i on. */
  function TranslateFrom(translate: (string, string, string) -> Result<string>,
                         segs: seq<Segment>, sourceLanguage: string, targetLanguage: string, i: nat): Result<seq<Segment>>
    decreases |segs| - i
  {
    if i >= |segs| then Ok([])
    else if !HasText(segs[i]) then
      PrependAll([segs[i].(translatedText := Some(""))], TranslateFrom(translate, segs, sourceLanguage, targetLanguage, i + 1))
    else
      match translate(segs[i].text.value, sourceLanguage, targetLanguage)
      case Err(m) => Err(m)
      case Ok(t) =>
        PrependAll([segs[i].(translatedText := Some(OrElse(t, segs[i].text.value)))],
                   TranslateFrom(translate, segs, sourceLanguage, targetLanguage, i + 1))
  }

  /** What `translate_segments` yields: the import error, or the loop's result. */
  function TranslationOf(setup: Result<()>, translate: (string, string, string) -> Result<string>,
                         segs: seq<Segment>, sourceLanguage: string, targetLanguage: string): Result<seq<Segment>>
  {
    if setup.Err? then Err(setup.msg) else TranslateFrom(translate, segs, sourceLanguage, targetLanguage, 0)
  }

  /** The loop of `translate_segments` from segment i on succeeds exactly when
      the translator succeeds on every later segment with text; it then keeps
      length, order and every other field and sets the translation rule's text,
      and otherwise fails with the first failure. */
  lemma {:induction false} TranslateFromSpec(translate: (string, string, string) -> Result<string>,
                                             segs: seq<Segment>, src: string, tgt: string, i: nat)
    requires i <= |segs|
    ensures var r := TranslateFrom(translate, segs, src, tgt, i);
      && (r.Ok? <==> forall j :: i <= j < |segs| && HasText(segs[j]) ==> translate(segs[j].text.value, src, tgt).Ok?)
      && (r.Ok? ==> |r.value| == |segs| - i)
      && (r.Ok? ==> forall j :: i <= j < |segs| ==> r.value[j - i].(translatedText := segs[j].translatedText) == segs[j])
      && (r.Ok? ==> forall j :: i <= j < |segs| && !HasText(segs[j]) ==> r.value[j - i].translatedText == Some(""))
      && (r.Ok? ==> forall j :: i <= j < |segs| && HasText(segs[j]) ==>
            r.value[j - i].translatedText == Some(OrElse(translate(segs[j].text.value, src, tgt).value, segs[j].text.value)))
      && (r.Err? ==> exists j :: (i <= j < |segs| && HasText(segs[j])
            && translate(segs[j].text.value, src, tgt) == Err(r.msg)
            && forall k :: i <= k < j && HasText(segs[k]) ==> translate(segs[k].text.value, src, tgt).Ok?))
    decreases |segs| - i
  {
    if i < |segs| {
      TranslateFromSpec(translate, segs, src, tgt, i + 1);
      var rest := TranslateFrom(translate, segs, src, tgt, i + 1);
      if rest.Err? && (!HasText(segs[i]) || translate(segs[i].text.value, src, tgt).Ok?) {
        var j :| i + 1 <= j < |segs| && HasText(segs[j])
          && translate(segs[j].text.value, src, tgt) == Err(rest.msg)
          && forall k :: i + 1 <= k < j && HasText(segs[k]) ==> translate(segs[k].text.value, src, tgt).Ok?;
        assert forall k :: i <= k < j && HasText(segs[k]) ==> translate(segs[k].text.value, src, tgt).Ok?;
      }
    }
  }

  /** What `translate_segments` yields: after the import, a segment without text
      gets "" as its translation; otherwise the translator's result, or the
      original text when that result is empty. Every other field is kept, and
      the first exception is re-raised. */
  lemma TranslationSpec(setup: Result<()>, translate: (string, string, string) -> Result<string>,
                        segs: seq<Segment>, src: string, tgt: string)
    ensures var r := TranslationOf(setup, translate, segs, src, tgt);
      && (setup.Err? ==> r == Err(setup.msg))
      && (r.Ok? <==> setup.Ok? && forall i :: 0 <= i < |segs| && HasText(segs[i]) ==> translate(segs[i].text.value, src, tgt).Ok?)
      && (r.Ok? ==> |r.value| == |segs|)
      && (r.Ok? ==> forall i :: 0 <= i < |segs| ==> r.value[i].(translatedText := segs[i].translatedText) == segs[i])
      && (r.Ok? ==> forall i :: 0 <= i < |segs| && !HasText(segs[i]) ==> r.value[i].translatedText == Some(""))
      && (r.Ok? ==> forall i :: 0 <= i < |segs| && HasText(segs[i]) ==>
            r.value[i].translatedText == Some(OrElse(translate(segs[i].text.value, src, tgt).value, segs[i].text.value)))
      && (r.Err? && setup.Ok? ==> exists i :: (0 <= i < |segs| && HasText(segs[i])
            && translate(segs[i].text.value, src, tgt) == Err(r.msg)
            && forall j :: 0 <= j < i && HasText(segs[j]) ==> translate(segs[j].text.value, src, tgt).Ok?))
  {
    if setup.Ok? {
      TranslateFromSpec(translate, segs, src, tgt, 0);
      var r := TranslateFrom(translate, segs, src, tgt, 0);
      if r.Ok? {
        forall i | 0 <= i < |segs|
          ensures r.value[i].(translatedText := segs[i].translatedText) == segs[i]
          ensures !HasText(segs[i]) ==> r.value[i].translatedText == Some("")
          ensures HasText(segs[i]) ==>
            r.value[i].translatedText == Some(OrElse(translate(segs[i].text.value, src, tgt).value, segs[i].text.value))
        {
          assert i - 0 == i;
        }
      }
    }
  }

  /** `translate_segments`: the import, then the translation rule per segment in a loop. */
  method TranslateSegments(setup: Result<()>, translate: (string, string, string) -> Result<string>,
                           segs: seq<Segment>, sourceLanguage: string, targetLanguage: string)
    returns (r: Result<seq<Segment>>)
    ensures r == TranslationOf(setup, translate, segs, sourceLanguage, targetLanguage)
  {
    if setup.Err? {
      return Err(setup.msg);
    }
    var translated: seq<Segment> := [];
    ghost var all := TranslateFrom(translate, segs, sourceLanguage, targetLanguage, 0);
    assert all.Ok? ==> translated + all.value == all.value;
    for i := 0 to |segs|
      invariant all == PrependAll(translated, TranslateFrom(translate, segs, sourceLanguage, targetLanguage, i))
    {
      var seg := segs[i];
      var translatedText: string;
      if HasText(seg) {
        var result := translate(seg.text.value, sourceLanguage, targetLanguage);
        if result.Err? {
          return Err(result.msg);
        }
        translatedText := if result.value != "" then result.value else seg.text.value;
      } else {
        translatedText := "";
      }
      ghost var rest := TranslateFrom(translate, segs, sourceLanguage, targetLanguage, i + 1);
      assert rest.Ok? ==> translated + ([seg.(translatedText := Some(translatedText))] + rest.value)
                          == (translated + [seg.(translatedText := Some(translatedText))]) + rest.value;
      translated := translated + [seg.(translatedText := Some(translatedText))];
    }
    assert translated + [] == translated;
    return Ok(translated);
  }

  /** `seg.get("translated_text") or seg.get("text", "")`. */
  function SpeechText(seg: Segment): string {
    if Truthy(seg.translatedText) then seg.translatedText.value else seg.text.GetOr("")
  }

  /** `voice_mapping.get(speaker)`, with "" standing for a missing voice. */
  function VoiceFor(voiceMapping: map<string, string>, speaker: string): string {
    if speaker in voiceMapping then voiceMapping[speaker] else ""
  }

  /** Decimal digits of n, without leading zeros. */
  function Decimal(n: nat): string
    decreases n
  {
    if n < 10 then [DigitChar(n)] else Decimal(n / 10) + [DigitChar(n % 10)]
  }

  function DigitChar(d: nat): char
    requires d < 10
  {
    "0123456789"[d]
  }

  /** `f"{i:04d}"`: the decimal digits, left-padded with zeros to four places. */
  function ZeroPad4(n: nat): string {
    var digits := Decimal(n);
    if |digits| >= 4 then digits else seq(4 - |digits|, _ => '0') + digits
  }

  /** `audio_dir / f"seg_{i:04d}_{speaker}.mp3"` with `audio_dir = work_dir / "segment_audio"`. */
  function SegmentAudioPath(workDir: string, i: nat, speaker: string): string {
    workDir + "/segment_audio/seg_" + ZeroPad4(i) + "_" + speaker + ".mp3"
  }

  /** Whether segment i is synthesised, given the speech service's answer. */
  predicate Synthesised(seg: Segment, i: nat, voiceMapping: map<string, string>, workDir: string,
                        hasClient: bool, speak: (string, string, string) -> ElevenLabsService.SpeechAttempt)
  {
    && SpeechText(seg) != ""
    && VoiceFor(voiceMapping, seg.speaker) != ""
    && ElevenLabsService.GenerateSpeech(hasClient,
         speak(SpeechText(seg), VoiceFor(voiceMapping, seg.speaker), SegmentAudioPath(workDir, i, seg.speaker)))
  }

  /** Segment i after synthesis: with its audio path when it was synthesised, unchanged otherwise. */
  function Dubbed(seg: Segment, i: nat, voiceMapping: map<string, string>, workDir: string,
                  hasClient: bool, speak: (string, string, string) -> ElevenLabsService.SpeechAttempt): Segment
  {
    if Synthesised(seg, i, voiceMapping, workDir, hasClient, speak)
    then seg.(audioPath := Some(SegmentAudioPath(workDir, i, seg.speaker)))
    else seg
  }

  /** Reference definition of what `generate_multi_voice_audio` returns. */
  function DubbedSegments(segs: seq<Segment>, voiceMapping: map<string, string>, workDir: string,
                          hasClient: bool, speak: (string, string, string) -> ElevenLabsService.SpeechAttempt): seq<Segment>
  {
    seq(|segs|, i requires 0 <= i < |segs| => Dubbed(segs[i], i, voiceMapping, workDir, hasClient, speak))
  }

  /** `generate_multi_voice_audio`: a segment gains `audio_path` exactly when it
      has text, its speaker has a voice and synthesis succeeds; otherwise it is
      passed on unchanged. Length and order are kept. */
  method GenerateMultiVoiceAudio(segs: seq<Segment>, voiceMapping: map<string, string>, workDir: string,
                                 hasClient: bool, speak: (string, string, string) -> ElevenLabsService.SpeechAttempt)
    returns (generated: seq<Segment>)
    ensures generated == DubbedSegments(segs, voiceMapping, workDir, hasClient, speak)
    ensures |generated| == |segs|
    ensures forall i :: 0 <= i < |segs| ==>
      generated[i] == if Synthesised(segs[i], i, voiceMapping, workDir, hasClient, speak)
                      then segs[i].(audioPath := Some(SegmentAudioPath(workDir, i, segs[i].speaker)))
                      else segs[i]
  {
    generated := [];
    for i := 0 to |segs|
      invariant |generated| == i
      invariant forall j :: 0 <= j < i ==>
        generated[j] == if Synthesised(segs[j], j, voiceMapping, workDir, hasClient, speak)
                        then segs[j].(audioPath := Some(SegmentAudioPath(workDir, j, segs[j].speaker)))
                        else segs[j]
    {
      var seg := segs[i];
      var text := SpeechText(seg);
      var speaker := seg.speaker;
      var voiceId := VoiceFor(voiceMapping, speaker);
      if text != "" && voiceId != "" {
        var audioPath := SegmentAudioPath(workDir, i, speaker);
        var success := ElevenLabsService.GenerateSpeech(hasClient, speak(text, voiceId, audioPath));
        if success {
          generated := generated + [seg.(audioPath := Some(audioPath))];
        } else {
          generated := generated + [seg];
        }
      } else {
        generated := generated + [seg];
      }
    }
  }

  predicate IsDigits(s: string) {
    forall k :: 0 <= k < |s| ==> '0' <= s[k] <= '9'
  }

  /** The number a string of decimal digits spells. */
  function DigitsValue(s: string): nat
    requires IsDigits(s)
    decreases |s|
  {
    if s == [] then 0 else DigitsValue(s[..|s| - 1]) * 10 + ((s[|s| - 1] as int) - ('0' as int))
  }

  lemma {:induction false} DecimalValue(n: nat)
    ensures IsDigits(Decimal(n)) && DigitsValue(Decimal(n)) == n
    decreases n
  {
    if n >= 10 {
      DecimalValue(n / 10);
      var d := Decimal(n);
      assert d[..|d| - 1] == Decimal(n / 10);
    }
  }

  lemma {:induction false} LeadingZeroValue(s: string)
    requires IsDigits(s)
    ensures IsDigits(['0'] + s) && DigitsValue(['0'] + s) == DigitsValue(s)
    decreases |s|
  {
    if s != [] {
      var t := ['0'] + s;
      assert t[..|t| - 1] == ['0'] + s[..|s| - 1];
      LeadingZeroValue(s[..|s| - 1]);
    } else {
      assert (['0'] + s)[..0] == [];
    }
  }

  lemma {:induction false} ZerosValue(k: nat, s: string)
    requires IsDigits(s)
    ensures IsDigits(seq(k, _ => '0') + s) && DigitsValue(seq(k, _ => '0') + s) == DigitsValue(s)
    decreases k
  {
    if k > 0 {
      ZerosValue(k - 1, s);
      assert seq(k, _ => '0') + s == ['0'] + (seq(k - 1, _ => '0') + s);
      LeadingZeroValue(seq(k - 1, _ => '0') + s);
    } else {
      assert seq(k, _ => '0') + s == s;
    }
  }

  /** The zero-padded index spells the index back. */
  lemma ZeroPad4Value(n: nat)
    ensures IsDigits(ZeroPad4(n)) && DigitsValue(ZeroPad4(n)) == n
  {
    DecimalValue(n);
    if |Decimal(n)| < 4 {
      ZerosValue(4 - |Decimal(n)|, Decimal(n));
    }
  }

  /** Two segments with different indexes never share an audio file. */
  lemma SegmentAudioPathsDistinct(workDir: string, i: nat, j: nat, si: string, sj: string)
    requires i != j
    ensures SegmentAudioPath(workDir, i, si) != SegmentAudioPath(workDir, j, sj)
  {
    ZeroPad4Value(i);
    ZeroPad4Value(j);
    var prefix := workDir + "/segment_audio/seg_";
    var ra, rb := "_" + si + ".mp3", "_" + sj + ".mp3";
    assert SegmentAudioPath(workDir, i, si) == prefix + ZeroPad4(i) + ra;
    assert SegmentAudioPath(workDir, j, sj) == prefix + ZeroPad4(j) + rb;
    DigitsBeforeSeparator(prefix, ZeroPad4(i), ra, ZeroPad4(j), rb);
  }

  /** A run of digits ended by '_' is read back unambiguously. */
  lemma DigitsBeforeSeparator(prefix: string, a: string, ra: string, b: string, rb: string)
    requires IsDigits(a) && IsDigits(b)
    requires ra != [] && ra[0] == '_' && rb != [] && rb[0] == '_'
    ensures prefix + a + ra == prefix + b + rb ==> a == b
  {
    var p, q := prefix + a + ra, prefix + b + rb;
    var n := |prefix|;
    if |a| < |b| {
      SeparatorFirst(prefix, a, ra, b, rb);
    } else if |b| < |a| {
      SeparatorFirst(prefix, b, rb, a, ra);
    } else if p == q {
      assert p[n..n + |a|] == a;
      assert q[n..n + |b|] == b;
    }
  }

  lemma SeparatorFirst(prefix: string, a: string, ra: string, b: string, rb: string)
    requires IsDigits(b) && |a| < |b|
    requires ra != [] && ra[0] == '_'
    ensures prefix + a + ra != prefix + b + rb
  {
    var p, q := prefix + a + ra, prefix + b + rb;
    var n := |prefix|;
    assert p[n + |a|] == '_';
    assert q[n + |a|] == b[|a|];
  }

  // ------------------------------------------------------------ full pipeline

  /** The foreign engines the pipeline calls; Err is an exception with its text. */
  datatype Engines = Engines(
    /** `download_video(url, local_path)`. */
    download: (string, string) -> Result<()>,
    /** ffmpeg audio extraction; Ok(b): the subprocess ran and b says whether the output exists. */
    extractAudio: (string, string) -> Result<bool>,
    diarize: (string, string, int, string) -> Result<seq<DiarItem>>,
    /** Importing faster_whisper, loading the model and reading the audio file. */
    transcriberSetup: Result<()>,
    whisper: (string, int, int, string) -> Result<string>,
    /** Importing the translator. */
    translatorSetup: Result<()>,
    translate: (string, string, string) -> Result<string>,
    hasSpeechClient: bool,
    speak: (string, string, string) -> ElevenLabsService.SpeechAttempt,
    /** `mix_audio`: the path of the mixed audio. */
    mix: (string, seq<Segment>) -> Result<string>,
    /** ffmpeg rendering; Ok(b): the subprocess ran and b says whether the output exists. */
    render: (string, string, string) -> Result<bool>,
    /** `upload_video(local_path, storage_path)`: the public URL. */
    upload: (string, string) -> Result<string>)

  const ExtractFailed: string := "Failed to extract audio from video"
  const RenderFailed: string := "Failed to render final video"

  /** `download_source_video` then `extract_audio`: the path of the extracted audio. */
  function SourceAudio(eng: Engines, workDir: string, videoUrl: string): (r: Result<string>)
    ensures r.Ok? <==> eng.download(videoUrl, workDir + "/source_video.mp4").Ok?
                       && eng.extractAudio(workDir + "/source_video.mp4", workDir + "/original_audio.wav") == Ok(true)
    ensures r.Ok? ==> r.value == workDir + "/original_audio.wav"
    ensures eng.download(videoUrl, workDir + "/source_video.mp4").Err? ==>
      r == Err(eng.download(videoUrl, workDir + "/source_video.mp4").msg)
    ensures eng.download(videoUrl, workDir + "/source_video.mp4").Ok?
            && eng.extractAudio(workDir + "/source_video.mp4", workDir + "/original_audio.wav").Err? ==>
      r == Err(eng.extractAudio(workDir + "/source_video.mp4", workDir + "/original_audio.wav").msg)
    ensures eng.download(videoUrl, workDir + "/source_video.mp4").Ok?
            && eng.extractAudio(workDir + "/source_video.mp4", workDir + "/original_audio.wav") == Ok(false) ==>
      r == Err(ExtractFailed)
  {
    var videoPath := workDir + "/source_video.mp4";
    var audioPath := workDir + "/original_audio.wav";
    match eng.download(videoUrl, videoPath)
    case Err(m) => Err(m)
    case Ok(_) =>
      match eng.extractAudio(videoPath, audioPath)
      case Err(m) => Err(m)
      case Ok(exists_) => if exists_ then Ok(audioPath) else Err(ExtractFailed)
  }

  /** The status checkpoints of the pipeline, in the order they are written. */
  const Checkpoints: seq<(Status, int)> := [
    (Diarizing, 5), (Diarizing, 15), (Transcribing, 30), (Translating, 50),
    (Dubbing, 65), (Mixing, 80), (Rendering, 90)
  ]

  /** The first k checkpoint updates for a project. */
  function CheckpointWrites(id: string, k: nat): (ws: seq<Write>)
    requires k <= |Checkpoints|
    ensures |ws| == k
  {
    if k == 0 then []
    else CheckpointWrites(id, k - 1) + [Write(id, StatusUpdate(Checkpoints[k - 1].0, Checkpoints[k - 1].1, None))]
  }

  /** The i-th checkpoint update sets the i-th status and progress, and no message. */
  lemma {:induction false} CheckpointWritesAt(id: string, k: nat)
    requires k <= |Checkpoints|
    ensures forall i :: 0 <= i < k ==>
      CheckpointWrites(id, k)[i] == Write(id, StatusUpdate(Checkpoints[i].0, Checkpoints[i].1, None))
  {
    if k > 0 {
      CheckpointWritesAt(id, k - 1);
    }
  }

  /** The final `update_project` of a successful run. */
  function CompletionUpdate(outputUrl: string): ProjectUpdate {
    ProjectUpdate(Some(Completed), Some(100), None, None, None, None, Some(outputUrl))
  }

  /** The updates one run of the pipeline sends: all checkpoints and the
      completion, or the checkpoints reached and then failed/0 with the message. */
  function PipelineWrites(id: string, r: Result<string>, reached: nat): seq<Write>
    requires reached <= |Checkpoints|
  {
    match r
    case Ok(url) => CheckpointWrites(id, |Checkpoints|) + [Write(id, CompletionUpdate(url))]
    case Err(m) => CheckpointWrites(id, reached) + [Write(id, StatusUpdate(Failed, 0, Some(m)))]
  }

  /** `update_status(status, progress)` at the k-th checkpoint. */
  method Checkpoint(store: ProjectStore, projectId: string, status: Status, progress: int,
                    ghost w0: seq<Write>, ghost k: nat)
    requires k < |Checkpoints| && Checkpoints[k] == (status, progress)
    requires store.Valid() && store.writes == w0 + CheckpointWrites(projectId, k)
    modifies store
    ensures store.Valid() && store.writes == w0 + CheckpointWrites(projectId, k + 1)
    ensures store.speakerRows == old(store.speakerRows)
  {
    store.UpdateProjectStatus(projectId, status, progress, None);
  }

  /** The `except` branch: `update_status("failed", 0, str(e))`, then re-raise. */
  method Fail(store: ProjectStore, projectId: string, msg: string, ghost w0: seq<Write>, ghost k: nat)
    returns (r: Result<string>)
    requires k <= |Checkpoints|
    requires store.Valid() && store.writes == w0 + CheckpointWrites(projectId, k)
    modifies store
    ensures r == Err(msg)
    ensures store.Valid() && store.writes == w0 + PipelineWrites(projectId, r, k)
    ensures store.speakerRows == old(store.speakerRows)
  {
    store.UpdateProjectStatus(projectId, Failed, 0, Some(msg));
    r := Err(msg);
  }

  /** The last update of a successful run: output URL, "completed" and 100. */
  method Complete(store: ProjectStore, projectId: string, outputUrl: string, ghost w0: seq<Write>)
    returns (r: Result<string>)
    requires store.Valid() && store.writes == w0 + CheckpointWrites(projectId, |Checkpoints|)
    modifies store
    ensures r == Ok(outputUrl)
    ensures store.Valid() && store.writes == w0 + PipelineWrites(projectId, r, |Checkpoints|)
    ensures store.speakerRows == old(store.speakerRows)
  {
    var _ := store.UpdateProject(projectId, CompletionUpdate(outputUrl));
    r := Ok(outputUrl);
  }

  /** Steps 1 to 3 as a value: the audio path and the diarized segments, or the
      error, with the number of checkpoints written by then. */
  function DiarizeOutcome(eng: Engines, projectId: string, workDir: string, videoUrl: string,
                          sourceLanguage: string, numSpeakers: int): (Result<(string, seq<Segment>)>, nat)
  {
    match SourceAudio(eng, workDir, videoUrl)
    case Err(m) => (Err(m), 1)
    case Ok(audio) =>
      match DiarizationOf(eng.diarize, audio, sourceLanguage, numSpeakers, projectId)
      case Err(m) => (Err(m), 2)
      case Ok(segs) => (Ok((audio, segs)), 2)
  }

  /** Steps 4 and 5 as a value. */
  function TextOutcome(eng: Engines, audioPath: string, segs: seq<Segment>,
                       sourceLanguage: string, targetLanguage: string): (Result<seq<Segment>>, nat)
  {
    match TranscriptionOf(eng.transcriberSetup, eng.whisper, audioPath, segs, sourceLanguage)
    case Err(m) => (Err(m), 3)
    case Ok(t) => (TranslationOf(eng.translatorSetup, eng.translate, t, sourceLanguage, targetLanguage), 4)
  }

  /** Steps 6 and 7 as a value: the mixed audio of the dubbed segments. */
  function DubOutcome(eng: Engines, workDir: string, segs: seq<Segment>,
                      voiceMapping: map<string, string>): (Result<string>, nat)
  {
    (eng.mix(workDir + "/source_video.mp4", DubbedSegments(segs, voiceMapping, workDir, eng.hasSpeechClient, eng.speak)), 6)
  }

  /** `work_dir / f"output_{project_id}.mp4"`. */
  function OutputPath(workDir: string, projectId: string): string {
    workDir + "/output_" + projectId + ".mp4"
  }

  /** `f"{project_id}/output_{project_id}.mp4"`, the path in storage. */
  function StoragePath(projectId: string): string {
    projectId + "/output_" + projectId + ".mp4"
  }

  /** `render_final_video` then `upload_result`: the public URL, or the error. */
  function OutputOutcome(eng: Engines, projectId: string, workDir: string, mixedAudio: string): Result<string> {
    match eng.render(workDir + "/source_video.mp4", mixedAudio, OutputPath(workDir, projectId))
    case Err(m) => Err(m)
    case Ok(exists_) =>
      if !exists_ then Err(RenderFailed) else eng.upload(OutputPath(workDir, projectId), StoragePath(projectId))
  }

  /** Reference definition of `process_full_pipeline`: its result and the number
      of checkpoints it writes, as determined by the engines' answers. */
  function PipelineOutcome(eng: Engines, projectId: string, workDir: string, videoUrl: string,
                           sourceLanguage: string, targetLanguage: string,
                           voiceMapping: map<string, string>, numSpeakers: int): (o: (Result<string>, nat))
    ensures 1 <= o.1 <= |Checkpoints|
    ensures o.0.Ok? ==> o.1 == |Checkpoints|
  {
    var (d, k1) := DiarizeOutcome(eng, projectId, workDir, videoUrl, sourceLanguage, numSpeakers);
    if d.Err? then (Err(d.msg), k1)
    else
      var (t, k2) := TextOutcome(eng, d.value.0, d.value.1, sourceLanguage, targetLanguage);
      if t.Err? then (Err(t.msg), k2)
      else
        var (m, k3) := DubOutcome(eng, workDir, t.value, voiceMapping);
        if m.Err? then (Err(m.msg), k3)
        else (OutputOutcome(eng, projectId, workDir, m.value), |Checkpoints|)
  }

  /** A run succeeds exactly when every stage succeeds: the audio is fetched,
      diarization, transcription and translation return, mixing returns, the
      rendered file exists and the upload returns. Its URL is the one the upload
      of the rendered file returns. */
  lemma PipelineSucceedsIff(eng: Engines, projectId: string, workDir: string, videoUrl: string,
                            sourceLanguage: string, targetLanguage: string,
                            voiceMapping: map<string, string>, numSpeakers: int)
    ensures var o := PipelineOutcome(eng, projectId, workDir, videoUrl, sourceLanguage, targetLanguage,
                                     voiceMapping, numSpeakers);
      o.0.Ok? <==>
        && SourceAudio(eng, workDir, videoUrl).Ok?
        && var audio := SourceAudio(eng, workDir, videoUrl).value;
        && DiarizationOf(eng.diarize, audio, sourceLanguage, numSpeakers, projectId).Ok?
        && var segs := DiarizationOf(eng.diarize, audio, sourceLanguage, numSpeakers, projectId).value;
        && TranscriptionOf(eng.transcriberSetup, eng.whisper, audio, segs, sourceLanguage).Ok?
        && var text := TranscriptionOf(eng.transcriberSetup, eng.whisper, audio, segs, sourceLanguage).value;
        && TranslationOf(eng.translatorSetup, eng.translate, text, sourceLanguage, targetLanguage).Ok?
        && var translated := TranslationOf(eng.translatorSetup, eng.translate, text, sourceLanguage, targetLanguage).value;
        && var mixed := eng.mix(workDir + "/source_video.mp4",
                                DubbedSegments(translated, voiceMapping, workDir, eng.hasSpeechClient, eng.speak));
        && mixed.Ok?
        && eng.render(workDir + "/source_video.mp4", mixed.value, OutputPath(workDir, projectId)) == Ok(true)
        && eng.upload(OutputPath(workDir, projectId), StoragePath(projectId)).Ok?
    ensures var o := PipelineOutcome(eng, projectId, workDir, videoUrl, sourceLanguage, targetLanguage,
                                     voiceMapping, numSpeakers);
      o.0.Ok? ==> o.0 == eng.upload(OutputPath(workDir, projectId), StoragePath(projectId))
  {
  }

  /** Steps 1 to 3 of `process_full_pipeline`: checkpoint diarizing/5, fetch the
      audio, checkpoint diarizing/15, diarize. */
  method DiarizeStage(store: ProjectStore, projectId: string, workDir: string, videoUrl: string,
                      sourceLanguage: string, numSpeakers: int, eng: Engines, ghost w0: seq<Write>)
    returns (r: Result<(string, seq<Segment>)>, ghost reached: nat)
    requires store.Valid() && store.writes == w0
    modifies store
    ensures store.Valid() && store.speakerRows == old(store.speakerRows)
    ensures (r, reached) == DiarizeOutcome(eng, projectId, workDir, videoUrl, sourceLanguage, numSpeakers)
    ensures 1 <= reached <= 2
    ensures r.Ok? ==> reached == 2 && store.writes == w0 + CheckpointWrites(projectId, 2)
    ensures r.Err? ==> store.writes == w0 + PipelineWrites(projectId, Err(r.msg), reached)
  {
    reached := 0;
    assert w0 + CheckpointWrites(projectId, reached) == w0;
    Checkpoint(store, projectId, Diarizing, 5, w0, reached);
    reached := reached + 1;
    var audio := SourceAudio(eng, workDir, videoUrl);
    if audio.Err? {
      var _ := Fail(store, projectId, audio.msg, w0, reached);
      return Err(audio.msg), reached;
    }

    Checkpoint(store, projectId, Diarizing, 15, w0, reached);
    reached := reached + 1;
    var diarized := RunSpeakerDiarization(eng.diarize, audio.value, sourceLanguage, numSpeakers, projectId);
    if diarized.Err? {
      var _ := Fail(store, projectId, diarized.msg, w0, reached);
      return Err(diarized.msg), reached;
    }
    r := Ok((audio.value, diarized.value));
  }

  /** Steps 4 and 5: checkpoint transcribing/30, transcribe, checkpoint
      translating/50, translate. */
  method TextStage(store: ProjectStore, projectId: string, audioPath: string, segs: seq<Segment>,
                   sourceLanguage: string, targetLanguage: string, eng: Engines, ghost w0: seq<Write>)
    returns (r: Result<seq<Segment>>, ghost reached: nat)
    requires store.Valid() && store.writes == w0 + CheckpointWrites(projectId, 2)
    modifies store
    ensures store.Valid() && store.speakerRows == old(store.speakerRows)
    ensures (r, reached) == TextOutcome(eng, audioPath, segs, sourceLanguage, targetLanguage)
    ensures 3 <= reached <= 4
    ensures r.Ok? ==> reached == 4 && store.writes == w0 + CheckpointWrites(projectId, 4)
    ensures r.Err? ==> store.writes == w0 + PipelineWrites(projectId, Err(r.msg), reached)
  {
    reached := 2;
    Checkpoint(store, projectId, Transcribing, 30, w0, reached);
    reached := reached + 1;
    var transcribed := TranscribeSegments(eng.transcriberSetup, eng.whisper, audioPath, segs, sourceLanguage);
    if transcribed.Err? {
      var _ := Fail(store, projectId, transcribed.msg, w0, reached);
      return Err(transcribed.msg), reached;
    }

    Checkpoint(store, projectId, Translating, 50, w0, reached);
    reached := reached + 1;
    r := TranslateSegments(eng.translatorSetup, eng.translate, transcribed.value, sourceLanguage, targetLanguage);
    if r.Err? {
      var _ := Fail(store, projectId, r.msg, w0, reached);
    }
  }

  /** Steps 6 and 7: checkpoint dubbing/65, synthesise, checkpoint mixing/80, mix. */
  method DubStage(store: ProjectStore, projectId: string, workDir: string, segs: seq<Segment>,
                  voiceMapping: map<string, string>, eng: Engines, ghost w0: seq<Write>)
    returns (r: Result<string>, ghost reached: nat)
    requires store.Valid() && store.writes == w0 + CheckpointWrites(projectId, 4)
    modifies store
    ensures store.Valid() && store.speakerRows == old(store.speakerRows)
    ensures (r, reached) == DubOutcome(eng, workDir, segs, voiceMapping)
    ensures 5 <= reached <= 6
    ensures r.Ok? ==> reached == 6 && store.writes == w0 + CheckpointWrites(projectId, 6)
    ensures r.Err? ==> store.writes == w0 + PipelineWrites(projectId, Err(r.msg), reached)
  {
    reached := 4;
    Checkpoint(store, projectId, Dubbing, 65, w0, reached);
    reached := reached + 1;
    var dubbed := GenerateMultiVoiceAudio(segs, voiceMapping, workDir, eng.hasSpeechClient, eng.speak);

    Checkpoint(store, projectId, Mixing, 80, w0, reached);
    reached := reached + 1;
    r := eng.mix(workDir + "/source_video.mp4", dubbed);
    if r.Err? {
      var _ := Fail(store, projectId, r.msg, w0, reached);
    }
  }

  /** Steps 8 and 9: checkpoint rendering/90, render, upload, and the completion update. */
  method OutputStage(store: ProjectStore, projectId: string, workDir: string, mixedAudio: string,
                     eng: Engines, ghost w0: seq<Write>)
    returns (r: Result<string>)
    requires store.Valid() && store.writes == w0 + CheckpointWrites(projectId, 6)
    modifies store
    ensures store.Valid() && store.speakerRows == old(store.speakerRows)
    ensures r == OutputOutcome(eng, projectId, workDir, mixedAudio)
    ensures store.writes == w0 + PipelineWrites(projectId, r, |Checkpoints|)
  {
    Checkpoint(store, projectId, Rendering, 90, w0, 6);
    var videoPath := workDir + "/source_video.mp4";
    var outputPath := OutputPath(workDir, projectId);
    var rendered := eng.render(videoPath, mixedAudio, outputPath);
    if rendered.Err? || !rendered.value {
      r := Fail(store, projectId, if rendered.Err? then rendered.msg else RenderFailed, w0, |Checkpoints|);
      return;
    }
    var uploaded := eng.upload(outputPath, StoragePath(projectId));
    if uploaded.Err? {
      r := Fail(store, projectId, uploaded.msg, w0, |Checkpoints|);
      return;
    }
    r := Complete(store, projectId, uploaded.value, w0);
  }

  /** `process_full_pipeline`: the output URL or the re-raised exception, and,
      as a ghost, how many checkpoints were written before it ended. */
  method ProcessFullPipeline(store: ProjectStore, projectId: string, workDir: string, videoUrl: string,
                             sourceLanguage: string, targetLanguage: string,
                             voiceMapping: map<string, string>, numSpeakers: int, eng: Engines)
    returns (r: Result<string>, ghost reached: nat)
    requires store.Valid()
    modifies store
    ensures store.Valid()
    ensures (r, reached) == PipelineOutcome(eng, projectId, workDir, videoUrl, sourceLanguage, targetLanguage,
                                            voiceMapping, numSpeakers)
    ensures 1 <= reached <= |Checkpoints|
    ensures r.Ok? ==> reached == |Checkpoints|
    ensures store.writes == old(store.writes) + PipelineWrites(projectId, r, reached)
    ensures store.speakerRows == old(store.speakerRows)
  {
    ghost var w0 := store.writes;
    var diarized;
    diarized, reached := DiarizeStage(store, projectId, workDir, videoUrl, sourceLanguage, numSpeakers, eng, w0);
    if diarized.Err? {
      return Err(diarized.msg), reached;
    }
    var audioPath, segments := diarized.value.0, diarized.value.1;
    var translated;
    translated, reached := TextStage(store, projectId, audioPath, segments, sourceLanguage, targetLanguage, eng, w0);
    if translated.Err? {
      return Err(translated.msg), reached;
    }
    var mixed;
    mixed, reached := DubStage(store, projectId, workDir, translated.value, voiceMapping, eng, w0);
    if mixed.Err? {
      return Err(mixed.msg), reached;
    }
    r := OutputStage(store, projectId, workDir, mixed.value, eng, w0);
    reached := |Checkpoints|;
  }

  /** The status and progress of every update of a successful run, in order. */
  const SuccessTrace: seq<(Status, int)> := Checkpoints + [(Completed, 100)]

  /** On success the updates are diarizing/5, diarizing/15, transcribing/30,
      translating/50, dubbing/65, mixing/80, rendering/90, completed/100, and
      progress never decreases. */
  lemma SuccessWrites(id: string, url: string)
    ensures var ws := PipelineWrites(id, Ok(url), |Checkpoints|);
      && |ws| == |SuccessTrace| == 8
      && (forall i :: 0 <= i < |ws| ==>
            ws[i].id == id && ws[i].update.status == Some(SuccessTrace[i].0)
            && ws[i].update.progress == Some(SuccessTrace[i].1))
      && (forall i, j :: 0 <= i < j < |SuccessTrace| ==> SuccessTrace[i].1 <= SuccessTrace[j].1)
      && SuccessTrace[..7] == Checkpoints && Last(ws).update.outputVideoUrl == Some(url)
  {
    var ws := PipelineWrites(id, Ok(url), |Checkpoints|);
    CheckpointWritesAt(id, |Checkpoints|);
    assert ws[7] == Write(id, CompletionUpdate(url));
  }

  /** On failure the checkpoints reached are followed by failed/0, which carries
      the message exactly when the message is non-empty; progress rises until
      the failure resets it to 0. */
  lemma FailureWrites(id: string, msg: string, reached: nat)
    requires 1 <= reached <= |Checkpoints|
    ensures var ws := PipelineWrites(id, Err(msg), reached);
      && |ws| == reached + 1
      && (forall i :: 0 <= i < reached ==>
            ws[i].update.status == Some(Checkpoints[i].0) && ws[i].update.progress == Some(Checkpoints[i].1))
      && ws[reached].update.status == Some(Failed) && ws[reached].update.progress == Some(0)
      && ws[reached].update.errorMessage == (if msg != "" then Some(msg) else None)
      && (forall i, j :: 0 <= i < j < reached ==> ws[i].update.progress.value <= ws[j].update.progress.value)
  {
    CheckpointWritesAt(id, reached);
  }

  /** No update the pipeline sends sets `completed_at`: the completion goes
      through `update_project`, not through `update_project_status`. */
  lemma PipelineNeverSetsCompletedAt(id: string, r: Result<string>, reached: nat)
    requires reached <= |Checkpoints|
    ensures forall w :: w in PipelineWrites(id, r, reached) ==> w.update.completedAt == None
  {
    CheckpointWritesAt(id, if r.Ok? then |Checkpoints| else reached);
  }

  lemma {:induction false} ReplayUnwritten(db: map<string, Project>, ws: seq<Write>, id: string)
    requires id in db
    requires forall k :: 0 <= k < |ws| ==> ws[k].update.completedAt == None && ws[k].update.errorMessage == None
    ensures id in Replay(db, ws)
    ensures Replay(db, ws)[id].completedAt == db[id].completedAt
    ensures Replay(db, ws)[id].errorMessage == db[id].errorMessage
    decreases |ws|
  {
    if ws != [] {
      ReplayUnwritten(db, ws[..|ws| - 1], id);
    }
  }

  /** The stored record after a pipeline run: completed/100 with the output URL,
      or failed/0 with the message (the old message stays when the new one is
      empty); `completed_at` is never touched. */
  lemma PipelineFinalRecord(db: map<string, Project>, id: string, r: Result<string>, reached: nat)
    requires id in db && 1 <= reached <= |Checkpoints|
    ensures var ws := PipelineWrites(id, r, reached);
      && id in Replay(db, ws)
      && var p := Replay(db, ws)[id];
      && p.completedAt == db[id].completedAt
      && (r.Ok? ==> p.status == Completed && p.progress == 100 && p.outputVideoUrl == Some(r.value)
                    && p.errorMessage == db[id].errorMessage)
      && (r.Err? ==> p.status == Failed && p.progress == 0
                     && p.errorMessage == (if r.msg != "" then Some(r.msg) else db[id].errorMessage))
  {
    var ws := PipelineWrites(id, r, reached);
    var k := if r.Ok? then |Checkpoints| else reached;
    var cps := CheckpointWrites(id, k);
    CheckpointWritesAt(id, k);
    assert ws[..|ws| - 1] == cps;
    ReplayUnwritten(db, cps, id);
  }
}
