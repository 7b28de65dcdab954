/** The client of the pyvideotrans HTTP API: the four requests that start a
    task and hand back its id, and the loop that polls a task until it ends.
    The HTTP transport is an oracle: `post` answers a request, `poll(k)` is the
    answer to the k-th status request of one wait. Time is in integer ticks. */
module PyVideoTransClient {
  import opened Util

  /** A JSON scalar in a request body. */
  datatype JsonValue = JStr(s: string) | JInt(n: int) | JBool(b: bool)

  /** A POST to `url` with a JSON object body, keys in order. */
  datatype Request = Request(url: string, body: seq<(string, JsonValue)>)

  /** The decoded JSON answer to a POST (None marks a missing key), or the
      exception raised while sending it or decoding the answer. */
  datatype PostReply =
    | Json(code: Option<int>, msg: Option<string>, taskId: Option<string>)
    | PostRaised(error: string)

  /** The classification the four task-starting requests share: the task id
      when the answer's code is 0, None for any other code, a missing code or
      an exception. */
  function TaskIdOf(reply: PostReply): (r: Option<string>)
    ensures r.Some? ==> reply.Json? && reply.code == Some(0) && r == reply.taskId
    ensures reply.Json? && reply.code == Some(0) ==> r == reply.taskId
    ensures reply.PostRaised? ==> r == None
  {
    match reply
    case PostRaised(_) => None
    case Json(code, _, taskId) => if code == Some(0) then taskId else None
  }

  function RecognRequest(baseUrl: string, videoPath: string, detectLanguage: string,
                         recognType: int, modelName: string, isCuda: bool): Request
  {
    Request(baseUrl + "/recogn",
            [("name", JStr(videoPath)), ("recogn_type", JInt(recognType)),
             ("model_name", JStr(modelName)), ("detect_language", JStr(detectLanguage)),
             ("is_cuda", JBool(isCuda)), ("split_type", JStr("all"))])
  }

  /** `recognize_speech`: start speech recognition; defaults as in the client. */
  function RecognizeSpeech(post: Request -> PostReply, baseUrl: string, videoPath: string,
                           detectLanguage: string := "en", recognType: int := 0,
                           modelName: string := "medium", isCuda: bool := false): (r: Option<string>)
    ensures var reply := post(RecognRequest(baseUrl, videoPath, detectLanguage, recognType, modelName, isCuda));
      (r.Some? ==> reply.Json? && reply.code == Some(0)) && (reply.Json? && reply.code == Some(0) ==> r == reply.taskId)
  {
    TaskIdOf(post(RecognRequest(baseUrl, videoPath, detectLanguage, recognType, modelName, isCuda)))
  }

  function TranslateRequest(baseUrl: string, srtContent: string, sourceLanguage: string,
                            targetLanguage: string, translateType: int): Request
  {
    Request(baseUrl + "/translate_srt",
            [("name", JStr(srtContent)), ("source_code", JStr(sourceLanguage)),
             ("target_language", JStr(targetLanguage)), ("translate_type", JInt(translateType))])
  }

  /** `translate_subtitles`: start a subtitle translation. */
  function TranslateSubtitles(post: Request -> PostReply, baseUrl: string, srtContent: string,
                              sourceLanguage: string, targetLanguage: string,
                              translateType: int := 0): (r: Option<string>)
    ensures var reply := post(TranslateRequest(baseUrl, srtContent, sourceLanguage, targetLanguage, translateType));
      (r.Some? ==> reply.Json? && reply.code == Some(0)) && (reply.Json? && reply.code == Some(0) ==> r == reply.taskId)
  {
    TaskIdOf(post(TranslateRequest(baseUrl, srtContent, sourceLanguage, targetLanguage, translateType)))
  }

  function TtsRequest(baseUrl: string, srtContent: string, voiceRole: string, targetLanguage: string,
                      ttsType: int, voiceRate: string, voiceAutorate: bool): Request
  {
    Request(baseUrl + "/tts",
            [("name", JStr(srtContent)), ("voice_role", JStr(voiceRole)),
             ("target_language_code", JStr(targetLanguage)), ("tts_type", JInt(ttsType)),
             ("voice_rate", JStr(voiceRate)), ("voice_autorate", JBool(voiceAutorate)),
             ("out_ext", JStr("wav"))])
  }

  /** `text_to_speech`: start speech synthesis from subtitles (type 9 is ElevenLabs). */
  function TextToSpeech(post: Request -> PostReply, baseUrl: string, srtContent: string,
                        voiceRole: string, targetLanguage: string, ttsType: int := 9,
                        voiceRate: string := "+0%", voiceAutorate: bool := true): (r: Option<string>)
    ensures var reply := post(TtsRequest(baseUrl, srtContent, voiceRole, targetLanguage, ttsType, voiceRate, voiceAutorate));
      (r.Some? ==> reply.Json? && reply.code == Some(0)) && (reply.Json? && reply.code == Some(0) ==> r == reply.taskId)
  {
    TaskIdOf(post(TtsRequest(baseUrl, srtContent, voiceRole, targetLanguage, ttsType, voiceRate, voiceAutorate)))
  }

  function TransVideoRequest(baseUrl: string, videoPath: string, sourceLanguage: string,
                             targetLanguage: string, voiceRole: string, recognType: int,
                             translateType: int, ttsType: int, modelName: string, isCuda: bool,
                             voiceAutorate: bool, subtitleType: int): Request
  {
    Request(baseUrl + "/trans_video",
            [("name", JStr(videoPath)), ("recogn_type", JInt(recognType)),
             ("model_name", JStr(modelName)), ("is_cuda", JBool(isCuda)),
             ("translate_type", JInt(translateType)), ("source_language", JStr(sourceLanguage)),
             ("target_language", JStr(targetLanguage)), ("tts_type", JInt(ttsType)),
             ("voice_role", JStr(voiceRole)), ("voice_rate", JStr("+0%")),
             ("voice_autorate", JBool(voiceAutorate)), ("subtitle_type", JInt(subtitleType)),
             ("is_separate", JBool(false))])
  }

  /** `full_translation`: start the whole video translation pipeline. */
  function FullTranslation(post: Request -> PostReply, baseUrl: string, videoPath: string,
                           sourceLanguage: string, targetLanguage: string, voiceRole: string,
                           recognType: int := 0, translateType: int := 0, ttsType: int := 9,
                           modelName: string := "medium", isCuda: bool := false,
                           voiceAutorate: bool := true, subtitleType: int := 1): (r: Option<string>)
    ensures var reply := post(TransVideoRequest(baseUrl, videoPath, sourceLanguage, targetLanguage, voiceRole,
                                                recognType, translateType, ttsType, modelName, isCuda,
                                                voiceAutorate, subtitleType));
      (r.Some? ==> reply.Json? && reply.code == Some(0)) && (reply.Json? && reply.code == Some(0) ==> r == reply.taskId)
  {
    TaskIdOf(post(TransVideoRequest(baseUrl, videoPath, sourceLanguage, targetLanguage, voiceRole,
                                    recognType, translateType, ttsType, modelName, isCuda,
                                    voiceAutorate, subtitleType)))
  }

  /** The answer to a GET of the API root, or an exception. */
  datatype GetReply = HttpStatus(statusCode: int) | GetRaised(error: string)

  /** `health_check`: the API is up exactly when its root answers 200. */
  function HealthCheck(get: string -> GetReply, baseUrl: string): (up: bool)
    ensures up <==> get(baseUrl + "/") == HttpStatus(200)
  {
    match get(baseUrl + "/")
    case HttpStatus(c) => c == 200
    case GetRaised(_) => false
  }

  // ---------------------------------------------------------------- polling

  /** A task status dictionary `{code, msg, data}`; None marks a missing key. */
  datatype TaskStatus = TaskStatus(code: Option<int>, msg: Option<string>, data: Option<string>)

  /** The answer to one `task_status` request, or the exception it raised. */
  datatype StatusReply = Answered(status: TaskStatus) | StatusRaised(error: string)

  /** `get_task_status`: a failed request becomes `{code: 1, msg: str(e)}`. */
  function GetTaskStatus(reply: StatusReply): (s: TaskStatus)
    ensures reply.StatusRaised? ==> s == TaskStatus(Some(1), Some(reply.error), None)
    ensures reply.Answered? ==> s == reply.status
  {
    match reply
    case Answered(st) => st
    case StatusRaised(e) => TaskStatus(Some(1), Some(e), None)
  }

  /** `status.get("code", 1)`: a missing code counts as the error code 1. */
  function Code(s: TaskStatus): int {
    s.code.GetOr(1)
  }

  const TimeoutStatus: TaskStatus := TaskStatus(Some(2), Some("Task timeout"), None)

  /** Reference definition of the wait: the status it returns and how many
      status requests it has made, polling from round `round` with `elapsed` ticks gone. */
  function WaitFrom(poll: nat -> StatusReply, interval: nat, timeout: int, round: nat, elapsed: int): (TaskStatus, nat)
    requires interval > 0
    decreases timeout - elapsed
  {
    if elapsed >= timeout then (TimeoutStatus, round)
    else
      var s := GetTaskStatus(poll(round));
      if Code(s) >= 0 then (s, round + 1)
      else WaitFrom(poll, interval, timeout, round + 1, elapsed + interval)
  }

  /** The statuses of the first n polls, in order. */
  function Polled(poll: nat -> StatusReply, n: nat): (ss: seq<TaskStatus>)
    ensures |ss| == n
    ensures forall k :: 0 <= k < n ==> ss[k] == GetTaskStatus(poll(k))
  {
    if n == 0 then [] else Polled(poll, n - 1) + [GetTaskStatus(poll(n - 1))]
  }

  /** `wait_for_task`. Returns the final status, the number of status requests
      made, and the statuses handed to the progress callback (none without one). */
  method WaitForTask(poll: nat -> StatusReply, pollInterval: nat, timeout: int, hasCallback: bool)
    returns (result: TaskStatus, polls: nat, delivered: seq<TaskStatus>)
    requires pollInterval > 0
    ensures (result, polls) == WaitFrom(poll, pollInterval, timeout, 0, 0)
    ensures delivered == if hasCallback then Polled(poll, polls) else []
  {
    var elapsed := 0;
    polls := 0;
    delivered := [];
    while elapsed < timeout
      invariant WaitFrom(poll, pollInterval, timeout, polls, elapsed) == WaitFrom(poll, pollInterval, timeout, 0, 0)
      invariant delivered == if hasCallback then Polled(poll, polls) else []
      decreases timeout - elapsed
    {
      var status := GetTaskStatus(poll(polls));
      if hasCallback {
        delivered := delivered + [status];
      }
      polls := polls + 1;
      var code := Code(status);
      if code == 0 {
        return status, polls, delivered;
      } else if code > 0 {
        return status, polls, delivered;
      }
      elapsed := elapsed + pollInterval;
    }
    result := TimeoutStatus;
  }

  /** The wait never returns an in-progress status: its code is always at least 0. */
  lemma {:induction false} WaitResultSettled(poll: nat -> StatusReply, interval: nat, timeout: int, round: nat, elapsed: int)
    requires interval > 0
    ensures Code(WaitFrom(poll, interval, timeout, round, elapsed).0) >= 0
    decreases timeout - elapsed
  {
    if elapsed < timeout && Code(GetTaskStatus(poll(round))) < 0 {
      WaitResultSettled(poll, interval, timeout, round + 1, elapsed + interval);
    }
  }

  /** Each poll is made only while elapsed < timeout, and elapsed is the number of
      earlier rounds times the interval. */
  lemma {:induction false} WaitPollsInTime(poll: nat -> StatusReply, interval: nat, timeout: int, round: nat, elapsed: int)
    requires interval > 0 && elapsed == round * interval
    ensures var polls := WaitFrom(poll, interval, timeout, round, elapsed).1;
      polls >= round && (polls == round || (polls - 1) * interval < timeout)
    decreases timeout - elapsed
  {
    if elapsed < timeout && Code(GetTaskStatus(poll(round))) < 0 {
      assert elapsed + interval == (round + 1) * interval;
      WaitPollsInTime(poll, interval, timeout, round + 1, elapsed + interval);
    }
  }

  /** ⌈t / d⌉ for t > 0, and 0 when there is no time at all. */
  function CeilDiv(t: int, d: nat): nat
    requires d > 0
  {
    if t <= 0 then 0 else (t + d - 1) / d
  }

  lemma MulMonotone(x: int, y: int, d: nat)
    requires x <= y
    ensures x * d <= y * d
  {
    assert y * d - x * d == (y - x) * d;
  }

  lemma ScaledBelow(a: nat, d: nat, c: int)
    requires d > 0 && a * d <= c
    ensures a <= c / d
  {
    var q := c / d;
    assert c == q * d + c % d;
    assert (q + 1) * d == q * d + d;
    if a > q {
      MulMonotone(q + 1, a, d);
    }
  }

  lemma ScaledAbove(a: nat, d: nat, c: int)
    requires d > 0 && c < a * d + d
    ensures c / d <= a
  {
    var q := c / d;
    assert c == q * d + c % d;
    assert (a + 1) * d == a * d + d;
    if q > a {
      MulMonotone(a + 1, q, d);
    }
  }

  /** With a positive interval the wait makes at most ⌈timeout / interval⌉ requests. */
  lemma WaitPollBound(poll: nat -> StatusReply, interval: nat, timeout: int)
    requires interval > 0
    ensures WaitFrom(poll, interval, timeout, 0, 0).1 <= CeilDiv(timeout, interval)
  {
    WaitPollsInTime(poll, interval, timeout, 0, 0);
    var p := WaitFrom(poll, interval, timeout, 0, 0).1;
    if p > 0 {
      assert (p - 1) * interval < timeout;
      assert p * interval == (p - 1) * interval + interval;
      ScaledBelow(p, interval, timeout + interval - 1);
    }
  }

  /** While every answer is "in progress", the wait polls once per interval
      until the time is used up and then reports the timeout. */
  lemma {:induction false} PendingTimesOutFrom(poll: nat -> StatusReply, interval: nat, timeout: int, round: nat, elapsed: int)
    requires interval > 0 && elapsed == round * interval
    requires forall k: nat :: Code(GetTaskStatus(poll(k))) < 0
    ensures var (s, n) := WaitFrom(poll, interval, timeout, round, elapsed);
      s == TimeoutStatus && n >= round && n * interval >= timeout
      && (n == round || (n - 1) * interval < timeout)
    decreases timeout - elapsed
  {
    if elapsed < timeout {
      assert elapsed + interval == (round + 1) * interval;
      PendingTimesOutFrom(poll, interval, timeout, round + 1, elapsed + interval);
    }
  }

  /** While every answer is "in progress", the wait polls exactly
      ⌈timeout / interval⌉ times and then reports the timeout. */
  lemma PendingTimesOut(poll: nat -> StatusReply, interval: nat, timeout: int)
    requires interval > 0
    requires forall k: nat :: Code(GetTaskStatus(poll(k))) < 0
    ensures WaitFrom(poll, interval, timeout, 0, 0) == (TimeoutStatus, CeilDiv(timeout, interval))
  {
    PendingTimesOutFrom(poll, interval, timeout, 0, 0);
    var n := WaitFrom(poll, interval, timeout, 0, 0).1;
    if timeout > 0 {
      assert n > 0;
      assert n * interval == (n - 1) * interval + interval;
      ScaledBelow(n, interval, timeout + interval - 1);
      ScaledAbove(n, interval, timeout + interval - 1);
    }
  }

  /** The first status request decides the wait when its code is not negative:
      success (0), an error code, a missing code (1) or a failed request (1). */
  lemma FirstSettledStatusReturned(poll: nat -> StatusReply, interval: nat, timeout: int)
    requires interval > 0 && timeout > 0
    requires Code(GetTaskStatus(poll(0))) >= 0
    ensures WaitFrom(poll, interval, timeout, 0, 0) == (GetTaskStatus(poll(0)), 1)
  {
  }

  /** A missing code or a failed status request ends the wait at once with code 1. */
  lemma MissingCodeIsError(poll: nat -> StatusReply, interval: nat, timeout: int)
    requires interval > 0 && timeout > 0
    requires poll(0).StatusRaised? || poll(0).status.code == None
    ensures var (s, n) := WaitFrom(poll, interval, timeout, 0, 0); n == 1 && Code(s) == 1
  {
  }
}
