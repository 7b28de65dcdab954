/** The voice catalogue and speech synthesis of the ElevenLabs service. The SDK,
    the voices file and the HTTP transport are oracles: what the catalogue
    request returned, what the voices file parsed to, and what converting and
    writing one utterance did. */
module ElevenLabsService {
  import opened Util

  /** A voice as this service reports it. */
  datatype Voice = Voice(voiceId: string, name: string, category: string,
                         labels: map<string, string>, previewUrl: Option<string>)

  /** `self.api_key = api_key or settings.ELEVENLABS_API_KEY`; a client exists
      exactly when that key is non-empty. */
  function HasClient(apiKey: Option<string>, configuredKey: string): (has: bool)
    ensures has <==> Truthy(apiKey) || configuredKey != ""
  {
    (if Truthy(apiKey) then apiKey.value else configuredKey) != ""
  }

  // ------------------------------------------------------------ default voices

  /** A value of the voices file: a dictionary with its `voice_id` (None when
      the key is missing), or any value that is not a dictionary. */
  datatype VoiceEntry = VoiceDict(voiceId: Option<string>) | NotADict

  /** The voices file: missing, unreadable (including not JSON and not a JSON
      object), or its items in file order. */
  datatype VoiceFile = Absent | Unreadable | Parsed(items: seq<(string, VoiceEntry)>)

  /** The filter of the comprehension: a dictionary with a truthy `voice_id`. */
  predicate Listed(item: (string, VoiceEntry)) {
    item.1.VoiceDict? && Truthy(item.1.voiceId)
  }

  function FileVoice(item: (string, VoiceEntry)): Voice
    requires Listed(item)
  {
    Voice(item.1.voiceId.value, item.0, "premade", map[], None)
  }

  /** The voices the file lists, one per listed item, named by its key. */
  function FileVoices(items: seq<(string, VoiceEntry)>): (r: seq<Voice>)
    ensures |r| <= |items|
    ensures forall v :: v in r ==> v.voiceId != "" && v.category == "premade" && v.labels == map[] && v.previewUrl == None
    ensures forall v :: v in r <==> exists i :: 0 <= i < |items| && Listed(items[i]) && v == FileVoice(items[i])
  {
    if items == [] then []
    else
      var rest := FileVoices(items[1..]);
      assert forall i :: 1 <= i < |items| ==> items[i] == items[1..][i - 1];
      if Listed(items[0]) then [FileVoice(items[0])] + rest else rest
  }

  /** The file's voices keep the file's order: the voices of a concatenation
      are the voices of each part, one after the other. */
  lemma {:induction false} FileVoicesAppend(a: seq<(string, VoiceEntry)>, b: seq<(string, VoiceEntry)>)
    ensures FileVoices(a + b) == FileVoices(a) + FileVoices(b)
  {
    if a == [] {
      assert a + b == b;
    } else {
      assert (a + b)[1..] == a[1..] + b;
      FileVoicesAppend(a[1..], b);
    }
  }

  function FemaleLabels(): map<string, string> { map["gender" := "female"] }
  function MaleLabels(): map<string, string> { map["gender" := "male"] }

  /** The hard-coded voices used when the file cannot be used. */
  const FallbackVoices: seq<Voice> := [
    Voice("21m00Tcm4TlvDq8ikWAM", "Rachel", "premade", FemaleLabels(), None),
    Voice("AZnzlk1XvdvUeBnXmlld", "Domi", "premade", FemaleLabels(), None),
    Voice("EXAVITQu4vr4xnSDxMaL", "Bella", "premade", FemaleLabels(), None),
    Voice("ErXwobaYiN019PkySvjV", "Antoni", "premade", MaleLabels(), None),
    Voice("MF3mGyEYCl7XYWbV9V6O", "Elli", "premade", FemaleLabels(), None),
    Voice("TxGEqnHWrfWFTfGW9XjX", "Josh", "premade", MaleLabels(), None),
    Voice("VR6AewLTigWG4xSOukaG", "Arnold", "premade", MaleLabels(), None),
    Voice("pNInz6obpgDQGcFmaJgB", "Adam", "premade", MaleLabels(), None),
    Voice("yoZ06aMxZJJ28mfd3POQ", "Sam", "premade", MaleLabels(), None)
  ]

  /** The fallback list has nine premade voices with distinct, non-empty ids. */
  lemma FallbackVoicesDistinct()
    ensures |FallbackVoices| == 9
    ensures forall i, j :: 0 <= i < j < |FallbackVoices| ==> FallbackVoices[i].voiceId != FallbackVoices[j].voiceId
    ensures forall v :: v in FallbackVoices ==> v.voiceId != "" && v.category == "premade"
  {
  }

  /** `_get_default_voices`. */
  function DefaultVoices(file: VoiceFile): (r: seq<Voice>)
    ensures !file.Parsed? ==> r == FallbackVoices
    ensures file.Parsed? ==> r == FileVoices(file.items)
    ensures forall v :: v in r ==> v.voiceId != "" && v.category == "premade"
  {
    match file
    case Parsed(items) => FileVoices(items)
    case _ => FallbackVoices
  }

  // ---------------------------------------------------------------- catalogue

  /** A voice as the SDK returns it; None marks a null attribute. */
  datatype SdkVoice = SdkVoice(voiceId: string, name: string, category: Option<string>,
                               labels: Option<map<string, string>>, previewUrl: Option<string>)

  /** What `client.voices.get_all()` did. */
  datatype Catalogue = Fetched(voices: seq<SdkVoice>) | FetchRaised(error: string)

  function FromSdk(v: SdkVoice): Voice {
    Voice(v.voiceId, v.name, if Truthy(v.category) then v.category.value else "premade",
          v.labels.GetOr(map[]), v.previewUrl)
  }

  /** The catalogue voices, one per SDK voice, in order, with the defaults filled in. */
  function CatalogueVoices(vs: seq<SdkVoice>): (r: seq<Voice>)
    ensures |r| == |vs|
    ensures forall i :: 0 <= i < |vs| ==>
      && r[i].voiceId == vs[i].voiceId && r[i].name == vs[i].name && r[i].previewUrl == vs[i].previewUrl
      && r[i].category == (if Truthy(vs[i].category) then vs[i].category.value else "premade")
      && r[i].labels == (if vs[i].labels.Some? then vs[i].labels.value else map[])
  {
    if vs == [] then [] else [FromSdk(vs[0])] + CatalogueVoices(vs[1..])
  }

  /** `get_voices`: the catalogue when there is a client and fetching works,
      the defaults otherwise. */
  function GetVoices(hasClient: bool, fetch: Catalogue, file: VoiceFile): (r: seq<Voice>)
    ensures !hasClient || fetch.FetchRaised? ==> r == DefaultVoices(file)
    ensures hasClient && fetch.Fetched? ==> r == CatalogueVoices(fetch.voices)
    ensures forall v :: v in r ==> v.category != ""
  {
    if !hasClient then DefaultVoices(file)
    else
      match fetch
      case FetchRaised(_) => DefaultVoices(file)
      case Fetched(vs) => CatalogueVoices(vs)
  }

  /** The loop of `get_voice_by_id`: the first voice with that id, or None. */
  method FindVoice(voices: seq<Voice>, voiceId: string) returns (r: Option<Voice>)
    ensures r.Some? ==> (exists k :: 0 <= k < |voices| && voices[k] == r.value && voices[k].voiceId == voiceId
                          && forall j :: 0 <= j < k ==> voices[j].voiceId != voiceId)
    ensures r.None? <==> forall k :: 0 <= k < |voices| ==> voices[k].voiceId != voiceId
  {
    for i := 0 to |voices|
      invariant forall j :: 0 <= j < i ==> voices[j].voiceId != voiceId
    {
      if voices[i].voiceId == voiceId {
        return Some(voices[i]);
      }
    }
    return None;
  }

  /** `get_voice_by_id`: search the list `get_voices` returns. */
  method GetVoiceById(hasClient: bool, fetch: Catalogue, file: VoiceFile, voiceId: string) returns (r: Option<Voice>)
    ensures r.Some? ==> r.value in GetVoices(hasClient, fetch, file) && r.value.voiceId == voiceId
    ensures r.None? <==> forall v :: v in GetVoices(hasClient, fetch, file) ==> v.voiceId != voiceId
  {
    var voices := GetVoices(hasClient, fetch, file);
    r := FindVoice(voices, voiceId);
  }

  // ---------------------------------------------------------------- synthesis

  /** What the SDK's `convert` call and the writing of its chunks did. */
  datatype SpeechAttempt = ConvertRaised(error: string) | WriteRaised(error: string) | Written

  /** `generate_speech`: true only when there is a client and the audio was written. */
  function GenerateSpeech(hasClient: bool, attempt: SpeechAttempt): (ok: bool)
    ensures ok <==> hasClient && attempt == Written
  {
    hasClient && attempt.Written?
  }
}
