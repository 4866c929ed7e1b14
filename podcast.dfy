/** The podcast generator: speaker settings, the pre-flight name check, the
    two model calls (script, then speech) with the speech configuration built
    between them, the assembly of the returned audio into a blob, and the
    object URL the component owns. */
module Podcast {

  import opened Outcomes
  import opened Text
  import opened Wav

  datatype View = Idle | GeneratingScript | GeneratingAudio | Results

  datatype Style = Monologue | Dialogue

  datatype Speaker = Speaker(name: string, voice: string)

  /** The field of a speaker an input control edits. */
  datatype SpeakerField = Name | Voice

  /** The options of the voice selectors. */
  const Voices: seq<string> :=
    ["Kore", "Puck", "Charon", "Fenrir", "Leda", "Callirrhoe", "Aoede", "Enceladus",
     "Iapetus", "Algieba", "Algenib", "Rasalgethi", "Laomedeia", "Achernar", "Alnilam",
     "Schedar", "Gacrux", "Pulcherrima", "Achird", "Zubenelgenubi", "Vindemiatrix",
     "Sadachbia", "Sadaltager", "Sulafat", "Orus", "Autonoe", "Umbriel", "Erinome", "Despina"]

  /** The two speakers the component starts with. */
  const InitialSpeakers: seq<Speaker> := [Speaker("NARRADOR", "Kore"), Speaker("EXPERTO", "Puck")]

  /** The translation key of the message shown when a speaker name is blank. */
  const SpeakerNameError: string := "speakerNameError"

  /** The language tag every voice configuration carries. */
  const LanguageCode: string := "es-ES"

  const ErrorPrefix: string := "Error al generar el podcast. "
  const NoScriptMessage: string := "La IA no pudo generar un guion."
  const NoAudioMessage: string := "Gemini no devolvió audio. Respuesta: "

  /** A copy of `s` with one field replaced. */
  function WithField(s: Speaker, field: SpeakerField, value: string): (r: Speaker)
    ensures field == Name ==> r.name == value && r.voice == s.voice
    ensures field == Voice ==> r.voice == value && r.name == s.name
  {
    match field
    case Name => s.(name := value)
    case Voice => s.(voice := value)
  }

  /** The speakers a style speaks with: the first alone for a monologue, all
      of them for a dialogue. */
  function ActiveSpeakers(style: Style, speakers: seq<Speaker>): seq<Speaker>
    requires |speakers| > 0
  {
    if style == Monologue then [speakers[0]] else speakers
  }

  /** The pre-flight check: no active speaker has a blank name. */
  predicate NamesValid(style: Style, speakers: seq<Speaker>)
    requires |speakers| > 0
  {
    forall s :: s in ActiveSpeakers(style, speakers) ==> !IsBlank(s.name)
  }

  /** A monologue checks only the first speaker's name; a dialogue checks
      every speaker's name. */
  lemma NamesValidByStyle(style: Style, speakers: seq<Speaker>)
    requires |speakers| > 0
    ensures style == Monologue ==> (NamesValid(style, speakers) <==> !IsBlank(speakers[0].name))
    ensures style == Dialogue ==>
              (NamesValid(style, speakers) <==> forall i :: 0 <= i < |speakers| ==> !IsBlank(speakers[i].name))
  {
    if style == Dialogue && !NamesValid(style, speakers) {
      var s :| s in speakers && IsBlank(s.name);
      var i :| 0 <= i < |speakers| && speakers[i] == s;
    }
  }

  datatype VoiceConfig = PrebuiltVoice(voiceName: string, languageCode: string)

  datatype SpeakerVoice = SpeakerVoice(speaker: string, voiceConfig: VoiceConfig)

  /** The `speechConfig` of the audio request: one voice, or one voice per
      named speaker. */
  datatype SpeechConfig =
    | SingleVoice(voiceConfig: VoiceConfig)
    | MultiSpeaker(speakerVoiceConfigs: seq<SpeakerVoice>)

  /** The name a speaker goes by in the script and in the speech config:
      trimmed and upper-cased. */
  function SpeakerLabel(s: Speaker): string
  {
    ToUpper(Trim(s.name))
  }

  /** The speech configuration built once the script has arrived. */
  function BuildSpeechConfig(style: Style, speakers: seq<Speaker>): SpeechConfig
    requires |speakers| > 0
  {
    if style == Monologue then SingleVoice(PrebuiltVoice(speakers[0].voice, LanguageCode))
    else MultiSpeaker(seq(|speakers|, i requires 0 <= i < |speakers| =>
                            SpeakerVoice(SpeakerLabel(speakers[i]),
                                         PrebuiltVoice(speakers[i].voice, LanguageCode))))
  }

  /** A monologue is voiced by the first speaker's voice alone. A dialogue
      lists every speaker in order with that speaker's own voice, under a
      label that is non-blank once the names pass the pre-flight check and
      that is already trimmed. Every voice is tagged es-ES. */
  lemma SpeechConfigShape(style: Style, speakers: seq<Speaker>)
    requires |speakers| > 0
    ensures var c := BuildSpeechConfig(style, speakers);
      && (style == Monologue ==>
            c.SingleVoice? && c.voiceConfig.voiceName == speakers[0].voice
            && c.voiceConfig.languageCode == LanguageCode)
      && (style == Dialogue ==>
            && c.MultiSpeaker?
            && |c.speakerVoiceConfigs| == |speakers|
            && forall i :: 0 <= i < |speakers| ==>
                 && c.speakerVoiceConfigs[i].voiceConfig == PrebuiltVoice(speakers[i].voice, LanguageCode)
                 && c.speakerVoiceConfigs[i].speaker == SpeakerLabel(speakers[i])
                 && Trim(c.speakerVoiceConfigs[i].speaker) == c.speakerVoiceConfigs[i].speaker
                 && (NamesValid(style, speakers) ==> c.speakerVoiceConfigs[i].speaker != ""))
  {
    if style == Dialogue {
      NamesValidByStyle(style, speakers);
      forall i | 0 <= i < |speakers|
        ensures Trim(SpeakerLabel(speakers[i])) == SpeakerLabel(speakers[i])
      {
        UpperOfTrimmedIsTrimmed(speakers[i].name);
      }
    }
  }

  /** `part.mimeType || 'audio/wav'`. */
  function EffectiveMime(declared: Option<string>): (mime: string)
    ensures mime != ""
    ensures Present(declared) ==> mime == declared.value
    ensures !Present(declared) ==> mime == "audio/wav"
  {
    OrElse(declared, "audio/wav")
  }

  /** ASCII lower case of one character. */
  function AsciiLower(c: char): char
  {
    if 'A' <= c <= 'Z' then (c as int + 32) as char else c
  }

  /** `' ' <= c <= '~'`: the characters a blob type may hold. */
  predicate PrintableAscii(c: char)
  {
    ' ' <= c <= '~'
  }

  /** The type `new Blob(parts, { type })` records, following the steps of
      the `Blob` constructor in the W3C File API: a type holding a character
      outside U+0020 to U+007E becomes the empty string; any other type is
      converted to ASCII lower case. */
  function BlobType(t: string): (r: string)
    ensures (forall i :: 0 <= i < |t| ==> PrintableAscii(t[i])) ==>
              |r| == |t| && forall i :: 0 <= i < |t| ==> r[i] == AsciiLower(t[i])
    ensures (exists i :: 0 <= i < |t| && !PrintableAscii(t[i])) ==> r == ""
  {
    if forall i :: 0 <= i < |t| ==> PrintableAscii(t[i]) then
      seq(|t|, i requires 0 <= i < |t| => AsciiLower(t[i]))
    else ""
  }

  /** Normalising a blob type twice changes nothing more, and a printable
      type without upper-case letters is kept as it is. */
  lemma BlobTypeNormal(t: string)
    ensures BlobType(BlobType(t)) == BlobType(t)
    ensures (forall i :: 0 <= i < |t| ==> PrintableAscii(t[i]) && !('A' <= t[i] <= 'Z')) ==> BlobType(t) == t
  {
    var r := BlobType(t);
    if forall i :: 0 <= i < |t| ==> PrintableAscii(t[i]) {
      assert forall i :: 0 <= i < |r| ==> PrintableAscii(r[i]) && AsciiLower(r[i]) == r[i];
    }
  }

  /** The blob made from the decoded audio: raw `audio/L16` samples are
      framed as a WAVE file with the default format; any other payload is
      kept as it is under its declared type, normalised as the `Blob`
      constructor does. */
  function AudioBlob(declared: Option<string>, decoded: seq<byte>): Blob
  {
    var mime := EffectiveMime(declared);
    FieldSlices(decoded, DefaultFormat);
    if StartsWith(mime, "audio/L16") then Blob(WavFile(decoded, DefaultFormat), "audio/wav")
    else Blob(decoded, BlobType(mime))
  }

  /** Raw PCM comes back as a playable `audio/wav` file of 44 + n bytes whose
      samples are the decoded bytes and whose header a WAVE reader parses as
      24000 Hz mono 16-bit; any other payload keeps its bytes, and its type
      is the declared one (an absent or empty type counting as `audio/wav`)
      normalised by the `Blob` constructor, so `audio/MPEG` is recorded as
      `audio/mpeg`. */
  lemma AudioBlobSpec(declared: Option<string>, decoded: seq<byte>)
    ensures var b := AudioBlob(declared, decoded);
      && (StartsWith(EffectiveMime(declared), "audio/L16") ==>
            && b.mimeType == "audio/wav" && |b.bytes| == 44 + |decoded| && b.bytes[44..] == decoded
            && (36 + |decoded| < Uint32Range ==>
                  ParseWav(b.bytes) == Some(WavInfo(DefaultFormat, 48000, 2, decoded))))
      && (!StartsWith(EffectiveMime(declared), "audio/L16") ==>
            b.bytes == decoded
            && b.mimeType == BlobType(if Present(declared) then declared.value else "audio/wav"))
  {
    WavLayout(decoded, DefaultFormat);
    if 36 + |decoded| < Uint32Range {
      ParseWavFile(decoded, DefaultFormat);
    }
  }

  /** A declared `audio/MPEG` payload is recorded as `audio/mpeg`. */
  lemma UpperCaseTypeLowered(decoded: seq<byte>)
    ensures AudioBlob(Some("audio/MPEG"), decoded) == Blob(decoded, "audio/mpeg")
  {
    var t := "audio/MPEG";
    assert !StartsWith(t, "audio/L16") by {
      assert t[..9] != "audio/L16" by { assert t[6] != "audio/L16"[6]; }
    }
    assert forall i :: 0 <= i < |t| ==> PrintableAscii(t[i]);
  }

  /** A 2400-byte `audio/L16;rate=24000` payload becomes a 2444-byte WAVE
      file. */
  lemma PcmPayloadExample(decoded: seq<byte>)
    requires |decoded| == 2400
    ensures AudioBlob(Some("audio/L16;rate=24000"), decoded).mimeType == "audio/wav"
    ensures |AudioBlob(Some("audio/L16;rate=24000"), decoded).bytes| == 2444
  {
    assert StartsWith("audio/L16;rate=24000", "audio/L16");
  }

  /** Picks the blob constructor for the declared type, calling `pcmToWav`
      for raw samples. */
  method AssembleAudio(declared: Option<string>, decoded: seq<byte>) returns (blob: Blob)
    ensures blob == AudioBlob(declared, decoded)
  {
    var mime := if declared.Some? && declared.value != "" then declared.value else "audio/wav";
    if |mime| >= 9 && mime[..9] == "audio/L16" {
      blob := PcmToWav(decoded);
    } else {
      blob := Blob(decoded, BlobType(mime));
    }
  }

  /** An object URL from `URL.createObjectURL(blob)`; `serial` keeps URLs
      created at different times distinct. */
  datatype ObjectUrl = ObjectUrl(serial: nat, blob: Blob)

  /** The values the `handleGenerate` closure captured when it was invoked. */
  datatype Request = Request(style: Style, speakers: seq<Speaker>)

  /** The second model call: the script as contents, and the speech setup. */
  datatype AudioCall = AudioCall(contents: string, speechConfig: SpeechConfig)

  /** The first inline-data part of the audio response. */
  datatype InlineData = InlineData(mimeType: Option<string>, data: Option<string>)

  /** The audio response: its first inline-data part, if there is one, and
      its JSON rendering (quoted in the error message when there is no audio). */
  datatype AudioResponse = AudioResponse(part: Option<InlineData>, json: string)

  class PodcastGenerator {
    var view: View
    var script: Option<string>
    var style: Style
    var speakers: seq<Speaker>
    var audioUrl: Option<ObjectUrl>
    var error: Option<string>
    /** Whether the model client exists (`ai` is set). */
    const hasClient: bool
    /** How many object URLs have been created so far. */
    var urlsCreated: nat
    /** The object URLs created and not yet revoked. */
    ghost var live: set<ObjectUrl>

    /** Two speakers are always configured; the only live object URL is the
        one held in `audioUrl`; the results view always has audio. */
    ghost predicate Valid()
      reads this
    {
      && |speakers| == 2
      && live == (if audioUrl.Some? then {audioUrl.value} else {})
      && (audioUrl.Some? ==> audioUrl.value.serial < urlsCreated)
      && (view == Results ==> audioUrl.Some?)
      && (view == GeneratingAudio ==> script.Some?)
    }

    constructor (hasClient: bool)
      ensures Valid()
      ensures view == Idle && script == None && style == Dialogue && speakers == InitialSpeakers
      ensures audioUrl == None && error == None && this.hasClient == hasClient
    {
      view := Idle;
      script := None;
      style := Dialogue;
      speakers := InitialSpeakers;
      audioUrl := None;
      error := None;
      this.hasClient := hasClient;
      urlsCreated := 0;
      live := {};
    }

    /** `URL.revokeObjectURL(url)`. */
    method Revoke(url: ObjectUrl)
      modifies this`live
      ensures live == old(live) - {url}
    {
      live := live - {url};
    }

    /** `setAudioUrl(u)`, together with the effect that revokes the previous
        URL whenever `audioUrl` changes. */
    method SetAudioUrl(u: Option<ObjectUrl>)
      modifies this`audioUrl, this`live
      ensures audioUrl == u
      ensures live == if old(audioUrl).Some? && old(audioUrl) != u then old(live) - {old(audioUrl).value} else old(live)
    {
      if audioUrl.Some? && audioUrl != u {
        Revoke(audioUrl.value);
      }
      audioUrl := u;
    }

    method SetStyle(s: Style)
      requires Valid()
      modifies this`style
      ensures Valid() && style == s
    {
      style := s;
    }

    /** `handleSpeakerChange(index, field, value)`: replaces one field of one
        speaker and leaves everything else as it was. */
    method HandleSpeakerChange(index: nat, field: SpeakerField, value: string)
      requires Valid() && index < |speakers|
      modifies this`speakers
      ensures Valid()
      ensures |speakers| == |old(speakers)|
      ensures speakers[index] == WithField(old(speakers)[index], field, value)
      ensures forall j :: 0 <= j < |speakers| && j != index ==> speakers[j] == old(speakers)[j]
    {
      speakers := speakers[index := WithField(speakers[index], field, value)];
    }

    /** The synchronous start of `handleGenerate`, up to its first `await`.
        Without a client or page content nothing happens; a blank active
        speaker name only sets the error; otherwise the script phase starts
        with the error, the script and the audio cleared and the old URL
        revoked, and the closure's captured settings are returned. */
    method BeginGenerate(pageContent: Option<string>) returns (req: Option<Request>)
      requires Valid()
      modifies this
      ensures Valid()
      ensures style == old(style) && speakers == old(speakers) && urlsCreated == old(urlsCreated)
      ensures !hasClient || !Present(pageContent) ==>
                req == None && view == old(view) && script == old(script) && error == old(error)
                && audioUrl == old(audioUrl) && live == old(live)
      ensures hasClient && Present(pageContent) && !NamesValid(style, speakers) ==>
                req == None && view == old(view) && script == old(script)
                && error == Some(SpeakerNameError) && audioUrl == old(audioUrl) && live == old(live)
      ensures hasClient && Present(pageContent) && NamesValid(style, speakers) ==>
                req == Some(Request(style, speakers)) && view == GeneratingScript
                && script == None && error == None && audioUrl == None && live == {}
    {
      if !hasClient || !(pageContent.Some? && pageContent.value != "") {
        return None;
      }
      var current := if style == Monologue then [speakers[0]] else speakers;
      if exists s :: s in current && Trim(s.name) == "" {
        error := Some(SpeakerNameError);
        return None;
      }
      view := GeneratingScript;
      error := None;
      script := None;
      if audioUrl.Some? {
        Revoke(audioUrl.value);
      }
      SetAudioUrl(None);
      req := Some(Request(style, speakers));
    }

    /** The catch block of `handleGenerate`. */
    method Fail(e: Thrown)
      requires Valid()
      modifies this`error, this`view
      ensures Valid() && error == Some(FailureMessage(ErrorPrefix, e)) && view == Idle
    {
      error := Some(FailureMessage(ErrorPrefix, e));
      view := Idle;
    }

    /** `handleGenerate` after the script call returns or throws. A throw or a
        blank script ends in the idle view with the error set. Otherwise the
        trimmed script is stored, the audio phase starts and the audio request
        is returned: the script as contents and the speech configuration built
        from the captured settings. */
    method ScriptArrived(req: Request, response: Result<string, Thrown>) returns (call: Option<AudioCall>)
      requires Valid() && |req.speakers| > 0
      modifies this
      ensures Valid()
      ensures style == old(style) && speakers == old(speakers) && audioUrl == old(audioUrl)
      ensures live == old(live) && urlsCreated == old(urlsCreated)
      ensures response.Err? ==>
                call == None && view == Idle && script == old(script)
                && error == Some(FailureMessage(ErrorPrefix, response.error))
      ensures response.Ok? && IsBlank(response.value) ==>
                call == None && view == Idle && script == old(script)
                && error == Some(ErrorPrefix + NoScriptMessage)
      ensures response.Ok? && !IsBlank(response.value) ==>
                && call == Some(AudioCall(Trim(response.value), BuildSpeechConfig(req.style, req.speakers)))
                && view == GeneratingAudio && script == Some(Trim(response.value)) && error == old(error)
    {
      if response.Err? {
        Fail(response.error);
        return None;
      }
      var generatedScript := Trim(response.value);
      if generatedScript == "" {
        Fail(Error(NoScriptMessage));
        return None;
      }
      script := Some(generatedScript);
      view := GeneratingAudio;
      call := Some(AudioCall(generatedScript, BuildSpeechConfig(req.style, req.speakers)));
    }

    /** `handleGenerate` after the audio call returns or throws. A throw, a
        response without inline audio data, or undecodable data ends in the
        idle view with the error set. Otherwise the decoded audio is
        assembled into a blob, a fresh object URL for it replaces the old one
        and the results view opens. */
    method AudioArrived(response: Result<AudioResponse, Thrown>, decoded: Result<seq<byte>, Thrown>)
      requires Valid()
      modifies this
      ensures Valid()
      ensures style == old(style) && speakers == old(speakers) && script == old(script)
      ensures response.Err? ==>
                view == Idle && error == Some(FailureMessage(ErrorPrefix, response.error))
                && audioUrl == old(audioUrl)
      ensures response.Ok? && (response.value.part.None? || !Present(response.value.part.value.data)) ==>
                view == Idle && error == Some(ErrorPrefix + (NoAudioMessage + response.value.json))
                && audioUrl == old(audioUrl)
      ensures response.Ok? && response.value.part.Some? && Present(response.value.part.value.data)
              && decoded.Err? ==>
                view == Idle && error == Some(FailureMessage(ErrorPrefix, decoded.error))
                && audioUrl == old(audioUrl)
      ensures response.Ok? && response.value.part.Some? && Present(response.value.part.value.data)
              && decoded.Ok? ==>
                && view == Results && error == old(error)
                && audioUrl == Some(ObjectUrl(old(urlsCreated), AudioBlob(response.value.part.value.mimeType, decoded.value)))
    {
      if response.Err? {
        Fail(response.error);
        return;
      }
      var part := response.value.part;
      if part.None? || part.value.data.None? || part.value.data.value == "" {
        Fail(Error(NoAudioMessage + response.value.json));
        return;
      }
      if decoded.Err? {
        Fail(decoded.error);
        return;
      }
      var audioBlob := AssembleAudio(part.value.mimeType, decoded.value);
      var url := ObjectUrl(urlsCreated, audioBlob);
      urlsCreated := urlsCreated + 1;
      live := live + {url};
      SetAudioUrl(Some(url));
      view := Results;
    }

    /** `reset`: back to idle with script, error and audio cleared, the URL
        revoked first. */
    method Reset()
      requires Valid()
      modifies this
      ensures Valid()
      ensures view == Idle && script == None && error == None && audioUrl == None && live == {}
      ensures style == old(style) && speakers == old(speakers)
    {
      view := Idle;
      script := None;
      error := None;
      if audioUrl.Some? {
        Revoke(audioUrl.value);
      }
      SetAudioUrl(None);
    }

    /** The effect on `isOpen`: closing the dialog resets it. */
    method IsOpenChanged(isOpen: bool)
      requires Valid()
      modifies this
      ensures Valid()
      ensures !isOpen ==> view == Idle && script == None && error == None && audioUrl == None && live == {}
      ensures isOpen ==> view == old(view) && script == old(script) && error == old(error)
                         && audioUrl == old(audioUrl) && live == old(live)
      ensures style == old(style) && speakers == old(speakers)
    {
      if !isOpen {
        Reset();
      }
    }
  }
}
