/**
 * The `Flite` class of `src/flite_arduino.h`: it registers the output sink in
 * the global slot and lazily sets up the voice and the streaming hook before
 * each synthesis request. The Flite engine itself is an external collaborator:
 * its calls are appended to `engine`, and the values it hands back are inputs.
 */
module FliteApi {
  import opened Common
  import opened FliteOut
  import opened StreamDispatch

  /** A `cst_voice *` handed out by the engine. */
  datatype Voice = Voice(id: nat)

  /** The function installed as `asi->asc`. */
  datatype StreamCallback = ArduinoAudioStreamChunk

  /** A `cst_audio_streaming_info *` with its streaming callback. */
  datatype StreamingInfo = StreamingInfo(id: nat, asc: StreamCallback)

  /** What the engine returns when asked: `register_cmu_us_kal()` and `new_audio_streaming_info()`. */
  datatype EngineReplies = EngineReplies(registered: Option<Voice>, newInfo: nat)

  /** The output type passed to the `*_to_speech` calls. */
  const OutType: string := "play"

  /** One call into the Flite engine. */
  datatype EngineCall =
    | FliteInit
    | RegisterKal
    | NewStreamingInfo
    | FeatSetStreamingInfo(target: Voice, attached: StreamingInfo)
    | TextToSpeech(text: string, voice: Option<Voice>, outtype: string)
    | PhonesToSpeech(text: string, voice: Option<Voice>, outtype: string)
    | SsmlTextToSpeech(text: string, voice: Option<Voice>, outtype: string)
    | TextToWave(text: string, voice: Option<Voice>)
    | DeleteStreamingInfo(info: Option<StreamingInfo>)
    | DeleteVoice(voice: Option<Voice>)
    | VoiceSelect(url: string)

  /**
   * The outcome of `setup()` from a given `voice` and `asi`: the new pair, the
   * engine calls made, and whether it dereferenced a null voice (the
   * `feat_set(voice->features, ..)` step when registration returned null).
   */
  datatype SetupOutcome = SetupOutcome(voice: Option<Voice>, asi: Option<StreamingInfo>, calls: seq<EngineCall>, faulted: bool)

  /** `setup()` as a function of the state it reads. */
  function SetupOf(voice: Option<Voice>, asi: Option<StreamingInfo>, replies: EngineReplies): (o: SetupOutcome)
    ensures voice.Some? ==> o.voice == voice
    ensures voice.None? ==> o.voice == replies.registered
    ensures asi.Some? ==> o.asi == asi
    ensures asi.None? ==> o.asi == Some(StreamingInfo(replies.newInfo, ArduinoAudioStreamChunk))
    ensures o.faulted <==> asi.None? && o.voice.None?
    ensures voice.Some? && asi.Some? ==> o.calls == []
  {
    var v := if voice.None? then replies.registered else voice;
    var c0 := if voice.None? then [RegisterKal] else [];
    if asi.Some? then SetupOutcome(v, asi, c0, false)
    else
      var info := StreamingInfo(replies.newInfo, ArduinoAudioStreamChunk);
      if v.None? then SetupOutcome(v, Some(info), c0 + [NewStreamingInfo], true)
      else SetupOutcome(v, Some(info), c0 + [NewStreamingInfo, FeatSetStreamingInfo(v.value, info)], false)
  }

  /** A successful registration leaves voice and streaming info both set, with the dispatcher hooked in. */
  lemma SetupReady(voice: Option<Voice>, asi: Option<StreamingInfo>, replies: EngineReplies)
    requires voice.Some? || replies.registered.Some?
    ensures var o := SetupOf(voice, asi, replies);
            o.voice.Some? && o.asi.Some? && !o.faulted &&
            (asi.None? ==> o.asi.value.asc == ArduinoAudioStreamChunk)
  {
  }

  /** `setup()` is idempotent: once it has succeeded, running it again changes nothing and calls nothing. */
  lemma SetupIdempotent(voice: Option<Voice>, asi: Option<StreamingInfo>, first: EngineReplies, second: EngineReplies)
    requires !SetupOf(voice, asi, first).faulted
    requires SetupOf(voice, asi, first).voice.Some?
    ensures var o := SetupOf(voice, asi, first);
            SetupOf(o.voice, o.asi, second) == SetupOutcome(o.voice, o.asi, [], false)
  {
  }

  /** Which `Flite` constructor a facade was built with. */
  datatype OutputChoice =
    | DefaultSerial                          // Flite()
    | ToCallback(cb: CallbackId)             // Flite(flite_callback)
    | ToStream(out: Printer, asText: bool)   // Flite(Print &, bool)
    | ToI2S(port: nat)                       // Flite(i2s_port_t)

  /** The sink variant each constructor registers. */
  function ChosenVariant(choice: OutputChoice): (v: Variant)
    ensures choice.DefaultSerial? ==> v == PrintStreamOut(Serial)
    ensures choice.ToCallback? ==> v == CallbackOut(choice.cb)
    ensures choice.ToStream? && choice.asText ==> v == PrintStreamOut(choice.out)
    ensures choice.ToStream? && !choice.asText ==> v == StreamOut(choice.out)
    ensures choice.ToI2S? ==> v == I2SOut(choice.port, DefaultConfig, DefaultPins)
  {
    match choice
    case DefaultSerial => PrintStreamOut(Serial)
    case ToCallback(cb) => CallbackOut(cb)
    case ToStream(out, asText) => if asText then PrintStreamOut(out) else StreamOut(out)
    case ToI2S(port) => I2SOut(port, DefaultConfig, DefaultPins)
  }

  class Flite {
    const slot: OutputSlot
    var voice: Option<Voice>
    var asi: Option<StreamingInfo>
    var engine: seq<EngineCall>

    /**
     * The sink-building constructors `Flite()`, `Flite(cb)`, `Flite(stream,
     * as_text)` and `Flite(i2s_num)`: register a fresh sink of the chosen
     * variant (destroying the previous one) and initialise the engine.
     */
    constructor (slot: OutputSlot, choice: OutputChoice)
      modifies slot
      ensures this.slot == slot
      ensures slot.active != null && fresh(slot.active)
      ensures slot.active.variant == ChosenVariant(choice) && slot.active.Valid() && slot.active.Fresh()
      ensures slot.deleted == old(slot.deleted) + (if old(slot.active) != null then [old(slot.active)] else [])
      ensures voice == None && asi == None && engine == [FliteInit]
    {
      this.slot := slot;
      voice, asi, engine := None, None, [];
      new;
      var out: Sink;
      if choice.DefaultSerial? {
        out := new Sink.PrintStream(Serial);
      } else if choice.ToCallback? {
        out := new Sink.Callback(choice.cb);
      } else if choice.ToStream? {
        if choice.asText {
          out := new Sink.PrintStream(choice.out);
        } else {
          out := new Sink.Stream(choice.out);
        }
      } else {
        out := new Sink.I2S(choice.port);
      }
      SetOutput(out);
      engine := engine + [FliteInit];
    }

    /** `Flite(FliteOutputBase *out)`: register the caller's sink as is. */
    constructor WithOutput(slot: OutputSlot, out: Sink?)
      modifies slot
      ensures this.slot == slot && slot.active == out
      ensures slot.deleted == old(slot.deleted) + (if old(slot.active) != null then [old(slot.active)] else [])
      ensures voice == None && asi == None && engine == [FliteInit]
    {
      this.slot := slot;
      voice, asi, engine := None, None, [];
      new;
      SetOutput(out);
      engine := engine + [FliteInit];
    }

    /** `setOutput(out)`: destroy the registered sink, if any, and register `out`. */
    method SetOutput(out: Sink?)
      modifies slot
      ensures slot.active == out && GetOutput() == out
      ensures old(slot.active) != null ==> slot.deleted == old(slot.deleted) + [old(slot.active)]
      ensures old(slot.active) == null ==> slot.deleted == old(slot.deleted)
    {
      if slot.active != null {
        slot.deleted := slot.deleted + [slot.active];
      }
      slot.active := out;
    }

    /** `getOutput()`. */
    function GetOutput(): (out: Sink?)
      reads this, slot
      ensures out == slot.active
    {
      slot.active
    }

    /** `setVoice(cst_voice *)`. */
    method SetVoice(v: Option<Voice>)
      modifies this`voice
      ensures voice == v
    {
      voice := v;
    }

    /** `setVoice(const char *url)`: the voice the engine selects for `url`. */
    method SetVoiceFromUrl(url: string, selected: Option<Voice>)
      modifies this`voice, this`engine
      ensures voice == selected && engine == old(engine) + [VoiceSelect(url)]
    {
      engine := engine + [VoiceSelect(url)];
      voice := selected;
    }

    /**
     * `setup()`: register the default voice if none is set, then, if no
     * streaming info exists, create one, hook `arduino_audio_stream_chunk`
     * into it and attach it to the voice. `faulted` reports the null-voice
     * dereference of the last step when registration returned null.
     */
    method Setup(replies: EngineReplies) returns (faulted: bool)
      modifies this`voice, this`asi, this`engine
      ensures var o := SetupOf(old(voice), old(asi), replies);
              voice == o.voice && asi == o.asi && engine == old(engine) + o.calls && faulted == o.faulted
      ensures replies.registered.Some? || old(voice).Some? ==>
                voice.Some? && asi.Some? && !faulted
      ensures old(asi).None? ==> asi.Some? && asi.value.asc == ArduinoAudioStreamChunk
      ensures old(voice).Some? && old(asi).Some? ==> voice == old(voice) && asi == old(asi) && engine == old(engine)
    {
      faulted := false;
      if voice.None? {
        engine := engine + [RegisterKal];
        voice := replies.registered;
      }
      if asi.None? {
        engine := engine + [NewStreamingInfo];
        var info := StreamingInfo(replies.newInfo, ArduinoAudioStreamChunk);
        asi := Some(info);
        if voice.None? {
          faulted := true;
        } else {
          engine := engine + [FeatSetStreamingInfo(voice.value, info)];
        }
      }
    }

    /** `say(text)`: `setup()`, then text-to-speech with the voice it leaves. */
    method Say(text: string, replies: EngineReplies)
      modifies this`voice, this`asi, this`engine
      ensures var o := SetupOf(old(voice), old(asi), replies);
              voice == o.voice && asi == o.asi &&
              engine == old(engine) + o.calls + (if o.faulted then [] else [TextToSpeech(text, voice, OutType)])
    {
      var faulted := Setup(replies);
      if !faulted {
        engine := engine + [TextToSpeech(text, voice, OutType)];
      }
    }

    /** `sayPhones(text)`: `setup()`, then phones-to-speech. */
    method SayPhones(text: string, replies: EngineReplies)
      modifies this`voice, this`asi, this`engine
      ensures var o := SetupOf(old(voice), old(asi), replies);
              voice == o.voice && asi == o.asi &&
              engine == old(engine) + o.calls + (if o.faulted then [] else [PhonesToSpeech(text, voice, OutType)])
    {
      var faulted := Setup(replies);
      if !faulted {
        engine := engine + [PhonesToSpeech(text, voice, OutType)];
      }
    }

    /** `saySsml(text)`: `setup()`, then SSML-to-speech. */
    method SaySsml(text: string, replies: EngineReplies)
      modifies this`voice, this`asi, this`engine
      ensures var o := SetupOf(old(voice), old(asi), replies);
              voice == o.voice && asi == o.asi &&
              engine == old(engine) + o.calls + (if o.faulted then [] else [SsmlTextToSpeech(text, voice, OutType)])
    {
      var faulted := Setup(replies);
      if !faulted {
        engine := engine + [SsmlTextToSpeech(text, voice, OutType)];
      }
    }

    /** `textToWave(text)`: `setup()`, then text-to-wave. */
    method TextToWaveOf(text: string, replies: EngineReplies)
      modifies this`voice, this`asi, this`engine
      ensures var o := SetupOf(old(voice), old(asi), replies);
              voice == o.voice && asi == o.asi &&
              engine == old(engine) + o.calls + (if o.faulted then [] else [TextToWave(text, voice)])
    {
      var faulted := Setup(replies);
      if !faulted {
        engine := engine + [TextToWave(text, voice)];
      }
    }

    /** `end()`: delete the streaming info and the voice and forget both. */
    method End()
      modifies this`voice, this`asi, this`engine
      ensures voice == None && asi == None
      ensures engine == old(engine) + [DeleteStreamingInfo(old(asi)), DeleteVoice(old(voice))]
    {
      engine := engine + [DeleteStreamingInfo(asi)];
      asi := None;
      engine := engine + [DeleteVoice(voice)];
      voice := None;
    }
  }

  /** After `end()`, the next `setup()` runs the full initialisation again. */
  lemma EndThenSetupReinitialises(replies: EngineReplies)
    requires replies.registered.Some?
    ensures var o := SetupOf(None, None, replies);
            o.calls == [RegisterKal, NewStreamingInfo,
                        FeatSetStreamingInfo(replies.registered.value, StreamingInfo(replies.newInfo, ArduinoAudioStreamChunk))]
  {
  }
}
