/**
 * The streaming callback of `src/flite_out_arduino.cpp`: the process-wide
 * slot `arduino_output` and `arduino_audio_stream_chunk`, which the synthesis
 * engine calls once per chunk of samples.
 */
module StreamDispatch {
  import opened Common
  import opened Pcm
  import opened FliteOut

  /** The fields of `cst_wave` the dispatcher reads. */
  datatype Wave = Wave(sampleRate: int, numChannels: int, samples: seq<int16>)

  /**
   * The global `arduino_output`: the one active sink, or null. `deleted`
   * records the sinks `Flite::setOutput` has destroyed, oldest first.
   */
  class OutputSlot {
    var active: Sink?
    var deleted: seq<Sink>

    /** Static initialisation: no sink is registered. */
    constructor ()
      ensures active == null && deleted == []
    {
      active := null;
      deleted := [];
    }
  }

  /**
   * `events` is what one chunk logs on a sink that had variant `v`,
   * `channels()` equal to `ch` and open flag `wasOpen` before the call: for a
   * closed sink first what `open(w.sample_rate, w.num_channels, LINEAR16)`
   * logs, then what `write` of `slice` logs with the channel count and variant
   * that sink then has.
   */
  ghost predicate ChunkLogged(v: Variant, ch: int, wasOpen: bool, w: Wave, slice: seq<int16>, events: seq<Event>)
  {
    var k := if wasOpen then 0 else OpenEventCount(v);
    k <= |events| &&
    (!wasOpen ==> OpenLogged(v, w.sampleRate, events[..k])) &&
    (if wasOpen then WriteLogged(v, ch, slice, events[k..])
     else WriteLogged(OpenedVariant(v, w.sampleRate), w.numChannels, slice, events[k..]))
  }

  /**
   * `arduino_audio_stream_chunk(w, start, size, last, user)`. With no sink
   * registered nothing happens. Otherwise a closed sink is opened with the
   * wave's rate and channel count and linear 16-bit format, and then sent
   * exactly `w.samples[start .. start + size)`. `last` has no effect and a
   * sink stays open. The result is 0 in every case.
   */
  method AudioStreamChunk(slot: OutputSlot, w: Wave, start: int, size: int, last: bool) returns (r: int)
    requires 0 <= start && 0 <= size && start + size <= |w.samples|
    requires slot.active != null ==> slot.active.Valid()
    modifies slot.active
    ensures r == 0
    ensures slot.active != null ==>
              var s := slot.active;
              && s.Valid() && s.isOpen
              && s.opens == old(s.opens) + (if old(s.isOpen) then 0 else 1)
              && (old(s.isOpen) ==> s.audiodev == old(s.audiodev) && s.variant == old(s.variant))
              && (!old(s.isOpen) ==>
                    s.audiodev == Some(OpenedDev(w.sampleRate, w.numChannels, CST_AUDIO_LINEAR16, s)) &&
                    s.variant == OpenedVariant(old(s.variant), w.sampleRate))
              && |old(s.log)| <= |s.log| && s.log[..|old(s.log)|] == old(s.log)
              && ChunkLogged(old(s.variant), old(s.Channels()), old(s.isOpen), w,
                             w.samples[start..start + size], Since(s.log, |old(s.log)|))
  {
    var out := slot.active;
    if out != null {
      ghost var log0 := out.log;
      if !out.IsOpen() {
        var _ := out.Open(w.sampleRate, w.numChannels, CST_AUDIO_LINEAR16);
      }
      ghost var log1 := out.log;
      var _ := out.Write(w.samples[start..start + size]);
      assert Since(out.log, |log0|)[..|log1| - |log0|] == Since(log1, |log0|);
      assert Since(out.log, |log0|)[|log1| - |log0|..] == Since(out.log, |log1|);
      if last {
        // end of utterance: only logged by the source
      }
    }
    r := 0;
  }

  /**
   * Two chunks in a row on a registered sink that starts closed: the sink is
   * opened by the first and only written by the second, so `open` runs once.
   */
  method TwoChunksOpenOnce(slot: OutputSlot, w1: Wave, w2: Wave, size1: int, size2: int)
    requires slot.active != null && slot.active.Valid() && !slot.active.isOpen
    requires 0 <= size1 <= |w1.samples| && 0 <= size2 <= |w2.samples|
    modifies slot.active
    ensures slot.active.isOpen && slot.active.opens == old(slot.active.opens) + 1
    ensures slot.active.audiodev == Some(OpenedDev(w1.sampleRate, w1.numChannels, CST_AUDIO_LINEAR16, slot.active))
  {
    var _ := AudioStreamChunk(slot, w1, 0, size1, false);
    var _ := AudioStreamChunk(slot, w2, 0, size2, true);
  }

  /**
   * A callback sink registered in the slot receives a mono chunk
   * `[10, -10, 20, -20]` at 16 kHz as one callback call with 4 samples.
   */
  method CallbackScenario(cb: CallbackId) returns (s: Sink, slot: OutputSlot)
    ensures slot.active == s && s.isOpen
    ensures s.log == [CallbackCall(cb, 4, [10, -10, 20, -20])]
    ensures s.SampleRate() == 16000 && s.Channels() == 1 && s.BitsPerSample() == 16
  {
    s := new Sink.Callback(cb);
    slot := new OutputSlot();
    slot.active := s;
    var w := Wave(16000, 1, [10, -10, 20, -20]);
    var _ := AudioStreamChunk(slot, w, 0, 4, true);
    assert w.samples[0..4] == [10, -10, 20, -20];
  }
}
