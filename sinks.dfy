/**
 * The output sinks of `src/flite_out_arduino.h`.
 *
 * `FliteOutputBase` and its subclasses form one class `Sink` whose `variant`
 * says which subclass it is and holds that subclass's own state; each virtual
 * member dispatches on it. Everything a sink sends to the outside (the user
 * callback, an Arduino `Print`, the ESP32 I2S driver) is appended to the
 * sink's `log`. The I2S driver's success or failure is not under the sink's
 * control: each driver call picks its outcome freely and records it.
 */
module FliteOut {
  import opened Common
  import opened Pcm

  /** `cst_audiofmt` codes. */
  const CST_AUDIO_LINEAR16: int := 0
  const CST_AUDIO_LINEAR8: int := 1

  /** Bits of the ESP-IDF `i2s_mode_t` mask. */
  const I2S_MODE_MASTER: bv32 := 1
  const I2S_MODE_TX: bv32 := 4
  const I2S_MODE_DAC_BUILT_IN: bv32 := 16

  /** `I2S_PIN_NO_CHANGE`. */
  const I2S_PIN_NO_CHANGE: int := -1

  /** A user function pointer of type `flite_callback`, identified opaquely. */
  datatype CallbackId = CallbackId(id: nat)

  /** An Arduino `Print` object: the board's `Serial` or one supplied by the user. */
  datatype Printer = Serial | UserPrint(id: nat)

  /** The parts of `i2s_config_t` that are fixed when the sink is built. */
  datatype BusProfile = BusProfile(bitsPerSample: int, dmaBufCount: int, dmaBufLen: int, useApll: bool)

  /** `i2s_config_t`: the mode mask, the sample rate and the fixed profile. */
  datatype I2SConfig = I2SConfig(mode: bv32, sampleRate: int, profile: BusProfile)

  /** `i2s_pin_config_t`. */
  datatype PinConfig = PinConfig(bck: int, ws: int, dataOut: int, dataIn: int)

  /** How `open` routes the bus: the built-in DAC (null pins) or external pins. */
  datatype Routing = InternalDac | ExternalPins(pins: PinConfig)

  /** `setupDefaultConfig`, evaluated while `audiodev` is still null, so the rate is 0. */
  const DefaultConfig: I2SConfig :=
    I2SConfig(I2S_MODE_MASTER | I2S_MODE_TX, 0, BusProfile(16, 8, 64, false))

  /** `setupDefaultPins`. */
  const DefaultPins: PinConfig := PinConfig(26, 25, 22, I2S_PIN_NO_CHANGE)

  /** Which subclass of `FliteOutputBase` a sink is, with that subclass's fields. */
  datatype Variant =
    | CallbackOut(callback: CallbackId)                            // FliteOutputCallback
    | StreamOut(dest: Printer)                                     // FliteOutputStream
    | PrintStreamOut(dest: Printer)                                // FlitePrintStream
    | I2SOut(port: nat, config: I2SConfig, pins: PinConfig)        // FliteOutputI2S

  /** One observable effect of a sink on its destination. */
  datatype Event =
    | CallbackCall(callback: CallbackId, size: int, values: seq<int16>)  // callback(size, values)
    | PrintBytes(dest: Printer, bytes: seq<uint8>)                   // Print::write(buf, n)
    | PrintLine(dest: Printer, value: int16)                         // Print::println(int16_t)
    | DriverInstall(port: nat, config: I2SConfig, ok: bool)          // i2s_driver_install
    | SetPin(port: nat, routing: Routing, ok: bool)                  // i2s_set_pin
    | BusWrite(port: nat, data: seq<int16>, ok: bool)                // i2s_write
    | DriverUninstall(port: nat, ok: bool)                           // i2s_driver_uninstall
    | ZeroDmaBuffer(port: nat)                                       // i2s_zero_dma_buffer

  /** `cst_audiodev` as filled in by `FliteOutputBase::open`. */
  datatype AudioDev = AudioDev(
    sps: int, realSps: int,
    channels: int, realChannels: int,
    fmt: int, realFmt: int,
    platformData: Sink)

  /** The device record `open(sps, channels, fmt)` allocates for sink `owner`. */
  function OpenedDev(sps: int, channels: int, fmt: int, owner: Sink): (dev: AudioDev)
    ensures dev.sps == dev.realSps == sps
    ensures dev.channels == dev.realChannels == channels
    ensures dev.fmt == dev.realFmt == fmt
    ensures dev.platformData == owner
  {
    AudioDev(sps, sps, channels, channels, fmt, fmt, owner)
  }

  /** Bit width of a `cst_audiofmt` code, 0 for a code `bitsPerSample` does not support. */
  function FormatBits(fmt: int): (bits: nat)
    ensures bits != 0 <==> fmt == CST_AUDIO_LINEAR16 || fmt == CST_AUDIO_LINEAR8
    ensures fmt == CST_AUDIO_LINEAR16 ==> bits == 16
    ensures fmt == CST_AUDIO_LINEAR8 ==> bits == 8
  {
    if fmt == 0 then 16 else if fmt == 1 then 8 else 0
  }

  /** The variant after `open(sps, ..)`: the I2S sink copies the rate into its bus config. */
  function OpenedVariant(v: Variant, sps: int): (w: Variant)
    ensures w.I2SOut? <==> v.I2SOut?
    ensures w.I2SOut? ==>
              w.config.sampleRate == sps && w.config.mode == v.config.mode &&
              w.config.profile == v.config.profile && w.port == v.port && w.pins == v.pins
    ensures !w.I2SOut? ==> w == v
  {
    if v.I2SOut? then v.(config := v.config.(sampleRate := sps)) else v
  }

  /** Routing chosen from the mode mask: internal DAC exactly when its bit is set. */
  function RoutingFor(config: I2SConfig, pins: PinConfig): (r: Routing)
    ensures r == InternalDac <==> config.mode & I2S_MODE_DAC_BUILT_IN != 0
    ensures r.ExternalPins? ==> r.pins == pins
  {
    if config.mode & I2S_MODE_DAC_BUILT_IN != 0 then InternalDac else ExternalPins(pins)
  }

  /** Number of driver calls `open` makes before the base behaviour. */
  function OpenEventCount(v: Variant): nat
  {
    if v.I2SOut? then 2 else 0
  }

  /**
   * `events` is what `open(sps, ..)` on a sink with variant `v` may log: nothing
   * for the software sinks; for I2S a driver install with the rate-updated
   * config, then the pin routing, each with whatever outcome the driver gave.
   */
  ghost predicate OpenLogged(v: Variant, sps: int, events: seq<Event>)
  {
    |events| == OpenEventCount(v) &&
    (v.I2SOut? ==>
      var w := OpenedVariant(v, sps);
      events[0].DriverInstall? && events[0].port == v.port && events[0].config == w.config &&
      events[1].SetPin? && events[1].port == v.port && events[1].routing == RoutingFor(w.config, w.pins))
  }

  /** One `println` per sample, in order. */
  function PrintLines(dest: Printer, s: seq<int16>): (events: seq<Event>)
    ensures |events| == |s|
    ensures forall j :: 0 <= j < |s| ==> events[j] == PrintLine(dest, s[j])
  {
    if s == [] then [] else [PrintLine(dest, s[0])] + PrintLines(dest, s[1..])
  }

  /** `events` are all bus writes on `port`. */
  ghost predicate BusWritesOn(port: nat, events: seq<Event>)
  {
    forall j :: 0 <= j < |events| ==> events[j].BusWrite? && events[j].port == port
  }

  /** The buffers handed to the bus, in order. */
  function Payloads(events: seq<Event>): (p: seq<seq<int16>>)
    requires forall j :: 0 <= j < |events| ==> events[j].BusWrite?
    ensures |p| == |events|
    ensures forall j :: 0 <= j < |events| ==> p[j] == events[j].data
  {
    if events == [] then [] else [events[0].data] + Payloads(events[1..])
  }

  /** Bytes the driver reported written, summed over the successful bus writes. */
  function WrittenBytes(events: seq<Event>): (n: nat)
    requires forall j :: 0 <= j < |events| ==> events[j].BusWrite?
  {
    if events == [] then 0
    else (if events[0].ok then SampleBytes * |events[0].data| else 0) + WrittenBytes(events[1..])
  }

  /**
   * `events` is what `write(samples)` may log on a sink with variant `v` whose
   * `channels()` is `ch`.
   */
  ghost predicate WriteLogged(v: Variant, ch: int, samples: seq<int16>, events: seq<Event>)
  {
    match v
    case CallbackOut(cb) => events == [CallbackCall(cb, |samples|, samples)]
    case StreamOut(dest) => events == [PrintBytes(dest, EncodeLE(samples))]
    case PrintStreamOut(dest) => events == PrintLines(dest, samples)
    case I2SOut(port, _, _) =>
      BusWritesOn(port, events) &&
      Payloads(events) == if ch == 2 then [samples] else Upmix(samples)
  }

  /** The `log` entries added since a call began. */
  function Since(log: seq<Event>, start: nat): seq<Event>
    requires start <= |log|
  {
    log[start..]
  }

  class Sink {
    var variant: Variant
    var isOpen: bool
    var audiodev: Option<AudioDev>
    var log: seq<Event>
    ghost var opens: nat   // how many times `open` ran

    /**
     * What every sink keeps: an open sink has a device record; a device record
     * points back at its sink and holds the requested values as the real ones;
     * an I2S sink's bus config carries the rate of its last open.
     */
    ghost predicate Valid()
      reads this
    {
      (isOpen ==> audiodev.Some?) &&
      (audiodev.Some? ==>
        var d := audiodev.value;
        d.platformData == this && d.sps == d.realSps && d.channels == d.realChannels && d.fmt == d.realFmt &&
        (variant.I2SOut? ==> variant.config.sampleRate == d.realSps)) &&
      (audiodev.None? ==> opens == 0)
    }

    /** The state of every freshly built sink. */
    ghost predicate Fresh()
      reads this
    {
      !isOpen && audiodev.None? && log == [] && opens == 0
    }

    /** `FliteOutputCallback(cb)`. */
    constructor Callback(cb: CallbackId)
      ensures Valid() && Fresh() && variant == CallbackOut(cb)
      ensures !IsOpen() && Channels() == 0 && SampleRate() == 0 && BitsPerSample() == 0
    {
      variant := CallbackOut(cb);
      isOpen, audiodev, log, opens := false, None, [], 0;
    }

    /** `FliteOutputStream(out)`. */
    constructor Stream(out: Printer)
      ensures Valid() && Fresh() && variant == StreamOut(out)
      ensures !IsOpen() && Channels() == 0 && SampleRate() == 0 && BitsPerSample() == 0
    {
      variant := StreamOut(out);
      isOpen, audiodev, log, opens := false, None, [], 0;
    }

    /** `FlitePrintStream(out)`. */
    constructor PrintStream(out: Printer)
      ensures Valid() && Fresh() && variant == PrintStreamOut(out)
      ensures !IsOpen() && Channels() == 0 && SampleRate() == 0 && BitsPerSample() == 0
    {
      variant := PrintStreamOut(out);
      isOpen, audiodev, log, opens := false, None, [], 0;
    }

    /** `FliteOutputI2S(i2s_num)`: default config and default pins. */
    constructor I2S(port: nat)
      ensures Valid() && Fresh() && variant == I2SOut(port, DefaultConfig, DefaultPins)
      ensures !IsOpen() && Channels() == 0 && SampleRate() == 0 && BitsPerSample() == 0
    {
      variant := I2SOut(port, DefaultConfig, DefaultPins);
      isOpen, audiodev, log, opens := false, None, [], 0;
    }

    /** `FliteOutputI2S(i2s_num, cfg)`: the given config and default pins. */
    constructor I2SWithConfig(port: nat, cfg: I2SConfig)
      ensures Valid() && Fresh() && variant == I2SOut(port, cfg, DefaultPins)
      ensures !IsOpen() && Channels() == 0 && SampleRate() == 0 && BitsPerSample() == 0
    {
      variant := I2SOut(port, cfg, DefaultPins);
      isOpen, audiodev, log, opens := false, None, [], 0;
    }

    /** `FliteOutputI2S(i2s_num, cfg, pins)`. */
    constructor I2SWithPins(port: nat, cfg: I2SConfig, pins: PinConfig)
      ensures Valid() && Fresh() && variant == I2SOut(port, cfg, pins)
      ensures !IsOpen() && Channels() == 0 && SampleRate() == 0 && BitsPerSample() == 0
    {
      variant := I2SOut(port, cfg, pins);
      isOpen, audiodev, log, opens := false, None, [], 0;
    }

    /** `channels()`: the device record's channel count, 0 without one. */
    function Channels(): (c: int)
      reads this
      ensures audiodev.None? ==> c == 0
      ensures Valid() && audiodev.Some? ==> c == audiodev.value.realChannels
    {
      if audiodev.Some? then audiodev.value.channels else 0
    }

    /** `sampleRate()`: the device record's real rate, 0 without one. */
    function SampleRate(): (rate: int)
      reads this
      ensures audiodev.None? ==> rate == 0
      ensures Valid() && audiodev.Some? ==> rate == audiodev.value.sps
      ensures Valid() && audiodev.Some? && variant.I2SOut? ==> rate == variant.config.sampleRate
    {
      if audiodev.Some? then audiodev.value.realSps else 0
    }

    /** `bitsPerSample()`: the width of the real format, 0 without a record or for an unknown format. */
    function BitsPerSample(): (bits: nat)
      reads this
      ensures bits in {0, 8, 16}
      ensures bits == 16 <==> audiodev.Some? && audiodev.value.realFmt == CST_AUDIO_LINEAR16
      ensures bits == 8 <==> audiodev.Some? && audiodev.value.realFmt == CST_AUDIO_LINEAR8
    {
      if audiodev.Some? then FormatBits(audiodev.value.realFmt) else 0
    }

    /** `isOpen()`. */
    function IsOpen(): (open: bool)
      reads this
      ensures open <==> isOpen
      ensures Valid() && open ==> audiodev.Some? && audiodev.value.platformData == this
    {
      isOpen
    }

    /** `info()`: the device record, if one was ever allocated. */
    function Info(): (info: Option<AudioDev>)
      reads this
      ensures info == audiodev
      ensures Valid() && isOpen ==> info.Some?
      ensures Valid() && info.Some? ==> info.value.platformData == this && info.value.realSps == info.value.sps
    {
      audiodev
    }

    /** `FliteOutputBase::open`: mark open and allocate a fresh device record. */
    method BaseOpen(sps: int, channels: int, fmt: int) returns (dev: AudioDev)
      requires variant.I2SOut? ==> variant.config.sampleRate == sps
      modifies this`isOpen, this`audiodev, this`opens
      ensures Valid()
      ensures dev == OpenedDev(sps, channels, fmt, this) && audiodev == Some(dev)
      ensures isOpen && opens == old(opens) + 1
    {
      isOpen := true;
      dev := OpenedDev(sps, channels, fmt, this);
      audiodev := Some(dev);
      opens := opens + 1;
    }

    /**
     * `open(sps, channels, fmt)`. The I2S sink first stores `sps` in its bus
     * config, installs the driver with it and routes the pins (internal DAC or
     * external pins by the mode mask); a driver failure is only logged. Every
     * variant then runs the base behaviour.
     */
    method Open(sps: int, channels: int, fmt: int) returns (dev: AudioDev)
      requires Valid()
      modifies this
      ensures Valid()
      ensures isOpen && IsOpen() && opens == old(opens) + 1
      ensures dev == OpenedDev(sps, channels, fmt, this) && audiodev == Some(dev) && Info() == Some(dev)
      ensures Channels() == channels && SampleRate() == sps && BitsPerSample() == FormatBits(fmt)
      ensures variant == OpenedVariant(old(variant), sps)
      ensures |old(log)| <= |log| && log[..|old(log)|] == old(log)
      ensures OpenLogged(old(variant), sps, Since(log, |old(log)|))
    {
      if variant.I2SOut? {
        variant := variant.(config := variant.config.(sampleRate := sps));
        var installed: bool :| true;
        log := log + [DriverInstall(variant.port, variant.config, installed)];
        var routed: bool :| true;
        log := log + [SetPin(variant.port, RoutingFor(variant.config, variant.pins), routed)];
      }
      dev := BaseOpen(sps, channels, fmt);
    }

    /**
     * `close()`. The I2S sink uninstalls its driver first. Only the open flag is
     * cleared: the device record stays, so the accessors keep reporting the
     * values of the last open.
     */
    method Close() returns (status: int)
      requires Valid()
      modifies this`isOpen, this`log
      ensures Valid() && status == 0
      ensures !isOpen && !IsOpen()
      ensures audiodev == old(audiodev) && Info() == old(Info())
      ensures Channels() == old(Channels()) && SampleRate() == old(SampleRate())
      ensures BitsPerSample() == old(BitsPerSample())
      ensures !variant.I2SOut? ==> log == old(log)
      ensures variant.I2SOut? ==>
                |log| == |old(log)| + 1 && log[..|old(log)|] == old(log) &&
                log[|old(log)|].DriverUninstall? && log[|old(log)|].port == variant.port
    {
      if variant.I2SOut? {
        var uninstalled: bool :| true;
        log := log + [DriverUninstall(variant.port, uninstalled)];
      }
      isOpen := false;
      status := 0;
    }

    /** `drain()`: the I2S sink zeroes its DMA buffer; the others do nothing. */
    method Drain() returns (status: int)
      modifies this`log
      ensures status == 0
      ensures log == old(log) + (if variant.I2SOut? then [ZeroDmaBuffer(variant.port)] else [])
    {
      if variant.I2SOut? {
        log := log + [ZeroDmaBuffer(variant.port)];
      }
      status := 0;
    }

    /** `flush()`: no variant overrides it with an effect. */
    method Flush() returns (status: int)
      ensures status == 0
    {
      status := 0;
    }

    /** `FliteOutputCallback::write`: one call of the user callback with the buffer as is. */
    method WriteCallback(samples: seq<int16>) returns (status: int)
      requires variant.CallbackOut?
      modifies this`log
      ensures status == 0
      ensures log == old(log) + [CallbackCall(variant.callback, |samples|, samples)]
    {
      log := log + [CallbackCall(variant.callback, |samples|, samples)];
      status := 0;
    }

    /** `FliteOutputStream::write`: one `Print::write` of the raw `2 * n` byte image. */
    method WriteStream(samples: seq<int16>) returns (status: int)
      requires variant.StreamOut?
      modifies this`log
      ensures status == 0
      ensures log == old(log) + [PrintBytes(variant.dest, EncodeLE(samples))]
      ensures |log[|log| - 1].bytes| == SampleBytes * |samples|
      ensures DecodeLE(log[|log| - 1].bytes) == samples
    {
      log := log + [PrintBytes(variant.dest, EncodeLE(samples))];
      DecodeEncode(samples);
      status := 0;
    }

    /** `FlitePrintStream::write`: one `println` per sample, in order. */
    method WritePrintStream(samples: seq<int16>) returns (status: int)
      requires variant.PrintStreamOut?
      modifies this`log
      ensures status == 0
      ensures log == old(log) + PrintLines(variant.dest, samples)
    {
      var j := 0;
      while j < |samples|
        invariant 0 <= j <= |samples|
        invariant log == old(log) + PrintLines(variant.dest, samples[..j])
      {
        assert samples[..j + 1] == samples[..j] + [samples[j]];
        PrintLinesAppend(variant.dest, samples[..j], samples[j]);
        log := log + [PrintLine(variant.dest, samples[j])];
        j := j + 1;
      }
      assert samples[..j] == samples;
      status := 0;
    }

    /**
     * `FliteOutputI2S::write`. With `channels() == 2` one bus write of the whole
     * buffer; otherwise one bus write of the frame `{s, s}` per sample. Failed
     * writes are only logged and the result is 0 regardless; `total` is the
     * byte count the source logs, summed over successful frame writes (each
     * reports its 4 bytes written).
     */
    method WriteI2S(samples: seq<int16>) returns (status: int, total: int)
      requires variant.I2SOut?
      modifies this`log
      ensures status == 0
      ensures |old(log)| <= |log| && log[..|old(log)|] == old(log)
      ensures BusWritesOn(variant.port, Since(log, |old(log)|))
      ensures Channels() == 2 ==> Payloads(Since(log, |old(log)|)) == [samples]
      ensures Channels() != 2 ==> Payloads(Since(log, |old(log)|)) == Upmix(samples)
      ensures Channels() != 2 ==> total == WrittenBytes(Since(log, |old(log)|))
    {
      status, total := 0, 0;
      if Channels() == 2 {
        var ok: bool :| true;
        log := log + [BusWrite(variant.port, samples, ok)];
        assert Since(log, |old(log)|) == [BusWrite(variant.port, samples, ok)];
      } else {
        total := WriteFrames(variant.port, samples);
      }
    }

    /** The mono branch of `FliteOutputI2S::write`: one bus write of `{s, s}` per sample. */
    method WriteFrames(port: nat, samples: seq<int16>) returns (total: int)
      modifies this`log
      ensures |old(log)| <= |log| && log[..|old(log)|] == old(log)
      ensures BusWritesOn(port, Since(log, |old(log)|))
      ensures Payloads(Since(log, |old(log)|)) == Upmix(samples)
      ensures total == WrittenBytes(Since(log, |old(log)|))
    {
      total := 0;
      ghost var sent: seq<Event> := [];
      var j := 0;
      while j < |samples|
        invariant 0 <= j <= |samples|
        invariant log == old(log) + sent
        invariant BusWritesOn(port, sent)
        invariant Payloads(sent) == Upmix(samples[..j])
        invariant total == WrittenBytes(sent)
      {
        var ok: bool :| true;
        var e := BusWrite(port, [samples[j], samples[j]], ok);
        PayloadsAppend(sent, e);
        WrittenBytesAppend(sent, e);
        UpmixAppend(samples[..j], samples[j]);
        assert samples[..j + 1] == samples[..j] + [samples[j]];
        log := log + [e];
        sent := sent + [e];
        if ok {
          total := total + SampleBytes * 2;
        }
        j := j + 1;
      }
      assert samples[..j] == samples;
      assert Since(log, |old(log)|) == sent;
    }

    /** `write(buffer, sample_count)`, dispatched to the variant's body. */
    method Write(samples: seq<int16>) returns (status: int)
      requires Valid()
      modifies this`log
      ensures Valid() && status == 0
      ensures |old(log)| <= |log| && log[..|old(log)|] == old(log)
      ensures WriteLogged(variant, Channels(), samples, Since(log, |old(log)|))
    {
      match variant
      case CallbackOut(_) =>
        status := WriteCallback(samples);
      case StreamOut(_) =>
        status := WriteStream(samples);
      case PrintStreamOut(_) =>
        status := WritePrintStream(samples);
        assert Since(log, |old(log)|) == PrintLines(variant.dest, samples);
      case I2SOut(_, _, _) =>
        var total;
        status, total := WriteI2S(samples);
    }
  }

  lemma {:induction false} PrintLinesAppend(dest: Printer, s: seq<int16>, x: int16)
    ensures PrintLines(dest, s + [x]) == PrintLines(dest, s) + [PrintLine(dest, x)]
  {
    if s != [] {
      assert (s + [x])[1..] == s[1..] + [x];
      PrintLinesAppend(dest, s[1..], x);
    } else {
      assert s + [x] == [x] && [x][1..] == [];
    }
  }

  lemma {:induction false} UpmixAppend(s: seq<int16>, x: int16)
    ensures Upmix(s + [x]) == Upmix(s) + [[x, x]]
  {
    if s != [] {
      assert (s + [x])[1..] == s[1..] + [x];
      UpmixAppend(s[1..], x);
    } else {
      assert s + [x] == [x] && [x][1..] == [];
    }
  }

  lemma {:induction false} PayloadsAppend(events: seq<Event>, e: Event)
    requires forall j :: 0 <= j < |events| ==> events[j].BusWrite?
    requires e.BusWrite?
    ensures Payloads(events + [e]) == Payloads(events) + [e.data]
  {
    if events != [] {
      assert (events + [e])[1..] == events[1..] + [e];
      PayloadsAppend(events[1..], e);
    } else {
      assert events + [e] == [e] && [e][1..] == [];
    }
  }

  lemma {:induction false} WrittenBytesAppend(events: seq<Event>, e: Event)
    requires forall j :: 0 <= j < |events| ==> events[j].BusWrite?
    requires e.BusWrite?
    ensures WrittenBytes(events + [e]) == WrittenBytes(events) + (if e.ok then SampleBytes * |e.data| else 0)
  {
    if events != [] {
      assert (events + [e])[1..] == events[1..] + [e];
      WrittenBytesAppend(events[1..], e);
    }
  }

  /** Upmixed writes never report more than 4 bytes per input sample. */
  lemma {:induction false} UpmixWrittenBound(events: seq<Event>, samples: seq<int16>)
    requires forall j :: 0 <= j < |events| ==> events[j].BusWrite?
    requires Payloads(events) == Upmix(samples)
    ensures WrittenBytes(events) <= 2 * SampleBytes * |samples|
    ensures (forall j :: 0 <= j < |events| ==> events[j].ok) ==> WrittenBytes(events) == 2 * SampleBytes * |samples|
  {
    if events != [] {
      assert Payloads(events[1..]) == Payloads(events)[1..];
      assert Upmix(samples)[1..] == Upmix(samples[1..]);
      assert events[0].data == [samples[0], samples[0]];
      UpmixWrittenBound(events[1..], samples[1..]);
    }
  }
}
