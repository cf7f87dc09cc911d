# arduino-flite: a verified model of the output layer and the include converter

arduino-flite connects the Flite speech synthesiser to Arduino and ESP32
audio outputs. This project models four pieces of it in Dafny.

- **The output sinks** (`src/flite_out_arduino.h`). `FliteOutputBase` and its
  four concrete subclasses (callback, raw byte stream, decimal print stream,
  ESP32 I2S) become one class `FliteOut.Sink`. Its `variant` field says which
  subclass it is and carries that subclass's fields. A sink is closed or open
  and may hold a `cst_audiodev` record (`AudioDev`). Everything a sink sends
  outward (the user callback, `Print::write`, `Print::println`, each I2S
  driver call) is appended to the sink's `log`. Samples are `Pcm.int16`, and
  the raw byte dump is their little-endian image (`Pcm.EncodeLE`).
- **The streaming dispatcher** (`src/flite_out_arduino.cpp`). The global
  `arduino_output` is the class `StreamDispatch.OutputSlot`.
  `arduino_audio_stream_chunk` is `StreamDispatch.AudioStreamChunk`. It opens
  a closed sink lazily and forwards exactly the requested slice of samples.
- **The `Flite` facade** (`src/flite_arduino.h`). This is `FliteApi.Flite`:
  the constructors' choice of sink, `setOutput`/`getOutput`, the lazy
  `setup()` of voice and streaming info, the four synthesis requests and
  `end()`. Calls into the Flite engine are appended to `engine`. The values
  the engine returns are inputs (`EngineReplies`).
- **The include converter** (`tools/convert.py`). `FileEntry` parsing, the
  dictionary of files by name, `__replaceInclude`, and the line
  transformations of `updateFile` and `excludeFile`. Python exceptions
  become `Err` values. A file is its text, or its list of lines as
  `readlines` returns them.

Files:
- `common.dfy`: `Option`.
- `pcm.dfy`: samples, bytes, the little-endian image and its decoding, and
  the mono-to-stereo upmix.
- `sinks.dfy`: `FliteOut`, the sinks.
- `dispatch.dfy`: `StreamDispatch`, the slot and the dispatcher.
- `facade.dfy`: `FliteApi`, the facade.
- `convert.dfy`: `Convert`, the converter.

The code (`src/flite_out_arduino.h:48-51`) that closes a sink only clears the open flag and keeps the
record, so `channels()`, `sampleRate()` and `bitsPerSample()` keep reporting
the last opened values after `close`. The model follows the code.

## Model

| member | source | states |
|---|---|---|
| Pcm.EncodeLE | src/flite_out_arduino.h:265-268 | The raw image of a sample buffer has 2 bytes per sample: sample j's low byte at 2j and its high byte at 2j+1. |
| Pcm.SampleBytesRoundTrip | src/flite_out_arduino.h:267 | The two bytes of any 16-bit sample decode back to that sample. |
| Pcm.DecodeEncode | src/flite_out_arduino.h:265-268 | Decoding the raw byte image gives back exactly the samples written, so the stream sink loses nothing. |
| Pcm.Upmix | src/flite_out_arduino.h:196-197 | One stereo frame per mono sample, in order; frame j is {s_j, s_j}. |
| Pcm.UpmixChannels | src/flite_out_arduino.h:193-203 | Both the left and the right channel of the upmixed frames equal the mono input. |
| FliteOut.OpenedDev | src/flite_out_arduino.h:39-43 | The device record holds the requested rate, channels and format, both as requested and as real values, and points back at its sink. |
| FliteOut.FormatBits | src/flite_out_arduino.h:74-82 | Format 0 gives 16 bits and format 1 gives 8 bits. The result is non-zero exactly for those two codes. |
| FliteOut.OpenedVariant | src/flite_out_arduino.h:149 | Only the I2S sink changes on open: its bus config takes the new rate, and the mode, profile, port and pins are kept. |
| FliteOut.RoutingFor | src/flite_out_arduino.h:154-166 | Open routes the bus to the internal DAC exactly when the DAC bit of the mode mask is set. Otherwise it routes to the configured external pins. |
| FliteOut.PrintLines | src/flite_out_arduino.h:288-290 | The print sink's output has one line per sample, and line j is sample j. |
| FliteOut.Sink.Callback | src/flite_out_arduino.h:106-108 | A new callback sink holds the callback. It is closed, has no record, and reports 0 channels, rate 0 and 0 bits. |
| FliteOut.Sink.Stream | src/flite_out_arduino.h:249-251 | A new stream sink holds its `Print`. It is closed, has no record, and all accessors return 0. |
| FliteOut.Sink.PrintStream | src/flite_out_arduino.h:281-282 | A new print-stream sink holds its `Print`. It is closed, has no record, and all accessors return 0. |
| FliteOut.Sink.I2S | src/flite_out_arduino.h:128-132 | A new I2S sink has the default config (master+TX, rate 0 because the record is still null, 16 bits, 8 DMA buffers of 64, no APLL) and the default pins 26/25/22/no-change. It is closed and reports 0 everywhere. |
| FliteOut.Sink.I2SWithConfig | src/flite_out_arduino.h:134-138 | An I2S sink built with a config keeps that config and takes the default pins. It starts closed with accessors 0. |
| FliteOut.Sink.I2SWithPins | src/flite_out_arduino.h:140-144 | An I2S sink built with a config and pins keeps both. It starts closed with accessors 0. |
| FliteOut.Sink.BitsPerSample | src/flite_out_arduino.h:71-85 | The result is 16 exactly when a record with real format 0 exists, and 8 exactly for real format 1. Otherwise it is 0, including when there is no record. |
| FliteOut.Sink.Channels | src/flite_out_arduino.h:63-65 | 0 without a device record; with one, the record's channel count, which equals the real channel count the open negotiated. |
| FliteOut.Sink.SampleRate | src/flite_out_arduino.h:67-69 | 0 without a device record; with one, the record's real rate, which equals the requested rate and, on an I2S sink, the rate in its bus config. |
| FliteOut.Sink.IsOpen | src/flite_out_arduino.h:87-89 | The open flag; an open sink always has a device record that points back at the sink. |
| FliteOut.Sink.Info | src/flite_out_arduino.h:91-93 | The device record, present whenever the sink is open, pointing back at the sink and holding the requested rate as the real one. |
| FliteOut.Sink.BaseOpen | src/flite_out_arduino.h:36-46 | The base open sets the open flag, installs a fresh `OpenedDev` record that it returns, and keeps the sink invariant. |
| FliteOut.Sink.Open | src/flite_out_arduino.h:146-168 | After open: the sink is open; `channels()`, `sampleRate()` and `bitsPerSample()` report the new values; the record is `OpenedDev` and points back at the sink. The I2S sink has logged a driver install with the rate-updated config, then the pin routing chosen by `RoutingFor`. The other sinks log nothing. |
| FliteOut.Sink.Close | src/flite_out_arduino.h:48-51 | Close returns 0 and clears only the open flag. The record and all accessor values stay as they were. The I2S sink first logs exactly one driver uninstall on its port (lines 170-176). |
| FliteOut.Sink.Drain | src/flite_out_arduino.h:178-181 | Drain returns 0. The I2S sink logs one DMA-buffer zeroing on its port. The other sinks emit nothing (lines 53-55, 253-258). |
| FliteOut.Sink.Flush | src/flite_out_arduino.h:57-59 | Flush returns 0 and changes nothing, for every sink including the stream sink (lines 260-263). |
| FliteOut.Sink.WriteCallback | src/flite_out_arduino.h:110-115 | The callback is called exactly once, with the sample count and the unmodified buffer, and the result is 0. |
| FliteOut.Sink.WriteStream | src/flite_out_arduino.h:265-269 | The sink makes one `Print::write` of exactly 2·n bytes: the buffer's byte image, which decodes back to the samples. The result is 0. |
| FliteOut.Sink.WritePrintStream | src/flite_out_arduino.h:284-292 | The sink makes exactly n `println` calls, the j-th printing sample j. The result is 0. |
| FliteOut.Sink.WriteI2S | src/flite_out_arduino.h:183-207 | With 2 channels there is one bus write of the unchanged buffer. With any other channel count there is one bus write per sample, of frame {s_j, s_j}, in order. `total` sums the bytes of the successful writes only. The result is 0 even when writes fail. |
| FliteOut.Sink.Write | src/flite_out_arduino.h:61 | The virtual `write` runs the body of the sink's own subclass. It returns 0, keeps the invariant and only appends to the log. |
| FliteOut.Sink.WriteFrames | src/flite_out_arduino.h:193-204 | The mono loop makes one bus write per sample, of frame {s_j, s_j}, in order, on the sink's port. `total` is the sum of the bytes of the successful writes. |
| FliteOut.UpmixWrittenBound | src/flite_out_arduino.h:194-204 | The upmix loop's `total` is at most 4 bytes per input sample. It is exactly that when every frame write succeeds. |
| StreamDispatch.OutputSlot.constructor | src/flite_out_arduino.cpp:16 | The global slot starts empty, and no sink has been destroyed. |
| StreamDispatch.AudioStreamChunk | src/flite_out_arduino.cpp:21-36 | The result is always 0. An empty slot is left alone. A registered closed sink is first opened with the wave's rate and channel count and format LINEAR16. A registered sink then receives exactly `samples[start..start+size)` and stays open whatever `last` is. An already open sink is not reopened. |
| StreamDispatch.TwoChunksOpenOnce | src/flite_out_arduino.cpp:25-29 | Two chunks on a closed sink open it exactly once, with the first wave's parameters. |
| StreamDispatch.CallbackScenario | src/flite_out_arduino.cpp:24-29 | A callback sink given a mono chunk of 4 samples at 16 kHz gets exactly one callback with those 4 samples, and then reports 16000 Hz, 1 channel and 16 bits. |
| FliteApi.SetupOf | src/flite_arduino.h:123-141 | A set voice or streaming info is kept. A missing voice is registered. Missing streaming info is created with the dispatcher as its callback. Nothing is called when both are set. The setup faults exactly when it must attach new streaming info to a still-null voice. |
| FliteApi.SetupReady | src/flite_arduino.h:123-141 | When a voice is set or registration succeeds, setup leaves voice and streaming info both set, without fault. New streaming info is hooked to the dispatcher. |
| FliteApi.SetupIdempotent | src/flite_arduino.h:125-135 | After a successful setup, a second setup changes nothing and calls the engine no more, whatever the engine would reply. |
| FliteApi.EndThenSetupReinitialises | src/flite_arduino.h:109-115 | After `end()` the next setup runs the full initialisation: register, create streaming info, attach it. |
| FliteApi.ChosenVariant | src/flite_arduino.h:34-66 | `Flite()` chooses a print stream over Serial. The callback constructor chooses a callback sink. `(Print&, as_text)` chooses a print stream when `as_text` holds and a raw stream otherwise. `Flite(i2s_num)` chooses an I2S sink with the defaults. |
| FliteApi.Flite.constructor | src/flite_arduino.h:34-66 | The constructor registers a fresh sink of the chosen variant, destroying any previous one. Voice and streaming info are unset, and the only engine call is `flite_init`. |
| FliteApi.Flite.WithOutput | src/flite_arduino.h:56-59 | The caller's sink is registered as is, any previous one is destroyed, and the engine is initialised. |
| FliteApi.Flite.SetOutput | src/flite_arduino.h:143-147 | Afterwards `getOutput()` is `out`. The previous sink is destroyed exactly when the slot was non-null. |
| FliteApi.Flite.GetOutput | src/flite_arduino.h:104-106 | The sink currently held by the shared output slot, which every facade and the dispatcher read. |
| FliteApi.Flite.SetVoice | src/flite_arduino.h:70-72 | The voice becomes the one given. |
| FliteApi.Flite.SetVoiceFromUrl | src/flite_arduino.h:75-77 | The voice becomes the engine's selection for the URL. |
| FliteApi.Flite.Setup | src/flite_arduino.h:123-141 | The new voice, streaming info and engine calls are those of `SetupOf`. With a voice available, both end up set without fault. New streaming info carries the dispatcher. When both were already set, nothing changes. |
| FliteApi.Flite.Say | src/flite_arduino.h:80-83 | Setup runs first. Then text-to-speech is called with the voice setup leaves and output type "play", unless setup faulted. |
| FliteApi.Flite.SayPhones | src/flite_arduino.h:86-89 | Setup runs first. Then phones-to-speech is called with the resulting voice and "play". |
| FliteApi.Flite.SaySsml | src/flite_arduino.h:92-95 | Setup runs first. Then SSML-to-speech is called with the resulting voice and "play". |
| FliteApi.Flite.TextToWaveOf | src/flite_arduino.h:98-101 | Setup runs first. Then text-to-wave is called with the resulting voice. |
| FliteApi.Flite.End | src/flite_arduino.h:109-115 | The old streaming info is deleted, then the old voice. Both become null. |
| Convert.RFind | tools/convert.py:23 | `rindex` of a character fails exactly when the character is absent. Otherwise it finds the last occurrence. |
| Convert.RelativePath | tools/convert.py:15-21 | The path has the root prefix removed if it starts with it. Otherwise a leading "./" is removed. Otherwise the path is unchanged. |
| Convert.BaseName | tools/convert.py:26-30 | The name is the suffix after the last '/', or the whole path when it has no '/'. It never contains '/'. |
| Convert.FileType | tools/convert.py:23-24 | The type is absent exactly when the path has no '.' (where `rindex` raises). Otherwise it is the suffix after the last '.' and contains no '.'. |
| Convert.NewFileEntry | tools/convert.py:13-30 | Construction raises `ValueError` exactly when the path has no '.'. Otherwise the entry keeps the full path, and its path, type and name are `RelativePath`, `FileType` and `BaseName` of the path. |
| Convert.Repr | tools/convert.py:32-33 | `__repr__` opens with '{' followed by the type, ends with "}\n", and is exactly 7 characters longer than type, path and full path together. |
| Convert.ReprLeadsWithType | tools/convert.py:32-33 | `__repr__` is braced, ends with "}\n" and leads with the type up to its first comma. |
| Convert.GetName | tools/convert.py:93-95 | `getName` raises exactly when the path has no '.'. Otherwise it returns `BaseName`. |
| Convert.GetFileEntry | tools/convert.py:89-90 | `getFileEntry` returns the entry stored under the name, or raises `KeyError` for an absent name. |
| Convert.IndexOne | tools/convert.py:63-64 | One loop pass stores the file's entry under its name, or raises `ValueError` exactly for a path without '.'. |
| Convert.IndexFiles | tools/convert.py:61-64 | Indexing only ever raises `ValueError`, and it never drops a key. |
| Convert.IndexKeyedByName | tools/convert.py:63-64 | Every stored entry is either an untouched earlier one or filed under its own name. |
| Convert.IndexFailsIff | tools/convert.py:61-64 | Indexing succeeds exactly when every path contains a '.'. |
| Convert.IndexLastWins | tools/convert.py:61-64 | The entry stored under a name is the entry of the last file with that name. |
| Convert.IndexStopsAtError | tools/convert.py:62-63 | The first path without '.' stops the loop. The entries stored before it remain. |
| Convert.Repository.constructor | tools/convert.py:57 | The repository keeps the directory it settled in as root, and starts with an empty dictionary. |
| Convert.Repository.SetupDictionary | tools/convert.py:61-64 | The loop leaves the dictionary and the exception that `IndexFiles` describes. |
| Convert.ReplaceInclude | tools/convert.py:69-86 | A line without a double quote is returned as is. A quoted line raises exactly when its include text has no '.'. A changed line is `#include "<entry.path>"\n` for a dictionary entry named like the include text. A known, non-empty name is always rewritten that way. |
| Convert.RunOfWrites | tools/convert.py:109-114 | A loop that stops at the first exception writes each result's value at its position. When it stops early, it stops at an exception. |
| Convert.RunOfUnique | tools/convert.py:109-114 | The run that `RunOfWrites` describes is the only one possible for those results. |
| Convert.RewriteRun | tools/convert.py:109-114 | The loop never writes more lines than it reads. Without an exception it writes exactly as many. |
| Convert.RewriteRunWrites | tools/convert.py:109-114 | Each line's rewrite is written at that line's position. An exception stops the loop exactly at a line whose rewrite raises. |
| Convert.RewriteRunUnique | tools/convert.py:109-114 | `RewriteRun` is the only output that writes the lines' rewrites in order and stops exactly at the first line that raises. |
| Convert.UpdatePassesThrough | tools/convert.py:109-114 | A line not starting with "#include " is written verbatim at its own position. |
| Convert.Repository.UpdateFile | tools/convert.py:102-116 | The loop writes what `RewriteRun` describes, or nothing in test mode, and reports the same exception. |
| Convert.ConcatReadLines | tools/convert.py:119-120 | Writing back the lines `readlines` returns reproduces the file's text. |
| Convert.ExcludedText | tools/convert.py:118-129 | An empty file raises `IndexError`. |
| Convert.GuardedFirstLine | tools/convert.py:125 | In a wrapped file, the guard line reads back as the first line. |
| Convert.ExcludeIdempotent | tools/convert.py:123-129 | Excluding an already excluded file leaves it unchanged. |
| Convert.Repository.ExcludeFile | tools/convert.py:118-129 | An empty file raises `IndexError`. A file whose first line starts with the guard is not rewritten. Any other file is written as the guard line, every line in order, then `#endif`. Read back, what is written (or the untouched text, or the error) is what `ExcludedText` gives for the file's text. |
| Convert.EndifGluedToLastLine | tools/convert.py:128 | As written, a file whose only line lacks '\n' comes back as the guard line plus that line with `#endif` glued on. No line of the result is `#endif`. |
| Convert.EndifGluedExample | tools/convert.py:128 | The file `int x;` becomes the guard line followed by `int x;#endif`, and reads back as exactly those two lines. |
| Convert.ExcludedTextFixed | tools/convert.py:118-129 | The corrected exclusion raises `IndexError` on an empty file. |
| Convert.ExcludeFixedLines | tools/convert.py:125-128 | Corrected: the result reads back as the guard line, the original lines with the last one terminated, then `#endif` as a line of its own. |
| Convert.ExcludeFixedIdempotent | tools/convert.py:123-129 | The corrected exclusion is idempotent too. |

## Left out

- Logging (`LOG`, `ESP_LOGE`, the "Unsupported Audio Format" message of `bitsPerSample`, the prints of `convert.py`) has no effect on state and is not modelled.
- The ESP-IDF I2S driver is a foreign library. Each call is a logged event whose success the model leaves open. Blocking with `portMAX_DELAY` is not modelled.
- FliteOut.Sink.WriteI2S: the bytes a successful frame write reports are taken to be the 4 requested. The driver's actual count is not modelled.
- Arduino `Print`/`Serial` appear only as the calls made on them. Decimal formatting of `println` and `Print`'s own buffering are not modelled.
- Pcm.EncodeLE: the raw buffer dump assumes a little-endian target, as the ESP32 and common Arduino cores are. Big-endian targets are not modelled.
- Memory management is not modelled. This covers the `cst_alloc` of each `open` (never freed) and the C++ `delete` of `setOutput`, which only records the destroyed sink in `OutputSlot.deleted`.
- The Flite engine is not modelled. This covers `flite_init`, the synthesis calls, voice registration and selection, `feat_set`, streaming-info allocation and deletion, and the wave `textToWave` returns. Its calls are logged, and its replies are inputs.
- FliteApi.Flite.Setup: when registration returns null and streaming info must be created, the source dereferences a null voice. The model stops there with `faulted` and makes no further engine call. The undefined behaviour itself is not modelled.
- `src/config.h` holds only the logging macro and a build define, and is not part of this model.
- `convert.py` file-system work is left out because it is I/O: `__findFiles`, `__setupWorkingDirectory`, opening, reading and writing files, `listNames` and the `__main__` script.
- Convert.ReadLines: Python's universal-newline translation of "\r" and "\r\n" is not modelled. Lines split at '\n' only.
- Convert.Repository: in the source, the dictionary is a class attribute shared by every `Repository`. The model gives each repository its own.
- Convert.Repository.UpdateFile: the file is reopened for writing before the loop, so an exception leaves the lines written so far. The model returns those lines and the exception, and does not model the truncation separately.

## Findings

| source | as written | input that shows it | evidently intended | confidence | as-written member | corrected member |
|---|---|---|---|---|---|---|
| tools/convert.py:126-128 | `excludeFile` writes every line and then `#endif` with no newline in between | a file holding `int x;` with no final newline becomes `#ifndef ARDUINO\nint x;#endif`, where `#endif` is not a directive and the `#ifndef` is left unterminated | `#endif` always starts a line of its own | medium, not executed | Convert.EndifGluedToLastLine | Convert.ExcludeFixedLines |
