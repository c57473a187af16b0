# Loopback speech-to-text session: a Dafny model

The program records what a Windows machine is playing (through a WASAPI
loopback device), streams it to a cloud speech-recognition service over a
bidirectional streaming RPC, and writes every recognised text to a log file
and to a floating window. This project models the program's own decision
logic in `main.py` and proves what it promises:

- **Device choice** (`get_device_index`): the enumeration loop that lists
  WASAPI output devices, and the mapping of the answer typed at the prompt
  to a device index, with Python's `int()` of a string modelled for
  ASCII digits, including CPython's default limit of 4300 digits (`PyInt`). Every `sys.exit()` is a `Failure`: in the program
  it raises `SystemExit` in the thread that calls it, which ends that thread.
- **Loopback substitution** (`find_loopback_device`): a first-match search
  over the loopback devices for a name containing the playback device's
  name, skipped when the device is already a loopback device.
- **Session options** (`get_recognition_options`) and the capture stream
  parameters, and the **request stream** (`audio_generator`): one options
  message, then one audio chunk per read, in read order.
- **Response handling** (the loop in `run`): the transcript lines are the
  alternative texts of partial, final and final-refinement events, in
  arrival order; each is written to the log with a newline, flushed, and
  then passed to the update callback.

Files: `wrappers.dfy` (Option, Result), `pyint.dfy` (Python `int(str)`),
`devices.dfy`, `loopback.dfy`, `options.dfy`, `requests.dfy`,
`transcript.dfy`, `session.dfy` (`run`, and the thread call site).

Library calls become inputs: the device enumeration is `devices: seq<DeviceInfo>`
(position `i` is `get_device_info_by_index(i)`), the WASAPI host-API index,
the default output device's index and the typed answer are parameters, the
payloads `stream.read` returns during the session are `chunks`, and the
responses of the service with the way their stream ends are `responses` and
`end`. PyAudioWPatch's loopback generator is modelled as the enumeration
filtered on `isLoopbackDevice`, in order. `get_device_info_by_index` with an
index outside the enumeration raises; the model returns
`InvalidDeviceIndex`.

An explicit `--device` index is not taken as-is: `run` skips the prompt for
it (main.py:113-114), but `audio_generator` still applies the loopback search
to the device at that index (main.py:82-83) and records from the search
result (main.py:100). The model follows the code: `Session.Run` states that
the opened device is `LoopbackFor(devices, devices[i])` for the given `i`.

## Model

| member | source | states |
|---|---|---|
| PyInt.StripLeading | main.py:37 | `int()` ignores the leading whitespace it skips (ASCII space, tab to carriage return, and Unicode whitespace, but not U+001C to U+001F): the result is a suffix of the input, everything dropped is such whitespace, and it does not start with any |
| PyInt.StripTrailing | main.py:37 | the same for the trailing whitespace `int()` skips: a prefix, only such whitespace dropped, none left at the end |
| PyInt.ParseIntOfIntToString | main.py:37-39 | the decimal text of an integer, surrounded by any whitespace `int()` skips, is read back by `int()` as that integer when it has at most 4300 digits, and rejected when it has more |
| PyInt.SeparatorIsNotSpace | main.py:37-44 | an information separator (U+001C to U+001F) is not skipped: `int()` rejects every text that starts with one |
| PyInt.ParseIntRejectsLongDigitStrings | main.py:37-44 | a run of more than 4300 digits, leading zeros counted, is rejected by `int()` |
| PyInt.ParseIntNeedsADigit | main.py:37-44 | a string without a digit is never a number: `int()` raises ValueError and `sys.exit()` ends the thread choosing the device |
| Devices.AvailableDevices | main.py:14-20 | the enumeration loop builds exactly the listing `Candidates` of the devices |
| Devices.CandidatesSound | main.py:17-20 | every listed entry is the position and name of a device with output channels on the WASAPI host API (never host API -1) |
| Devices.CandidatesComplete | main.py:17-20 | every such device is listed |
| Devices.CandidatesAscending | main.py:17-20 | the listing is in strictly ascending enumeration order |
| Devices.CandidatesEmpty | main.py:17-28 | the listing is empty exactly when no device passes the filter |
| Devices.GetDeviceIndex | main.py:13-44 | no WASAPI output device iff `sys.exit()` with NoOutputDevices; otherwise an empty answer gives the default output device's index, an integer `c` with `0 <= c < |listing|` gives `listing[c].index`, a non-integer (including one of more than 4300 digits) is InvalidLiteral, any other integer InvalidChoice; a chosen number is always a WASAPI output device |
| Devices.LongAnswerIsInvalidLiteral | main.py:37-44 | with a non-empty listing, an answer of more than 4300 digits, zeros only included, selects nothing: InvalidLiteral |
| Loopback.ContainsIsSubstring | main.py:50 | the executable search agrees with Python's `in` on strings (occurs at some offset), both directions |
| Loopback.LoopbackDevices | main.py:49 | the loopback generator yields only loopback devices of the enumeration, and all of them |
| Loopback.LoopbackDevicesInOrder | main.py:49 | it yields them in enumeration order: its `m`-th device is at a position `p` of the enumeration, and the loopback devices before `p` are exactly the `m` it yielded before |
| Loopback.FirstMatchFromSpec | main.py:49-51 | the search returns the first position whose name contains the wanted name, no earlier one matches; no result means none matches |
| Loopback.LoopbackForKeepsLoopback | main.py:48-54 | a device that is already a loopback device is returned unchanged |
| Loopback.LoopbackForFirstMatch | main.py:47-53 | for a playback device: the first loopback device, in enumeration order, whose name contains its name, and never the playback device itself; `sys.exit()` when none matches |
| Loopback.LoopbackForFirstInEnumeration | main.py:47-53 | stated over the enumeration itself: the result is the loopback device at some position `p` whose name contains the playback device's name, and no loopback device before `p` has that property |
| Loopback.LoopbackForFailsOnlyWithoutMatch | main.py:47-53 | the search fails only for a playback device, when no loopback device anywhere in the enumeration has a name containing its name |
| Loopback.FindLoopbackDevice | main.py:47-54 | the loop with its early return computes `LoopbackFor` |
| Options.TruncateToInt | main.py:63 | Python's `int()` of a float: truncation toward zero, within one of the value |
| Options.ConfigMatchesCapture | main.py:89-100 | the capture stream is opened with the sample rate and channel count the options declare (main.py:63-64), 16-bit samples on both sides, on the substituted device |
| Options.OptionsDependOnlyOnRateAndChannels | main.py:57-78 | two devices get the same options iff their truncated sample rates and input channel counts agree |
| Options.OptionsPolicyIsFixed | main.py:57-78 | LINEAR16_PCM, normalisation enabled, profanity filter and literature text off, WHITELIST of exactly `ru-RU`, REAL_TIME, for every device |
| Options.WholeSampleRateIsKept | main.py:63 | a device reporting 48000.0 Hz is declared as 48000 Hz |
| Requests.ExactlyOneOptionsMessage | main.py:85-103 | a stream of one options message followed by chunks holds exactly one options message |
| Requests.PayloadsOfChunks | main.py:101-103 | the payloads read back from the chunk messages are the reads, in order |
| Requests.AudioGenerator | main.py:81-103 | bad index: InvalidDeviceIndex; no loopback match: `sys.exit()` before any message; otherwise the options of the substituted device at position 0, then one chunk per read in read order (and nothing else), the capture stream opened with `CaptureParams` of that device |
| Transcript.TextsByTag | main.py:126-136 | partial, final and final-refinement events with the same alternatives yield the same texts, those of the alternatives in order; any other event yields none; an event yields no text iff it has another tag or no alternatives |
| Transcript.LinesAppend | main.py:125-143 | the transcript of two consecutive response runs is the concatenation of their transcripts |
| Transcript.SilentEventEmitsNothing | main.py:128-138 | an event with no alternatives, or with another tag, adds no line wherever it arrives |
| Transcript.LinesComeFromAlternatives | main.py:125-136 | every emitted line is the text of an alternative of a received response |
| Transcript.WriteBeforeCallback | main.py:139-143 | for line `k`, the write of the line with its newline, then the flush, then the callback with the same text, and only then the next line |
| Transcript.WrittenIsTerminatedLines | main.py:139-141 | `log.write` receives exactly the transcript lines, each followed by a newline |
| Transcript.CallbackArgsAreLines | main.py:139-143 | the callback receives exactly the transcript lines, in order |
| Transcript.TranscriptLog.constructor | main.py:123 | the log file is opened for writing and starts empty |
| Transcript.TranscriptLog.Emit | main.py:139-143 | one line is written with a newline, flushed, then passed to the callback |
| Transcript.TranscriptLog.EmitAll | main.py:138-143 | the lines of one event are emitted in order |
| Transcript.TranscriptLog.HandleResponses | main.py:124-146 | after the stream, the effects are those of the transcript of the responses and the writes hold its lines; on a stream error the written lines stay and the error is passed on |
| Session.Run | main.py:106-146 | a given device index is used without the prompt, otherwise the prompt's choice, and a selection failure stops before the log is opened; the log is opened (main.py:123) while the RPC library's thread already runs the request stream, and in either order a stream failure (bad index, no loopback match) leaves it empty; otherwise the device opened is the loopback substitution of the chosen index (also for a given index), the requests are options then chunks of the reads, the log is the data of the writes among the effects, and log and callback receive the transcript of the responses |
| Session.AsWrittenCallSwapsCallbackAndDevice | main.py:219-220 | as written, the thread's call binds the callback to `device` and the `--device` value to `update_callback`: never a well-typed call |
| Session.CorrectedCallBindsDevice | main.py:106 | in `run`'s own parameter order the call is well typed and carries the `--device` value as the device |

## Findings

| source | as written | input that shows it | evidently intended | confidence | as-written member | corrected member |
|---|---|---|---|---|---|---|
| main.py:219-220 | `threading.Thread(target=run, args=(secret, session_duration, log_file, device, wrapped_update_callback))` against `run(secret, session_duration, log_file, update_callback, device)` | any launch, e.g. without `--device`: `run` receives the UI callback as `device` (not None, so it is used as a device index) and `None` as `update_callback` | pass `wrapped_update_callback` before `device` | high; not executed | Session.AsWrittenCallSwapsCallbackAndDevice | Session.CorrectedCallBindsDevice |

`Session.Run` takes `run`'s parameters in `run`'s own order, which is the
corrected binding.

## Left out

- PyInt.ParseInt: accepts ASCII digits only; Python's `int()` also accepts other Unicode decimal digits.
- PyInt.ParseInt: the digit limit is fixed at CPython's default of 4300; a limit changed through `sys.set_int_max_str_digits`, `PYTHONINTMAXSTRDIGITS` or `-X int_max_str_digits`, and interpreters without the limit (before 3.11 and the 2022 security releases), are not modelled.
- The wall-clock loop `time.time() - start_time < session_duration` (main.py:93, 101): the reads the loop performs are the input `chunks`, so the session duration and its timing are not modelled.
- The gRPC channel, TLS credentials, the stub call and the `authorization` metadata (main.py:107-109, 121-122): a network client; its responses are the inputs `responses` and `end`.
- The concurrency between the request stream and the response loop: the RPC library pulls requests on its own thread from the call at main.py:121 on, so the device lookup, the loopback search and the first request (main.py:82-85) race with the opening of the log at main.py:123. The model opens the log, produces the whole request stream, then handles the responses; its outcomes (log emptied, no line written on a stream failure) hold in every interleaving, the interleaving itself is not modelled.
- What the response loop does after a stream failure: a `sys.exit()` in the generator (no loopback match) ends the RPC library's thread, not `run`; an `OSError` from `get_device_info_by_index` (bad index) is caught by the RPC library, which cancels the call with status UNKNOWN, and `run` then prints and re-raises that RPC error at main.py:144-146. The model reports both as a `StreamFailed` run with an empty log and does not model the RPC error or a stream that never ends.
- `sys.exit()` is a `Failure` throughout: `run` is the worker thread's target, so in the program `SystemExit` ends only that thread (or the RPC library's thread) and the window's main loop keeps running; the rest of the process is not modelled.
- The log is the sequence of strings passed to `log.write`: UTF-8 encoding and text-mode newline translation (`\r\n` on Windows) of the file are not modelled.
- Options.TruncateToInt: takes a real number; the float values NaN and the infinities, for which `int()` raises, are not modelled.
- A failing `update_callback`: its exception is not caught inside the loop (main.py:143-144) and ends `run`; the model's callback cannot fail.
- The error print and re-raise of `_MultiThreadedRendezvous` (main.py:144-146): modelled only as "the error is passed on" (`outcome == end`); the print is left out.
- All `print` output (main.py:22-24, 27, 43, 52, 87, 142): no behavioural content.
- Errors raised by PyAudio itself: no WASAPI host API, no default output device, `open` or `read` failing, end of input at the prompt.
- The size of a read (4096 frames of 16-bit samples per channel): payloads are opaque in the model.
- Fields of a recognition alternative other than its text, and range limits of the protobuf integer fields.
- The tkinter window, the transparency slider, the drag handling (main.py:149-222), argparse (main.py:225-237) and the worker thread itself: UI and command-line glue; only the thread's argument binding is modelled, as a finding.
