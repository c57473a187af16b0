/**
 * `run`: choose the device (unless one was given), stream the session's
 * requests, and handle the responses into the log and the callback.
 * The network call is left out: the responses the service sends, and how
 * their stream ends, are parameters.
 */
module Session {
  import opened Wrappers
  import opened Devices
  import opened Loopback
  import opened Options
  import opened Requests
  import opened Transcript

  /**
   * The reasons `run` stops before any response is handled. The log file is
   * opened while the RPC library's thread already runs the request stream;
   * in either order a failure of the stream leaves the file emptied and
   * with no line written.
   */
  datatype RunError =
    | SelectionFailed(select: SelectError)
    | StreamFailed(stream: StreamError, log: seq<string>)

  /** What a session leaves behind. */
  datatype RunResult = RunResult(capture: Capture, log: seq<string>, effects: seq<Effect>, outcome: StreamEnd)

  /** The device index `run` records from: the given one, or the one chosen at the prompt. */
  function ChosenIndex(device: Option<int>, devices: seq<DeviceInfo>, wasapiIndex: int,
                       defaultOutputIndex: int, answer: string): Result<int, SelectError> {
    match device
    case Some(i) => Success(i)
    case None => Selection(Candidates(devices, wasapiIndex), defaultOutputIndex, answer)
  }

  method Run(device: Option<int>, devices: seq<DeviceInfo>, wasapiIndex: int, defaultOutputIndex: int,
             answer: string, chunks: seq<seq<byte>>, responses: seq<Response>, end: StreamEnd)
    returns (r: Result<RunResult, RunError>)
    ensures r.Success? ==>
      && OptionsThenChunks(r.value.capture.requests)
      && Payloads(r.value.capture.requests[1..]) == chunks
      && r.value.effects == EffectsOf(Lines(responses))
      && r.value.log == Written(r.value.effects) == Terminated(Lines(responses))
      && r.value.outcome == end
    ensures match ChosenIndex(device, devices, wasapiIndex, defaultOutputIndex, answer)
      case Failure(e) => r == Failure(SelectionFailed(e))
      case Success(i) =>
        if !(0 <= i < |devices|) then r == Failure(StreamFailed(InvalidDeviceIndex(i), []))
        else match LoopbackFor(devices, devices[i])
          case Failure(e) => r == Failure(StreamFailed(NoLoopback(e), []))
          case Success(speakers) =>
            && r.Success?
            && r.value.capture.speakers == speakers
            && r.value.capture.stream == CaptureParams(speakers)
            && r.value.capture.requests[0] == SessionOptions(GetRecognitionOptions(speakers))
  {
    var index: int;
    if device.Some? {
      index := device.value;
    } else {
      var chosen := GetDeviceIndex(devices, wasapiIndex, defaultOutputIndex, answer);
      if chosen.Failure? {
        return Failure(SelectionFailed(chosen.error));
      }
      index := chosen.value;
    }
    var transcript := new TranscriptLog();
    var capture := AudioGenerator(devices, index, chunks);
    if capture.Failure? {
      return Failure(StreamFailed(capture.error, transcript.log));
    }
    var outcome := transcript.HandleResponses(responses, end);
    r := Success(RunResult(capture.value, transcript.log, transcript.effects, outcome));
  }

  /** A positional argument of the worker thread's call to `run`. */
  datatype Arg = StrArg(s: string) | IntArg(n: int) | NoneArg | CallbackArg

  /** `run`'s parameters as bound by a call: `run(secret, session_duration, log_file, update_callback, device)`. */
  datatype RunCall = RunCall(secret: Arg, sessionDuration: Arg, logFile: Arg, updateCallback: Arg, device: Arg)

  /** Binding positional arguments to `run`'s parameters; any other count is a TypeError. */
  function BindRunArgs(args: seq<Arg>): Option<RunCall> {
    if |args| == 5 then Some(RunCall(args[0], args[1], args[2], args[3], args[4])) else None
  }

  /** The `--device` option as an argument: `None` or an integer. */
  function DeviceArg(device: Option<int>): Arg {
    match device
    case None => NoneArg
    case Some(i) => IntArg(i)
  }

  /** A call `run` can execute: the callback is callable, the device is `None` or an index. */
  predicate CallIsWellTyped(call: RunCall) {
    call.updateCallback == CallbackArg && (call.device.NoneArg? || call.device.IntArg?)
  }

  /** The thread's arguments as `create_and_update_widget` passes them. */
  function ThreadArgsAsWritten(secret: string, duration: int, logFile: string, device: Option<int>): seq<Arg> {
    [StrArg(secret), IntArg(duration), StrArg(logFile), DeviceArg(device), CallbackArg]
  }

  /** The thread's arguments in the order of `run`'s parameters. */
  function ThreadArgsCorrected(secret: string, duration: int, logFile: string, device: Option<int>): seq<Arg> {
    [StrArg(secret), IntArg(duration), StrArg(logFile), CallbackArg, DeviceArg(device)]
  }

  /**
   * As written, every launch binds the UI callback to `device` and the
   * `--device` value to `update_callback`: `run` would take the callback
   * for a device index and call `None` or an integer as the callback.
   */
  lemma AsWrittenCallSwapsCallbackAndDevice(secret: string, duration: int, logFile: string, device: Option<int>)
    ensures BindRunArgs(ThreadArgsAsWritten(secret, duration, logFile, device)).Some?
    ensures var call := BindRunArgs(ThreadArgsAsWritten(secret, duration, logFile, device)).value;
      && !CallIsWellTyped(call)
      && call.device == CallbackArg
      && call.updateCallback == DeviceArg(device)
  {
  }

  /** In `run`'s own order the call is well typed and carries the `--device` value as the device. */
  lemma CorrectedCallBindsDevice(secret: string, duration: int, logFile: string, device: Option<int>)
    ensures BindRunArgs(ThreadArgsCorrected(secret, duration, logFile, device)).Some?
    ensures var call := BindRunArgs(ThreadArgsCorrected(secret, duration, logFile, device)).value;
      && CallIsWellTyped(call)
      && call.device == DeviceArg(device)
      && call.secret == StrArg(secret) && call.sessionDuration == IntArg(duration)
      && call.logFile == StrArg(logFile)
  {
  }
}
