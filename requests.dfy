/**
 * `audio_generator`: the outbound request stream of a recognition session.
 * The payloads `stream.read` returns while the session's time lasts are
 * given as `chunks`, in read order.
 */
module Requests {
  import opened Wrappers
  import opened Devices
  import opened Loopback
  import opened Options

  newtype byte = x: int | 0 <= x < 256

  /** A streaming request carries session options or one chunk of audio. */
  datatype Request = SessionOptions(options: StreamingOptions) | AudioChunk(data: seq<byte>)

  /** Why the request stream ends before its first message. */
  datatype StreamError =
    | InvalidDeviceIndex(index: int)   // `get_device_info_by_index` rejects it
    | NoLoopback(cause: LoopbackError)  // `find_loopback_device` calls `sys.exit()`

  /** What a session records: the device, the stream opened on it, the requests sent. */
  datatype Capture = Capture(speakers: DeviceInfo, stream: StreamParams, requests: seq<Request>)

  /** One options message first, and only audio chunks after it. */
  predicate OptionsThenChunks(requests: seq<Request>) {
    && |requests| > 0 && requests[0].SessionOptions?
    && forall k :: 0 < k < |requests| ==> requests[k].AudioChunk?
  }

  /** The number of options messages in a request stream. */
  function CountOptions(requests: seq<Request>): nat {
    if |requests| == 0 then 0
    else (if requests[0].SessionOptions? then 1 else 0) + CountOptions(requests[1..])
  }

  /** The audio payloads of the chunk messages, in stream order. */
  function Payloads(requests: seq<Request>): seq<seq<byte>> {
    if |requests| == 0 then []
    else (if requests[0].AudioChunk? then [requests[0].data] else []) + Payloads(requests[1..])
  }

  lemma {:induction false} OnlyChunksCarryNoOptions(requests: seq<Request>)
    requires forall k :: 0 <= k < |requests| ==> requests[k].AudioChunk?
    ensures CountOptions(requests) == 0
  {
    if |requests| > 0 {
      OnlyChunksCarryNoOptions(requests[1..]);
    }
  }

  /** A stream of this shape holds exactly one options message. */
  lemma ExactlyOneOptionsMessage(requests: seq<Request>)
    requires OptionsThenChunks(requests)
    ensures CountOptions(requests) == 1
  {
    OnlyChunksCarryNoOptions(requests[1..]);
  }

  /** Reading the payloads back out of the chunk messages gives what was read, in order. */
  lemma {:induction false} PayloadsOfChunks(requests: seq<Request>, chunks: seq<seq<byte>>)
    requires |requests| == |chunks|
    requires forall k :: 0 <= k < |chunks| ==> requests[k] == AudioChunk(chunks[k])
    ensures Payloads(requests) == chunks
  {
    if |requests| > 0 {
      PayloadsOfChunks(requests[1..], chunks[1..]);
    }
  }

  /**
   * The generator: look up the chosen index, substitute the loopback
   * device, send the options for it, then open the capture stream on it
   * and send one chunk per read.
   */
  method AudioGenerator(devices: seq<DeviceInfo>, deviceIndex: int, chunks: seq<seq<byte>>)
    returns (r: Result<Capture, StreamError>)
    ensures !(0 <= deviceIndex < |devices|) ==> r == Failure(InvalidDeviceIndex(deviceIndex))
    ensures 0 <= deviceIndex < |devices| ==>
      match LoopbackFor(devices, devices[deviceIndex])
      case Failure(e) => r == Failure(NoLoopback(e))
      case Success(speakers) =>
        && r.Success?
        && r.value.speakers == speakers
        && r.value.stream == CaptureParams(speakers)
        && |r.value.requests| == |chunks| + 1
        && r.value.requests[0] == SessionOptions(GetRecognitionOptions(speakers))
        && forall k :: 0 <= k < |chunks| ==> r.value.requests[k + 1] == AudioChunk(chunks[k])
    ensures r.Success? ==> OptionsThenChunks(r.value.requests) && Payloads(r.value.requests[1..]) == chunks
  {
    if !(0 <= deviceIndex < |devices|) {
      return Failure(InvalidDeviceIndex(deviceIndex));
    }
    var found := FindLoopbackDevice(devices, devices[deviceIndex]);
    if found.Failure? {
      return Failure(NoLoopback(found.error));
    }
    var speakers := found.value;
    var requests := [SessionOptions(GetRecognitionOptions(speakers))];
    var stream := CaptureParams(speakers);
    var i := 0;
    while i < |chunks|
      invariant 0 <= i <= |chunks|
      invariant |requests| == i + 1
      invariant requests[0] == SessionOptions(GetRecognitionOptions(speakers))
      invariant forall k :: 0 <= k < i ==> requests[k + 1] == AudioChunk(chunks[k])
    {
      requests := requests + [AudioChunk(chunks[i])];
      i := i + 1;
    }
    PayloadsOfChunks(requests[1..], chunks);
    r := Success(Capture(speakers, stream, requests));
  }
}
