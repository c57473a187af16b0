/**
 * The audio devices the program sees, and `get_device_index`: the list of
 * WASAPI output devices and the user's choice among them.
 *
 * The enumeration PyAudio performs is the sequence `devices`: the info
 * record `get_device_info_by_index(i)` returns is `devices[i]`.
 */
module Devices {
  import opened Wrappers
  import opened PyInt

  /** The fields of a PyAudio device-info record the program reads. */
  datatype DeviceInfo = DeviceInfo(
    index: int,
    name: string,
    hostApi: int,
    maxInputChannels: int,
    maxOutputChannels: int,
    defaultSampleRate: real,
    isLoopbackDevice: bool)

  /** An entry of the listing: enumeration position and device name. */
  datatype Candidate = Candidate(index: int, name: string)

  /** Why `sys.exit()` ends the thread choosing a device. */
  datatype SelectError =
    | NoOutputDevices              // nothing to list
    | InvalidLiteral(text: string) // `int(choice)` raised ValueError
    | InvalidChoice(choice: int)   // a number outside the listing

  /** The filter of the enumeration loop; -1 is never a host API. */
  predicate IsWasapiOutput(d: DeviceInfo, wasapiIndex: int) {
    d.maxOutputChannels > 0 && d.hostApi == wasapiIndex && d.hostApi != -1
  }

  /** The listing that enumerating `devices` builds, in enumeration order. */
  function Candidates(devices: seq<DeviceInfo>, wasapiIndex: int): seq<Candidate> {
    if |devices| == 0 then []
    else
      var n := |devices| - 1;
      Candidates(devices[..n], wasapiIndex)
      + if IsWasapiOutput(devices[n], wasapiIndex) then [Candidate(n, devices[n].name)] else []
  }

  /** Every entry of `c` names a WASAPI output device of `devices` by its position. */
  predicate OnlyWasapiOutputs(devices: seq<DeviceInfo>, wasapiIndex: int, c: seq<Candidate>) {
    forall k :: 0 <= k < |c| ==>
      && 0 <= c[k].index < |devices|
      && IsWasapiOutput(devices[c[k].index], wasapiIndex)
      && c[k].name == devices[c[k].index].name
  }

  /** Every WASAPI output device of `devices` has an entry in `c`. */
  predicate AllWasapiOutputs(devices: seq<DeviceInfo>, wasapiIndex: int, c: seq<Candidate>) {
    forall i :: 0 <= i < |devices| && IsWasapiOutput(devices[i], wasapiIndex) ==>
      exists k :: 0 <= k < |c| && c[k].index == i
  }

  /** The entries of `c` are in strictly ascending position order. */
  predicate Ascending(c: seq<Candidate>) {
    forall j, k :: 0 <= j < k < |c| ==> c[j].index < c[k].index
  }

  /** Every listed entry names a WASAPI output device by its position. */
  lemma {:induction false} CandidatesSound(devices: seq<DeviceInfo>, wasapiIndex: int)
    ensures OnlyWasapiOutputs(devices, wasapiIndex, Candidates(devices, wasapiIndex))
  {
    if |devices| > 0 {
      var n := |devices| - 1;
      var c := Candidates(devices, wasapiIndex);
      var front := Candidates(devices[..n], wasapiIndex);
      CandidatesSound(devices[..n], wasapiIndex);
      assert forall k :: 0 <= k < |front| ==> 0 <= front[k].index < n;
      assert |c| >= |front|;
      forall k | 0 <= k < |c|
        ensures 0 <= c[k].index < |devices|
        ensures IsWasapiOutput(devices[c[k].index], wasapiIndex)
        ensures c[k].name == devices[c[k].index].name
      {
        if k < |front| {
          assert c[k] == front[k];
          assert devices[..n][front[k].index] == devices[front[k].index];
        } else {
          assert c[k] == Candidate(n, devices[n].name);
        }
      }
    }
  }

  /** Every WASAPI output device is listed. */
  lemma {:induction false} CandidatesComplete(devices: seq<DeviceInfo>, wasapiIndex: int)
    ensures AllWasapiOutputs(devices, wasapiIndex, Candidates(devices, wasapiIndex))
  {
    if |devices| > 0 {
      var n := |devices| - 1;
      var c := Candidates(devices, wasapiIndex);
      var front := Candidates(devices[..n], wasapiIndex);
      CandidatesComplete(devices[..n], wasapiIndex);
      forall i | 0 <= i < |devices| && IsWasapiOutput(devices[i], wasapiIndex)
        ensures exists k :: 0 <= k < |c| && c[k].index == i
      {
        if i == n {
          assert c[|c| - 1].index == i;
        } else {
          assert devices[..n][i] == devices[i];
          var k :| 0 <= k < |front| && front[k].index == i;
          assert c[k] == front[k];
        }
      }
    }
  }

  /** The listing is in strictly ascending enumeration order. */
  lemma {:induction false} CandidatesAscending(devices: seq<DeviceInfo>, wasapiIndex: int)
    ensures Ascending(Candidates(devices, wasapiIndex))
  {
    if |devices| > 0 {
      var n := |devices| - 1;
      var c := Candidates(devices, wasapiIndex);
      var front := Candidates(devices[..n], wasapiIndex);
      CandidatesAscending(devices[..n], wasapiIndex);
      CandidatesSound(devices[..n], wasapiIndex);
      forall j, k | 0 <= j < k < |c| ensures c[j].index < c[k].index {
        assert c[j] == front[j];
        if k < |front| {
          assert c[k] == front[k];
        } else {
          assert c[k].index == n;
        }
      }
    }
  }

  /** The listing is empty exactly when no device passes the filter. */
  lemma CandidatesEmpty(devices: seq<DeviceInfo>, wasapiIndex: int)
    ensures Candidates(devices, wasapiIndex) == []
      <==> forall i :: 0 <= i < |devices| ==> !IsWasapiOutput(devices[i], wasapiIndex)
  {
    CandidatesSound(devices, wasapiIndex);
    CandidatesComplete(devices, wasapiIndex);
  }

  /** The enumeration loop of `get_device_index`, appending as it goes. */
  method AvailableDevices(devices: seq<DeviceInfo>, wasapiIndex: int)
    returns (available: seq<Candidate>)
    ensures available == Candidates(devices, wasapiIndex)
  {
    available := [];
    for i := 0 to |devices|
      invariant available == Candidates(devices[..i], wasapiIndex)
    {
      assert devices[..i + 1][..i] == devices[..i];
      if IsWasapiOutput(devices[i], wasapiIndex) {
        available := available + [Candidate(i, devices[i].name)];
      }
    }
    assert devices[..|devices|] == devices;
  }

  /** The answer `answer` selects, given the listing `available`. */
  function Selection(available: seq<Candidate>, defaultOutputIndex: int, answer: string): Result<int, SelectError> {
    if available == [] then Failure(NoOutputDevices)
    else if answer == "" then Success(defaultOutputIndex)
    else
      match ParseInt(answer)
      case None => Failure(InvalidLiteral(answer))
      case Some(c) => if 0 <= c < |available| then Success(available[c].index) else Failure(InvalidChoice(c))
  }

  /**
   * An answer of more than `MaxStrDigits` digits selects nothing, even one
   * of zeros only: `int()` rejects it before its value is looked at.
   */
  lemma LongAnswerIsInvalidLiteral(available: seq<Candidate>, defaultOutputIndex: int, answer: string)
    requires available != []
    requires forall k :: 0 <= k < |answer| ==> IsDigit(answer[k])
    requires |answer| > MaxStrDigits
    ensures Selection(available, defaultOutputIndex, answer) == Failure(InvalidLiteral(answer))
  {
    ParseIntRejectsLongDigitStrings(answer);
  }

  /**
   * `get_device_index`: list the WASAPI output devices, then map the answer
   * typed at the prompt to a device index. A `sys.exit()`, which ends the
   * thread running it, is a Failure. `defaultOutputIndex` is the index of the default output device.
   */
  method GetDeviceIndex(devices: seq<DeviceInfo>, wasapiIndex: int, defaultOutputIndex: int, answer: string)
    returns (r: Result<int, SelectError>)
    ensures r == Selection(Candidates(devices, wasapiIndex), defaultOutputIndex, answer)
    ensures (forall i :: 0 <= i < |devices| ==> !IsWasapiOutput(devices[i], wasapiIndex))
      <==> r == Failure(NoOutputDevices)
    ensures r != Failure(NoOutputDevices) && answer == "" ==> r == Success(defaultOutputIndex)
    ensures r != Failure(NoOutputDevices) && answer != "" ==>
      match ParseInt(answer)
      case None => r == Failure(InvalidLiteral(answer))
      case Some(c) =>
        if 0 <= c < |Candidates(devices, wasapiIndex)|
        then r == Success(Candidates(devices, wasapiIndex)[c].index)
        else r == Failure(InvalidChoice(c))
    ensures r.Success? && answer != "" ==>
      0 <= r.value < |devices| && IsWasapiOutput(devices[r.value], wasapiIndex)
  {
    var available := AvailableDevices(devices, wasapiIndex);
    CandidatesEmpty(devices, wasapiIndex);
    CandidatesSound(devices, wasapiIndex);
    if available == [] {
      return Failure(NoOutputDevices);
    }
    if answer == "" {
      return Success(defaultOutputIndex);
    }
    match ParseInt(answer)
    case None =>
      r := Failure(InvalidLiteral(answer));
    case Some(choice) =>
      if 0 <= choice < |available| {
        r := Success(available[choice].index);
      } else {
        r := Failure(InvalidChoice(choice));
      }
  }
}
