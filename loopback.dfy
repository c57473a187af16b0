/**
 * `find_loopback_device`: a playback device is recorded through the
 * loopback device whose name contains the playback device's name.
 *
 * PyAudioWPatch's loopback generator yields, in enumeration order, the
 * devices whose `isLoopbackDevice` flag is set; `LoopbackDevices` is that.
 */
module Loopback {
  import opened Wrappers
  import opened Devices

  /** `sys.exit()` in the search: no loopback device has a matching name. */
  datatype LoopbackError = LoopbackNotFound

  /** Python's `p in s` for strings: `p` occurs in `s` at some offset. */
  ghost predicate IsSubstring(p: string, s: string) {
    exists i :: OccursAt(p, s, i)
  }

  /** `p` occurs in `s` starting at offset `i`. */
  predicate OccursAt(p: string, s: string, i: int) {
    0 <= i <= |s| - |p| && s[i..i + |p|] == p
  }

  /** A search for `p` at every offset of `s`, left to right. */
  function Contains(s: string, p: string): bool
    decreases |s|
  {
    if |p| > |s| then false
    else s[..|p|] == p || Contains(s[1..], p)
  }

  lemma {:induction false} ContainsIsSubstring(s: string, p: string)
    ensures Contains(s, p) <==> IsSubstring(p, s)
    decreases |s|
  {
    if |p| <= |s| {
      if s[..|p|] == p {
        assert OccursAt(p, s, 0);
      } else {
        ContainsIsSubstring(s[1..], p);
        if Contains(s[1..], p) {
          var i :| OccursAt(p, s[1..], i);
          TailSlice(s, i, i + |p|);
          assert OccursAt(p, s, i + 1);
        }
        if IsSubstring(p, s) {
          var i :| OccursAt(p, s, i);
          assert i != 0;
          TailSlice(s, i - 1, i - 1 + |p|);
          assert OccursAt(p, s[1..], i - 1);
        }
      }
    }
  }

  lemma TailSlice(s: string, i: int, j: int)
    requires 0 <= i <= j <= |s| - 1
    ensures s[1..][i..j] == s[i + 1..j + 1]
  {
    assert forall k :: 0 <= k < j - i ==> s[1..][i..j][k] == s[i + 1..j + 1][k];
  }

  /** The subsequence of `devices` the loopback generator yields. */
  function LoopbackDevices(devices: seq<DeviceInfo>): (r: seq<DeviceInfo>)
    ensures forall k :: 0 <= k < |r| ==> r[k].isLoopbackDevice && r[k] in devices
    ensures forall d :: d in devices && d.isLoopbackDevice ==> d in r
  {
    if |devices| == 0 then []
    else
      var n := |devices| - 1;
      LoopbackDevices(devices[..n]) + (if devices[n].isLoopbackDevice then [devices[n]] else [])
  }

  /**
   * The generator yields the loopback devices in enumeration order: its
   * `m`-th device sits at some position `p` of the enumeration, and the
   * loopback devices before `p` are exactly the `m` it yielded before.
   */
  lemma {:induction false} LoopbackDevicesInOrder(devices: seq<DeviceInfo>, m: nat) returns (p: nat)
    requires m < |LoopbackDevices(devices)|
    ensures p < |devices| && devices[p] == LoopbackDevices(devices)[m]
    ensures LoopbackDevices(devices[..p]) == LoopbackDevices(devices)[..m]
  {
    var n := |devices| - 1;
    var front := LoopbackDevices(devices[..n]);
    var ls := LoopbackDevices(devices);
    assert ls == front + (if devices[n].isLoopbackDevice then [devices[n]] else []);
    if m < |front| {
      p := LoopbackDevicesInOrder(devices[..n], m);
      assert devices[..n][..p] == devices[..p];
      assert ls[..m] == front[..m];
      assert ls[m] == front[m];
    } else {
      p := n;
      assert ls[..m] == front;
    }
  }

  /** The position of the first device in `ls`, from `k` on, whose name contains `name`. */
  function FirstMatchFrom(ls: seq<DeviceInfo>, name: string, k: nat): (r: Option<nat>)
    ensures r.Some? ==> k <= r.value < |ls|
    decreases |ls| - k
  {
    if k >= |ls| then None
    else if Contains(ls[k].name, name) then Some(k)
    else FirstMatchFrom(ls, name, k + 1)
  }

  /** `FirstMatchFrom` finds the first match at or after `k`, and only that. */
  lemma {:induction false} FirstMatchFromSpec(ls: seq<DeviceInfo>, name: string, k: nat)
    requires k <= |ls|
    ensures match FirstMatchFrom(ls, name, k)
      case None => forall j :: k <= j < |ls| ==> !IsSubstring(name, ls[j].name)
      case Some(m) =>
        && k <= m < |ls| && IsSubstring(name, ls[m].name)
        && forall j :: k <= j < m ==> !IsSubstring(name, ls[j].name)
    decreases |ls| - k
  {
    if k < |ls| {
      ContainsIsSubstring(ls[k].name, name);
      FirstMatchFromSpec(ls, name, k + 1);
    }
  }

  /** The device the capture stream is opened on: `find_loopback_device`'s result. */
  function LoopbackFor(devices: seq<DeviceInfo>, speakers: DeviceInfo): Result<DeviceInfo, LoopbackError> {
    if speakers.isLoopbackDevice then Success(speakers)
    else
      var ls := LoopbackDevices(devices);
      match FirstMatchFrom(ls, speakers.name, 0)
      case None => Failure(LoopbackNotFound)
      case Some(m) => Success(ls[m])
  }

  /** A device that is already a loopback device is kept as it is. */
  lemma LoopbackForKeepsLoopback(devices: seq<DeviceInfo>, speakers: DeviceInfo)
    requires speakers.isLoopbackDevice
    ensures LoopbackFor(devices, speakers) == Success(speakers)
  {
  }

  /**
   * For a playback device the result is the first loopback device, in
   * enumeration order, whose name contains the playback device's name; if
   * there is none the search fails, and the playback device itself is
   * never the result.
   */
  lemma LoopbackForFirstMatch(devices: seq<DeviceInfo>, speakers: DeviceInfo)
    requires !speakers.isLoopbackDevice
    ensures var ls := LoopbackDevices(devices);
      match LoopbackFor(devices, speakers)
      case Failure(_) => forall j :: 0 <= j < |ls| ==> !IsSubstring(speakers.name, ls[j].name)
      case Success(d) =>
        && d.isLoopbackDevice && d != speakers
        && exists m :: 0 <= m < |ls| && d == ls[m] && IsSubstring(speakers.name, ls[m].name)
            && forall j :: 0 <= j < m ==> !IsSubstring(speakers.name, ls[j].name)
  {
    var ls := LoopbackDevices(devices);
    FirstMatchFromSpec(ls, speakers.name, 0);
    match FirstMatchFrom(ls, speakers.name, 0)
    case None =>
    case Some(m) => assert ls[m].isLoopbackDevice;
  }

  /**
   * The same, stated over the enumeration itself: the result is a loopback
   * device at some position `p` whose name contains the playback device's
   * name, and no loopback device before `p` has that property.
   */
  lemma LoopbackForFirstInEnumeration(devices: seq<DeviceInfo>, speakers: DeviceInfo)
    requires !speakers.isLoopbackDevice
    requires LoopbackFor(devices, speakers).Success?
    ensures exists p :: (0 <= p < |devices| && devices[p] == LoopbackFor(devices, speakers).value
                         && devices[p].isLoopbackDevice && IsSubstring(speakers.name, devices[p].name)
                         && forall q :: 0 <= q < p && devices[q].isLoopbackDevice ==> !IsSubstring(speakers.name, devices[q].name))
  {
    var ls := LoopbackDevices(devices);
    FirstMatchFromSpec(ls, speakers.name, 0);
    var m := FirstMatchFrom(ls, speakers.name, 0).value;
    assert LoopbackFor(devices, speakers).value == ls[m];
    var p := LoopbackDevicesInOrder(devices, m);
    forall q | 0 <= q < p && devices[q].isLoopbackDevice
      ensures !IsSubstring(speakers.name, devices[q].name)
    {
      assert devices[..p][q] == devices[q];
      assert devices[q] in LoopbackDevices(devices[..p]);
      var j :| 0 <= j < m && ls[..m][j] == devices[q];
      assert ls[j] == devices[q];
    }
  }

  /** No loopback device anywhere in the enumeration matches when the search fails. */
  lemma LoopbackForFailsOnlyWithoutMatch(devices: seq<DeviceInfo>, speakers: DeviceInfo)
    requires LoopbackFor(devices, speakers).Failure?
    ensures !speakers.isLoopbackDevice
    ensures forall q :: 0 <= q < |devices| && devices[q].isLoopbackDevice ==> !IsSubstring(speakers.name, devices[q].name)
  {
    var ls := LoopbackDevices(devices);
    FirstMatchFromSpec(ls, speakers.name, 0);
    forall q | 0 <= q < |devices| && devices[q].isLoopbackDevice
      ensures !IsSubstring(speakers.name, devices[q].name)
    {
      assert devices[q] in ls;
    }
  }

  /** The loop of `find_loopback_device`, returning at the first match. */
  method FindLoopbackDevice(devices: seq<DeviceInfo>, speakers: DeviceInfo)
    returns (r: Result<DeviceInfo, LoopbackError>)
    ensures r == LoopbackFor(devices, speakers)
  {
    if !speakers.isLoopbackDevice {
      var loopbacks := LoopbackDevices(devices);
      for k := 0 to |loopbacks|
        invariant FirstMatchFrom(loopbacks, speakers.name, k) == FirstMatchFrom(loopbacks, speakers.name, 0)
      {
        if Contains(loopbacks[k].name, speakers.name) {
          return Success(loopbacks[k]);
        }
      }
      return Failure(LoopbackNotFound);
    }
    return Success(speakers);
  }
}
