/**
 * `PlaybackDeviceHelper.getCurrentPlaybackDevice`: which kind of output the
 * phone plays to, from the audio manager's routing flags and, failing those,
 * from its list of output devices. Device types are the `AudioDeviceInfo.TYPE_*`
 * integers of the Android SDK.
 */
module PlaybackDevice {
  import opened Wrappers

  datatype PlaybackDeviceType = Speaker | Headphones | Bluetooth | Unknown

  /** `isBluetoothA2dpOn`, `isBluetoothScoOn`, `isWiredHeadsetOn`, `isSpeakerphoneOn`. */
  datatype RoutingFlags = RoutingFlags(bluetoothA2dpOn: bool, bluetoothScoOn: bool,
                                       wiredHeadsetOn: bool, speakerphoneOn: bool)

  const TYPE_BUILTIN_SPEAKER := 2
  const TYPE_WIRED_HEADSET := 3
  const TYPE_WIRED_HEADPHONES := 4
  const TYPE_BLUETOOTH_SCO := 7
  const TYPE_BLUETOOTH_A2DP := 8

  /** The `when (device.type)` of the device scan; `None` for the types it
      passes over. */
  function ClassifyType(t: int): (r: Option<PlaybackDeviceType>)
    ensures r.None? <==> t !in {TYPE_BUILTIN_SPEAKER, TYPE_WIRED_HEADSET, TYPE_WIRED_HEADPHONES,
                                TYPE_BLUETOOTH_SCO, TYPE_BLUETOOTH_A2DP}
    ensures r != Some(Unknown)
  {
    if t == TYPE_BLUETOOTH_A2DP || t == TYPE_BLUETOOTH_SCO then Some(Bluetooth)
    else if t == TYPE_WIRED_HEADPHONES || t == TYPE_WIRED_HEADSET then Some(Headphones)
    else if t == TYPE_BUILTIN_SPEAKER then Some(Speaker)
    else None
  }

  /** The device scan: the class of the first output, in list order, whose
      type is recognised, or `Unknown` when none is. */
  function ScanOutputs(types: seq<int>): (r: PlaybackDeviceType)
    ensures r == Unknown <==> forall i :: 0 <= i < |types| ==> ClassifyType(types[i]).None?
    ensures r != Unknown ==>
      exists i :: 0 <= i < |types| && ClassifyType(types[i]) == Some(r) &&
                  forall j :: 0 <= j < i ==> ClassifyType(types[j]).None?
  {
    if types == [] then Unknown
    else if ClassifyType(types[0]).Some? then ClassifyType(types[0]).value
    else
      var r := ScanOutputs(types[1..]);
      assert forall i :: 1 <= i < |types| ==> types[i] == types[1..][i - 1];
      FirstMatchShifts(types, r);
      r
  }

  /** A first match in the tail, behind an unrecognised head, is a first
      match of the whole list. */
  lemma FirstMatchShifts(types: seq<int>, r: PlaybackDeviceType)
    requires types != [] && ClassifyType(types[0]).None?
    requires r != Unknown ==>
      exists i :: 0 <= i < |types[1..]| && ClassifyType(types[1..][i]) == Some(r) &&
                  forall j :: 0 <= j < i ==> ClassifyType(types[1..][j]).None?
    ensures r != Unknown ==>
      exists i :: 0 <= i < |types| && ClassifyType(types[i]) == Some(r) &&
                  forall j :: 0 <= j < i ==> ClassifyType(types[j]).None?
  {
    if r != Unknown {
      var i :| 0 <= i < |types[1..]| && ClassifyType(types[1..][i]) == Some(r) &&
               forall j :: 0 <= j < i ==> ClassifyType(types[1..][j]).None?;
      assert types[i + 1] == types[1..][i];
      assert forall j :: 1 <= j < i + 1 ==> types[j] == types[1..][j - 1];
    }
  }

  /** `getCurrentPlaybackDevice()` on the flags and the output device types:
      Bluetooth first, then the wired headset, then the speakerphone, and only
      then the scan. */
  function CurrentPlaybackDevice(f: RoutingFlags, outputs: seq<int>): (r: PlaybackDeviceType)
    ensures f.bluetoothA2dpOn || f.bluetoothScoOn ==> r == Bluetooth
    ensures !f.bluetoothA2dpOn && !f.bluetoothScoOn && f.wiredHeadsetOn ==> r == Headphones
    ensures !f.bluetoothA2dpOn && !f.bluetoothScoOn && !f.wiredHeadsetOn && f.speakerphoneOn ==> r == Speaker
    ensures !f.bluetoothA2dpOn && !f.bluetoothScoOn && !f.wiredHeadsetOn && !f.speakerphoneOn ==>
      r == ScanOutputs(outputs)
  {
    if f.bluetoothA2dpOn || f.bluetoothScoOn then Bluetooth
    else if f.wiredHeadsetOn then Headphones
    else if f.speakerphoneOn then Speaker
    else ScanOutputs(outputs)
  }

  /** The answer is `Unknown` exactly when no flag is set and no output has a
      recognised type. */
  lemma UnknownIff(f: RoutingFlags, outputs: seq<int>)
    ensures CurrentPlaybackDevice(f, outputs) == Unknown <==>
      !f.bluetoothA2dpOn && !f.bluetoothScoOn && !f.wiredHeadsetOn && !f.speakerphoneOn &&
      forall i :: 0 <= i < |outputs| ==> ClassifyType(outputs[i]).None?
  {
  }

  /** A list has at most one first recognised position. */
  lemma FirstMatchUnique(types: seq<int>, i: nat, k: nat)
    requires i < |types| && ClassifyType(types[i]).Some? && forall j :: 0 <= j < i ==> ClassifyType(types[j]).None?
    requires k < |types| && ClassifyType(types[k]).Some? && forall j :: 0 <= j < k ==> ClassifyType(types[j]).None?
    ensures i == k
  {
  }

  /** The scan answers with the first recognised output's class. */
  lemma ScanIsFirstMatch(types: seq<int>, i: nat)
    requires i < |types| && ClassifyType(types[i]).Some?
    requires forall j :: 0 <= j < i ==> ClassifyType(types[j]).None?
    ensures ScanOutputs(types) == ClassifyType(types[i]).value
  {
    var r := ScanOutputs(types);
    var k :| 0 <= k < |types| && ClassifyType(types[k]) == Some(r) && forall j :: 0 <= j < k ==> ClassifyType(types[j]).None?;
    FirstMatchUnique(types, i, k);
  }

  /** Outputs after the first recognised one never matter. */
  lemma ScanStopsAtFirstMatch(types: seq<int>, i: nat, later: seq<int>)
    requires i < |types| && ClassifyType(types[i]).Some?
    requires forall j :: 0 <= j < i ==> ClassifyType(types[j]).None?
    ensures ScanOutputs(types[..i + 1] + later) == ScanOutputs(types) == ClassifyType(types[i]).value
  {
    var t := types[..i + 1] + later;
    assert forall j :: 0 <= j <= i ==> t[j] == types[j];
    ScanIsFirstMatch(t, i);
    ScanIsFirstMatch(types, i);
  }
}
