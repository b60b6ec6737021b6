/**
 * The USB identity the gadget presents for a sample rate (product ID,
 * bcdDevice, serial number), and the choice of the identity strings backed up
 * before the gadget overwrites them (UsbGadgetManager.kt).
 */
module GadgetIdentity {
  import opened Text

  const VENDOR_ID: Str := "0x1d6b"
  const MANUFACTURER: Str := "FloppyKernel Project"
  const PRODUCT: Str := "USB Audio Bridge"
  const OTHER_RATE_PID: Str := "0x010B"
  const OTHER_RATE_BCD: Str := "0x0200"

  /** The rates with an identity of their own. */
  const KNOWN_RATES: seq<int> := [48000, 44100, 32000, 22050, 88200, 96000, 192000]

  /** `getPidForRate`. */
  function PidForRate(rate: int): (pid: Str)
    ensures rate !in KNOWN_RATES ==> pid == OTHER_RATE_PID
    ensures |pid| == 6 && pid[..4] == "0x01"
  {
    match rate
    case 48000 => "0x0104"
    case 44100 => "0x0105"
    case 32000 => "0x0106"
    case 22050 => "0x0107"
    case 88200 => "0x0108"
    case 96000 => "0x0109"
    case 192000 => "0x010A"
    case _ => OTHER_RATE_PID
  }

  /** `getBcdDeviceForRate`. */
  function BcdDeviceForRate(rate: int): (bcd: Str)
    ensures rate !in KNOWN_RATES ==> bcd == OTHER_RATE_BCD
    ensures |bcd| == 6 && bcd[..3] == "0x0"
  {
    match rate
    case 44100 => "0x0244"
    case 48000 => "0x0248"
    case 88200 => "0x0288"
    case 96000 => "0x0296"
    case 192000 => "0x0292"
    case 32000 => "0x0232"
    case 22050 => "0x0222"
    case _ => OTHER_RATE_BCD
  }

  /** The known rates get pairwise different product IDs, none of them the
      catch-all one, so the host sees a different device for each rate. */
  lemma PidInjective(a: int, b: int)
    requires a in KNOWN_RATES && b in KNOWN_RATES
    ensures PidForRate(a) != OTHER_RATE_PID
    ensures PidForRate(a) == PidForRate(b) ==> a == b
  {
    var pa, pb := PidForRate(a), PidForRate(b);
    assert pa[5] != OTHER_RATE_PID[5];
    if pa == pb {
      assert pa[5] == pb[5];
    }
  }

  /** The same for bcdDevice. */
  lemma BcdInjective(a: int, b: int)
    requires a in KNOWN_RATES && b in KNOWN_RATES
    ensures BcdDeviceForRate(a) != OTHER_RATE_BCD
    ensures BcdDeviceForRate(a) == BcdDeviceForRate(b) ==> a == b
  {
    var ba, bb := BcdDeviceForRate(a), BcdDeviceForRate(b);
    assert ba[4] != OTHER_RATE_BCD[4] || ba[5] != OTHER_RATE_BCD[5];
    if ba == bb {
      assert ba[4] == bb[4] && ba[5] == bb[5];
    }
  }

  /** `getSerialNumberForRate`: "UAM-SR<rate>-<device serial>". */
  function SerialForRate(rate: int, deviceSerial: Str): (serial: Str)
  {
    "UAM-SR" + DecimalString(rate) + "-" + deviceSerial
  }

  /** In "a-c" with no '-' in `a`, the first '-' is the one after `a`. */
  lemma FirstDashAfter(a: Str, c: Str)
    requires forall i :: 0 <= i < |a| ==> a[i] != '-'
    ensures IndexOfFrom(a + "-" + c, '-', 0) == |a|
  {
    var s := a + "-" + c;
    assert s[|a|] == '-';
    assert forall i :: 0 <= i < |a| ==> s[i] == a[i];
  }

  /** Splitting "a-c" at its first '-' recovers `a` and `c`. */
  lemma SplitAtDash(a: Str, c: Str, b: Str, d: Str)
    requires forall i :: 0 <= i < |a| ==> a[i] != '-'
    requires forall i :: 0 <= i < |b| ==> b[i] != '-'
    requires a + "-" + c == b + "-" + d
    ensures a == b && c == d
  {
    FirstDashAfter(a, c);
    FirstDashAfter(b, d);
    var s := a + "-" + c;
    assert a == s[..|a|] == b;
    assert c == s[|a| + 1..] == d;
  }

  /** The serial determines both the rate and the device serial. */
  lemma SerialInjective(r1: int, d1: Str, r2: int, d2: Str)
    requires SerialForRate(r1, d1) == SerialForRate(r2, d2)
    ensures r1 == r2 && d1 == d2
  {
    var x1, x2 := DecimalString(r1), DecimalString(r2);
    var t := SerialForRate(r1, d1)[6..];
    assert t == x1 + "-" + d1;
    assert t == x2 + "-" + d2;
    if t[0] == '-' {
      assert x1[0] == '-' && x2[0] == '-';
      var a, b := x1[1..], x2[1..];
      assert t[1..] == a + "-" + d1;
      assert t[1..] == b + "-" + d2;
      SplitAtDash(a, d1, b, d2);
      assert x1 == [x1[0]] + a && x2 == [x2[0]] + b;
    } else {
      SplitAtDash(x1, d1, x2, d2);
    }
    DecimalInjective(r1, r2);
  }

  /** The three identity strings under `strings/0x409`. */
  datatype Identity = Identity(manufacturer: Str, product: Str, serial: Str)

  /** The strings found in configfs are the device's own only when the product
      is set and neither string is this gadget's. */
  predicate UsableAsBackup(current: Identity) {
    current.product != [] && !Contains(current.product, "Audio Bridge") &&
    !Contains(current.manufacturer, "FloppyKernel")
  }

  /** The identity recorded as the original one: the configfs strings when
      usable, otherwise the product model, brand and serial properties. */
  function ChooseBackup(current: Identity, props: Identity): (r: Identity)
    ensures r == current || r == props
    ensures r != props ==> UsableAsBackup(r)
    ensures r.product != [] || r == props
  {
    if UsableAsBackup(current) then current else props
  }

  /** The bridge's own strings are never taken for the original identity, so
      disabling cannot "restore" the bridge identity. */
  lemma OwnIdentityNeverBackedUp(current: Identity, props: Identity)
    requires current.product == PRODUCT || current.manufacturer == MANUFACTURER
    ensures ChooseBackup(current, props) == props
  {
    if current.product == PRODUCT {
      assert OccursAt(PRODUCT, "Audio Bridge", 4);
      ContainsIffOccurs(PRODUCT, "Audio Bridge");
    } else {
      assert OccursAt(MANUFACTURER, "FloppyKernel", 0);
      ContainsIffOccurs(MANUFACTURER, "FloppyKernel");
    }
  }
}
