/**
 * What UsbGadgetManager.kt reads back from configfs: whether the UDC is
 * released, the `GadgetStatus` record, the active function names, and the
 * choice of UDC controller from `/sys/class/udc`.
 */
module GadgetStatus {
  import opened Text
  import opened Wrappers

  /** The released test applied to the trimmed UDC content by `softUnbind` and
      `checkUdcReleased`. */
  predicate UdcReleased(content: Str) {
    content == [] || content == "none" || IsBlank(content)
  }

  /** On a trimmed read the blank test adds nothing: released means empty or
      "none". */
  lemma UdcReleasedMeaning(raw: Str)
    ensures UdcReleased(Trim(raw)) <==> Trim(raw) == [] || Trim(raw) == "none"
  {
    TrimmedBlankIsEmpty(raw);
  }

  /** `GadgetStatus` of the source. */
  datatype Status = Status(udcController: Str, activeFunctions: seq<Str>, isBound: bool)

  /** The clean-up `when` applied to each function name. */
  function NormalizeFunction(name: Str): (r: Str)
    ensures StartsWith(name, "uac2") ==> r == "uac2"
    ensures !StartsWith(name, "uac2") && StartsWith(name, "ffs.") ==> "ffs." + r == name
    ensures !StartsWith(name, "uac2") && !StartsWith(name, "ffs.") ==> r == name
  {
    if StartsWith(name, "uac2") then "uac2"
    else if StartsWith(name, "ffs.") then RemovePrefix(name, "ffs.")
    else name
  }

  /** `.map { it.trim() }.map { normalize }` over the kept lines. */
  function NormalizeAll(names: seq<Str>): (r: seq<Str>)
    ensures |r| == |names| && forall k :: 0 <= k < |names| ==> r[k] == NormalizeFunction(Trim(names[k]))
  {
    if names == [] then [] else [NormalizeFunction(Trim(names[0]))] + NormalizeAll(names[1..])
  }

  /** Each name kept from `lines` comes from a non-blank line. */
  lemma NormalizedFromNonBlank(lines: seq<Str>)
    ensures var r := NormalizeAll(FilterNonBlank(lines));
      forall k :: 0 <= k < |r| ==>
        exists line :: line in lines && !IsBlank(line) && r[k] == NormalizeFunction(Trim(line))
  {
    var kept := FilterNonBlank(lines);
    var r := NormalizeAll(kept);
    forall k | 0 <= k < |r|
      ensures exists line :: line in lines && !IsBlank(line) && r[k] == NormalizeFunction(Trim(line))
    {
      assert kept[k] in lines && !IsBlank(kept[k]) && r[k] == NormalizeFunction(Trim(kept[k]));
    }
  }

  /** Every non-blank line of `lines` gives a kept name. */
  lemma NonBlankNormalized(lines: seq<Str>)
    ensures var r := NormalizeAll(FilterNonBlank(lines));
      forall line :: line in lines && !IsBlank(line) ==> NormalizeFunction(Trim(line)) in r
  {
    var kept := FilterNonBlank(lines);
    var r := NormalizeAll(kept);
    forall line | line in lines && !IsBlank(line) ensures NormalizeFunction(Trim(line)) in r {
      FilterNonBlankKeeps(lines, line);
      var i :| 0 <= i < |kept| && kept[i] == line;
      assert r[i] == NormalizeFunction(Trim(line));
    }
  }

  /** The function names parsed from the `readlink` loop's output. */
  function ActiveFunctions(output: Str): (r: seq<Str>)
    ensures Trim(output) == [] ==> r == []
    ensures forall k :: 0 <= k < |r| ==>
      exists line :: line in SplitLines(Trim(output)) && !IsBlank(line) && r[k] == NormalizeFunction(Trim(line))
    ensures forall line :: line in SplitLines(Trim(output)) && !IsBlank(line) ==> NormalizeFunction(Trim(line)) in r
  {
    var t := Trim(output);
    if t == [] then []
    else
      NormalizedFromNonBlank(SplitLines(t));
      NonBlankNormalized(SplitLines(t));
      NormalizeAll(FilterNonBlank(SplitLines(t)))
  }

  /** Normalisation is element-wise and keeps order: the names of two
      consecutive groups of lines are the names of each group, one after the
      other. */
  lemma {:induction false} NormalizeAllAppend(a: seq<Str>, b: seq<Str>)
    ensures NormalizeAll(a + b) == NormalizeAll(a) + NormalizeAll(b)
  {
    if a == [] {
      assert a + b == b;
    } else {
      assert (a + b)[1..] == a[1..] + b;
      NormalizeAllAppend(a[1..], b);
    }
  }

  /** What the normalisation does to the names this gadget links. */
  lemma NormalizeExamples()
    ensures NormalizeFunction("uac2.0") == "uac2"
    ensures NormalizeFunction("ffs.adb") == "adb"
    ensures NormalizeFunction("mtp.gs0") == "mtp.gs0"
  {
    assert StartsWith("uac2.0", "uac2");
    assert !StartsWith("ffs.adb", "uac2") && StartsWith("ffs.adb", "ffs.");
    assert "mtp.gs0"[..4][0] != "uac2"[0] && "mtp.gs0"[..4][0] != "ffs."[0];
  }

  /** `getGadgetStatus()`; `None` stands for a read that threw, which yields
      the default record of the exception handler. */
  function GetGadgetStatus(udcOutput: Option<Str>, functionsOutput: Option<Str>): (s: Status)
    ensures udcOutput.None? || functionsOutput.None? ==> s == Status("--", [], false)
    ensures udcOutput.Some? && functionsOutput.Some? ==>
      (s.isBound <==> Trim(udcOutput.value) != [] && Trim(udcOutput.value) != "none") &&
      s.activeFunctions == ActiveFunctions(functionsOutput.value)
    ensures s.isBound ==> udcOutput.Some? && s.udcController == Trim(udcOutput.value)
    ensures !s.isBound ==> s.udcController == "--"
  {
    if udcOutput.None? || functionsOutput.None? then Status("--", [], false)
    else
      var udc := Trim(udcOutput.value);
      var isBound := udc != [] && udc != "none";
      Status(if isBound then udc else "--", ActiveFunctions(functionsOutput.value), isBound)
  }

  /** Bound and released are complementary readings of the same UDC content. */
  lemma BoundIffNotReleased(udcRaw: Str, functionsRaw: Str)
    ensures GetGadgetStatus(Some(udcRaw), Some(functionsRaw)).isBound <==> !UdcReleased(Trim(udcRaw))
  {
    UdcReleasedMeaning(udcRaw);
  }

  /** `getAvailableUdcControllers()` on the listing output. */
  function AvailableControllers(output: Str): (r: seq<Str>)
    ensures Trim(output) == [] ==> r == []
    ensures forall k :: 0 <= k < |r| ==> !IsBlank(r[k]) && r[k] in SplitLines(Trim(output))
    ensures forall line :: line in SplitLines(Trim(output)) && !IsBlank(line) ==> line in r
  {
    var t := Trim(output);
    if t == [] then []
    else
      var r := FilterNonBlank(SplitLines(t));
      forall line | line in SplitLines(t) && !IsBlank(line) ensures line in r {
        FilterNonBlankKeeps(SplitLines(t), line);
      }
      r
  }

  /** A controller name the source treats as a dummy. */
  predicate IsDummy(name: Str) {
    ContainsIgnoreCase(name, "dummy")
  }

  /** The position `firstOrNull { !it.contains("dummy", ignoreCase = true) }`
      stops at: the first non-dummy entry, or `|cs|` when there is none. */
  function FirstNonDummy(cs: seq<Str>): (i: nat)
    ensures i <= |cs|
    ensures i < |cs| ==> !IsDummy(cs[i])
    ensures forall j :: 0 <= j < i ==> IsDummy(cs[j])
  {
    if cs == [] then 0
    else if !IsDummy(cs[0]) then 0
    else 1 + FirstNonDummy(cs[1..])
  }

  /** `getPreferredUdcController()` over the listed controllers: no controller
      iff none is listed; otherwise the first non-dummy one, or the first one
      when every one is a dummy. */
  function PreferredController(cs: seq<Str>): (r: Option<Str>)
    ensures r.None? <==> cs == []
    ensures r.Some? ==> r.value in cs
    ensures (exists i :: 0 <= i < |cs| && !IsDummy(cs[i])) ==>
      exists i :: 0 <= i < |cs| && r == Some(cs[i]) && !IsDummy(cs[i]) &&
                  forall j :: 0 <= j < i ==> IsDummy(cs[j])
    ensures cs != [] && (forall i :: 0 <= i < |cs| ==> IsDummy(cs[i])) ==> r == Some(cs[0])
  {
    if cs == [] then None
    else
      var i := FirstNonDummy(cs);
      if i < |cs| then Some(cs[i]) else Some(cs[0])
  }

  /** The controller chosen from a listing output. */
  function PreferredUdcController(listing: Str): (r: Option<Str>)
    ensures r.None? <==> AvailableControllers(listing) == []
    ensures r.Some? ==> r.value in AvailableControllers(listing) && !IsBlank(r.value)
  {
    PreferredController(AvailableControllers(listing))
  }
}
