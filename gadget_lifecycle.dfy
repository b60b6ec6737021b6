/**
 * Enabling and disabling the UAC2 gadget (UsbGadgetManager.kt:
 * `enableGadgetInternal`, `disableGadgetInternal` and the helpers they call
 * for ADB, the USB HAL service and the identity backup). Each operation is a
 * method on the shell and the settings repository, proved equal to a step
 * function over the shell's world and the preference map; the decisions the
 * source makes (abort or fall back, one or two function links, backup once,
 * restore once) are proved about the step functions.
 */
module GadgetLifecycle {
  import opened Text
  import opened Wrappers
  import opened RootShell
  import opened GadgetStatus
  import opened GadgetIdentity
  import opened UdcControl
  import opened SePolicy
  import opened Settings

  const ADB_CONFIG_QUERY: Str := "getprop sys.usb.config"
  const FFS_ADB_PROBE: Str := "test -d /config/usb_gadget/g1/functions/ffs.adb"
  const USB_STATE_UAC2: Str := "setprop sys.usb.state uac2"
  const RESTORE_ADB: Str := "setprop sys.usb.config adb"
  const UNKNOWN_SERIAL: Str := "UNKNOWN"

  /** The USB HAL services `findRunningUsbHalService` looks for, in order. */
  const HAL_CANDIDATES: seq<Str> := [
    "vendor.usb-gadget-hal-1-0",
    "android.hardware.usb.gadget-service.samsung",
    "android.hardware.usb.gadget-service.mediatek",
    "android.hardware.usb-service.mediatek",
    "vendor.usb-hal-1-0",
    "vendor.usb-gadget-hal",
    "usbgadget-hal-1-0"
  ]

  const CAT_PRODUCT: Str := "cat /config/usb_gadget/g1/strings/0x409/product"
  const CAT_MANUFACTURER: Str := "cat /config/usb_gadget/g1/strings/0x409/manufacturer"
  const CAT_SERIAL: Str := "cat /config/usb_gadget/g1/strings/0x409/serialnumber"
  const PROP_MODEL: Str := "getprop ro.product.model"
  const PROP_BRAND: Str := "getprop ro.product.manufacturer"
  const PROP_SERIAL: Str := "getprop ro.serialno"

  function HalStatusQuery(name: Str): Str {
    "getprop init.svc." + name
  }

  function StopHalCommand(name: Str): Str {
    "setprop ctl.stop " + name
  }

  function StartHalCommand(name: Str): Str {
    "setprop ctl.start " + name
  }

  // ---- ADB ----

  /** `isAdbCurrentlyActive()`. */
  predicate AdbActive(env: Env) {
    Contains(env.query(ADB_CONFIG_QUERY), "adb")
  }

  /** What the keep-ADB check found, and the world after it. */
  datatype AdbProbe = AdbProbe(adbWasActive: bool, ffsAdbExists: bool, world: World)

  /** The keep-ADB check at the start of `enableGadgetInternal`: only with
      keepAdb, it asks whether ADB is active and probes for `ffs.adb`; ADB
      without `ffs.adb` counts as inactive. */
  function AdbProbeStep(env: Env, w: World, keepAdb: bool): (r: AdbProbe)
    ensures !keepAdb ==> r == AdbProbe(false, false, w)
    ensures keepAdb ==> r.world == AfterBatch(w, [FFS_ADB_PROBE]) && r.ffsAdbExists == BatchOk(env, w)
    ensures r.adbWasActive ==> r.ffsAdbExists && AdbActive(env)
  {
    if !keepAdb then AdbProbe(false, false, w)
    else
      var active := AdbActive(env);
      var probe := Run(env, w, [FFS_ADB_PROBE]);
      AdbProbe(active && probe.ok, probe.ok, probe.world)
  }

  /** `needPreserveAdb`. */
  function NeedPreserve(keepAdb: bool, probe: AdbProbe): bool {
    keepAdb && probe.adbWasActive && probe.ffsAdbExists
  }

  /** ADB needs preserving exactly when the user asked to keep it, ADB is
      active and the `ffs.adb` function exists. */
  lemma PreserveIffAllThree(env: Env, w: World, keepAdb: bool)
    ensures NeedPreserve(keepAdb, AdbProbeStep(env, w, keepAdb)) <==>
      keepAdb && AdbActive(env) && BatchOk(env, w)
  {
  }

  // ---- the USB HAL service ----

  /** The HAL service `name` is running or restarting. */
  predicate HalRunning(env: Env, name: Str) {
    env.query(HalStatusQuery(name)) == "running" || env.query(HalStatusQuery(name)) == "restarting"
  }

  /** The first of `candidates` that is running, if any. */
  function FirstRunningHal(env: Env, candidates: seq<Str>): (r: Option<Str>)
    ensures r.None? <==> forall i :: 0 <= i < |candidates| ==> !HalRunning(env, candidates[i])
    ensures r.Some? ==> exists i :: 0 <= i < |candidates| && r.value == candidates[i] &&
                                   HalRunning(env, candidates[i]) &&
                                   forall j :: 0 <= j < i ==> !HalRunning(env, candidates[j])
    decreases |candidates|
  {
    if candidates == [] then None
    else if HalRunning(env, candidates[0]) then Some(candidates[0])
    else
      var rest := FirstRunningHal(env, candidates[1..]);
      assert forall i :: 1 <= i < |candidates| ==> candidates[i] == candidates[1..][i - 1];
      if rest.Some? then
        var i :| 0 <= i < |candidates[1..]| && rest.value == candidates[1..][i] &&
          HalRunning(env, candidates[1..][i]) && forall j :: 0 <= j < i ==> !HalRunning(env, candidates[1..][j]);
        assert forall j :: 0 <= j < i + 1 ==> !HalRunning(env, candidates[j]) by {
          forall j | 0 <= j < i + 1 ensures !HalRunning(env, candidates[j]) {
            if j > 0 {
              assert candidates[j] == candidates[1..][j - 1];
            }
          }
        }
        assert rest.value == candidates[i + 1];
        rest
      else rest
  }

  /** The preference map, when a repository was passed. */
  datatype Stage = Stage(world: World, prefs: Option<Prefs>)

  /** `stopUsbHal`: stops the first running HAL service and, only when the
      stop command succeeded, remembers its name for `startUsbHal`. */
  function StopHalStep(env: Env, w: World, prefs: Option<Prefs>): (r: Stage)
    ensures prefs.None? ==> r.prefs.None?
    ensures r.prefs != prefs ==>
      (prefs.Some? && FirstRunningHal(env, HAL_CANDIDATES).Some? && BatchOk(env, w) &&
       r.prefs == Some(Put(prefs.value, StrKey(StoppedHalService), StrV(FirstRunningHal(env, HAL_CANDIDATES).value))))
    ensures FirstRunningHal(env, HAL_CANDIDATES).None? ==> r == Stage(w, prefs)
    ensures FirstRunningHal(env, HAL_CANDIDATES).Some? ==>
      r.world == AfterBatch(w, [StopHalCommand(FirstRunningHal(env, HAL_CANDIDATES).value)])
  {
    match FirstRunningHal(env, HAL_CANDIDATES)
    case None => Stage(w, prefs)
    case Some(name) =>
      var stop := Run(env, w, [StopHalCommand(name)]);
      if stop.ok && prefs.Some? then
        Stage(stop.world, Some(Put(prefs.value, StrKey(StoppedHalService), StrV(name))))
      else Stage(stop.world, prefs)
  }

  /** `startUsbHal`: restarts the remembered service and forgets it. */
  function StartHalStep(w: World, prefs: Option<Prefs>): (r: Stage)
    ensures prefs.None? ==> r == Stage(w, prefs)
    ensures prefs.Some? ==> r.prefs.Some? && GetStr(r.prefs.value, StoppedHalService).None?
    ensures prefs.Some? && GetStr(prefs.value, StoppedHalService).Some? ==>
      r.world == AfterBatch(w, [StartHalCommand(GetStr(prefs.value, StoppedHalService).value)])
  {
    if prefs.None? then Stage(w, prefs)
    else
      match GetStr(prefs.value, StoppedHalService)
      case None => Stage(w, prefs)
      case Some(name) =>
        RemoveThenRead(prefs.value, StrKey(StoppedHalService), StrKey(StoppedHalService));
        Stage(AfterBatch(w, [StartHalCommand(name)]), Some(Remove(prefs.value, StrKey(StoppedHalService))))
  }

  // ---- the identity backup ----

  /** A saved triple with all three strings present. */
  predicate Complete(t: (Option<Str>, Option<Str>, Option<Str>)) {
    t.0.Some? && t.1.Some? && t.2.Some?
  }

  /** The strings configfs holds now. */
  function CurrentIdentity(env: Env): Identity {
    Identity(env.query(CAT_MANUFACTURER), env.query(CAT_PRODUCT), env.query(CAT_SERIAL))
  }

  /** The strings the system properties give. */
  function PropsIdentity(env: Env): Identity {
    Identity(env.query(PROP_BRAND), env.query(PROP_MODEL), env.query(PROP_SERIAL))
  }

  /** The device serial the gadget serial is made from, and the preferences. */
  datatype Backup = Backup(deviceSerial: Str, prefs: Option<Prefs>)

  /** The identity backup of `enableGadgetInternal`: without a repository the
      serial is "UNKNOWN"; with a complete saved triple it is the saved serial
      and nothing is written; otherwise the chosen identity is saved and its
      serial used. */
  function BackupStep(env: Env, prefs: Option<Prefs>): (r: Backup)
    ensures prefs.None? ==> r == Backup(UNKNOWN_SERIAL, None)
    ensures prefs.Some? && Complete(OriginalIdentity(prefs.value)) ==>
      r == Backup(OriginalIdentity(prefs.value).2.value, prefs)
    ensures prefs.Some? && !Complete(OriginalIdentity(prefs.value)) ==>
      var chosen := ChooseBackup(CurrentIdentity(env), PropsIdentity(env));
      r == Backup(chosen.serial, Some(SaveIdentity(prefs.value, chosen.manufacturer, chosen.product, chosen.serial)))
  {
    match prefs
    case None => Backup(UNKNOWN_SERIAL, None)
    case Some(p) =>
      var saved := OriginalIdentity(p);
      if Complete(saved) then Backup(saved.2.value, prefs)
      else
        var chosen := ChooseBackup(CurrentIdentity(env), PropsIdentity(env));
        Backup(chosen.serial, Some(SaveIdentity(p, chosen.manufacturer, chosen.product, chosen.serial)))
  }

  /** A backup is taken at most once: after any backup step the saved triple
      is complete, and a second backup step changes nothing and uses the
      serial saved by the first. */
  lemma BackupOnce(env: Env, env': Env, p: Prefs)
    requires WellTyped(p)
    ensures var b := BackupStep(env, Some(p));
      b.prefs.Some? && Complete(OriginalIdentity(b.prefs.value)) &&
      BackupStep(env', b.prefs) == Backup(b.deviceSerial, b.prefs)
  {
    var chosen := ChooseBackup(CurrentIdentity(env), PropsIdentity(env));
    IdentityRoundTrip(p, chosen.manufacturer, chosen.product, chosen.serial, BufferSizeKey);
  }

  // ---- unbinding ----

  /** How the unbind part of `enableGadgetInternal` ended: whether enabling
      goes on, whether the first soft unbind worked, and the world after. */
  datatype Unbound = Unbound(proceed: bool, softOk: bool, world: World)

  /** A soft unbind; when it fails, abort if ADB must be preserved, else a
      hard unbind, aborting when that fails too; then a second soft unbind
      whose result is only logged. */
  function UnbindPhase(env: Env, w: World, needPreserve: bool): (r: Unbound)
    ensures r.softOk == SoftUnbindStep(env, w).ok
    ensures !r.softOk && needPreserve ==> r == Unbound(false, false, SoftUnbindStep(env, w).world)
    ensures !r.softOk && !needPreserve ==>
      (r.proceed <==> HardUnbindStep(env, SoftUnbindStep(env, w).world).ok)
    ensures !r.proceed && !needPreserve ==> r.world == HardUnbindStep(env, SoftUnbindStep(env, w).world).world
    ensures r.softOk ==> r.proceed
  {
    var soft := SoftUnbindStep(env, w);
    if !soft.ok && needPreserve then Unbound(false, false, soft.world)
    else
      var hard := if soft.ok then soft else HardUnbindStep(env, soft.world);
      if !hard.ok then Unbound(false, false, hard.world)
      else Unbound(true, soft.ok, SoftUnbindStep(env, hard.world).world)
  }

  /** Preserving ADB and failing the soft unbind aborts with only the soft
      unbind's direct UDC writes sent: no batch runs at all. */
  lemma PreserveAbortRunsNoBatch(env: Env, w: World)
    requires !SoftUnbindStep(env, w).ok
    ensures var r := UnbindPhase(env, w, true);
      !r.proceed && r.world.batchesRun == w.batchesRun &&
      r.world.log == w.log + [Exec(CHMOD_UDC), Exec(CLEAR_UDC), Exec(NONE_UDC)]
  {
    SoftUnbindMeaning(env, w);
  }

  // ---- the configfs commands ----

  const CLEAR_LINKS: Str := "rm -f " + GADGET_ROOT + "/configs/b.1/f* || true"
  const REMOVE_UAC2: Str := "rmdir " + GADGET_ROOT + "/functions/uac2.0 2>/dev/null || true"
  const CONFIG_AUDIO_ADB: Str := EchoQuoted("USB Audio + ADB", "/configs/b.1/strings/0x409/configuration")
  const CONFIG_AUDIO: Str := EchoQuoted("USB Audio", "/configs/b.1/strings/0x409/configuration")
  const LINK_F1: Str := Link("uac2.0", "f1")
  const LINK_F2: Str := Link("ffs.adb", "f2")

  /** `ln -s <function> <configuration slot>`. */
  function Link(function_: Str, slot: Str): (cmd: Str)
    ensures IsLink(cmd)
  {
    "ln -s " + GADGET_ROOT + "/functions/" + function_ + " " + GADGET_ROOT + "/configs/b.1/" + slot
  }

  /** `echo "<value>" > <gadget attribute>`. */
  function EchoQuoted(value: Str, attr: Str): (cmd: Str)
    ensures |cmd| > 0 && cmd[0] == 'e'
  {
    "echo \"" + value + "\" > " + GADGET_ROOT + attr
  }

  /** `echo <value> > <UAC2 function attribute>`. */
  function EchoUac2(value: Str, attr: Str): (cmd: Str)
    ensures |cmd| > 0 && cmd[0] == 'e'
  {
    "echo " + value + " > " + GADGET_ROOT + "/functions/uac2.0/" + attr
  }

  /** A function link. */
  predicate IsLink(cmd: Str) {
    StartsWith(cmd, "ln -s ")
  }

  /** A command that cannot be a link, by its first character. */
  predicate NotLinkLike(cmd: Str) {
    |cmd| > 0 && cmd[0] != 'l'
  }

  /** No command of `cmds` can be a link. */
  predicate NoneLinkLike(cmds: seq<Str>) {
    forall k :: 0 <= k < |cmds| ==> NotLinkLike(cmds[k])
  }

  /** Clearing the old links and UAC2 function, then the device identity. */
  function ResetAndIdentityCommands(rate: int): (cmds: seq<Str>)
    ensures |cmds| == 6 && NoneLinkLike(cmds)
  {
    [CLEAR_LINKS,
     REMOVE_UAC2,
     EchoQuoted(VENDOR_ID, "/idVendor"),
     EchoQuoted(PidForRate(rate), "/idProduct"),
     EchoQuoted(BcdDeviceForRate(rate), "/bcdDevice"),
     EchoQuoted("0x0200", "/bcdUSB")]
  }

  /** Creating the UAC2 function and setting its attributes. */
  function Uac2Commands(rate: int): (cmds: seq<Str>)
    ensures |cmds| == 8 && NoneLinkLike(cmds)
  {
    var r := DecimalString(rate);
    ["mkdir -p " + GADGET_ROOT + "/functions/uac2.0",
     EchoUac2(r, "p_srate"), EchoUac2("3", "p_chmask"), EchoUac2("2", "p_ssize"),
     EchoUac2(r, "c_srate"), EchoUac2("3", "c_chmask"), EchoUac2("2", "c_ssize"),
     "echo 2 > " + GADGET_ROOT + "/functions/uac2.0/req_number 2>/dev/null || true"]
  }

  /** The device strings, then the configuration's strings directory. */
  function StringsCommands(serial: Str): (cmds: seq<Str>)
    ensures |cmds| == 5 && NoneLinkLike(cmds)
  {
    ["mkdir -p " + GADGET_ROOT + "/strings/0x409",
     EchoQuoted(MANUFACTURER, "/strings/0x409/manufacturer"),
     EchoQuoted(PRODUCT, "/strings/0x409/product"),
     EchoQuoted(serial, "/strings/0x409/serialnumber"),
     "mkdir -p " + GADGET_ROOT + "/configs/b.1/strings/0x409"]
  }

  /** The commands before the links: reset, identity, UAC2 function, strings. */
  function BaseCommands(rate: int, serial: Str): (cmds: seq<Str>)
    ensures |cmds| == 19
    ensures forall k :: 0 <= k < 19 ==> NotLinkLike(cmds[k])
  {
    var a := ResetAndIdentityCommands(rate);
    var b := Uac2Commands(rate);
    var c := StringsCommands(serial);
    assert forall k :: 0 <= k < 6 ==> (a + b + c)[k] == a[k];
    assert forall k :: 6 <= k < 14 ==> (a + b + c)[k] == b[k - 6];
    assert forall k :: 14 <= k < 19 ==> (a + b + c)[k] == c[k - 14];
    a + b + c
  }

  /** `configCommands`: the base commands, then the configuration string and
      the links: two links (UAC2 as f1, ffs.adb as f2) under "USB Audio + ADB"
      when ADB is available, otherwise only f1 under "USB Audio". */
  function ConfigCommands(rate: int, serial: Str, adbAvailable: bool): seq<Str> {
    var tail := if adbAvailable then [CONFIG_AUDIO_ADB, LINK_F1, LINK_F2] else [CONFIG_AUDIO, LINK_F1];
    BaseCommands(rate, serial) + tail
  }

  /** The shape of the list: 22 commands with ADB, 21 without, the base
      commands first. */
  lemma ConfigCommandsShape(rate: int, serial: Str, adbAvailable: bool)
    ensures var cmds := ConfigCommands(rate, serial, adbAvailable);
      |cmds| == (if adbAvailable then 22 else 21) &&
      cmds[..19] == BaseCommands(rate, serial) &&
      (adbAvailable ==> cmds[19..] == [CONFIG_AUDIO_ADB, LINK_F1, LINK_F2]) &&
      (!adbAvailable ==> cmds[19..] == [CONFIG_AUDIO, LINK_F1])
  {
    var base := BaseCommands(rate, serial);
    var cmds := ConfigCommands(rate, serial, adbAvailable);
    assert cmds[..19] == base;
  }

  /** The links are exactly the commands after the configuration string: one
      link without ADB, two with it. */
  lemma LinksComeLast(rate: int, serial: Str, adbAvailable: bool)
    ensures var cmds := ConfigCommands(rate, serial, adbAvailable);
      forall k :: 0 <= k < |cmds| ==> (IsLink(cmds[k]) <==> k >= 20)
  {
    ConfigCommandsShape(rate, serial, adbAvailable);
    var cmds := ConfigCommands(rate, serial, adbAvailable);
    var base := BaseCommands(rate, serial);
    var tail := cmds[19..];
    forall k | 0 <= k < |cmds|
      ensures IsLink(cmds[k]) <==> k >= 20
    {
      if k < 19 {
        assert cmds[k] == cmds[..19][k];
        NotLinkLikeIsNotLink(base[k]);
      } else {
        assert cmds[k] == tail[k - 19];
        if k == 19 {
          NotLinkLikeIsNotLink(tail[0]);
        }
      }
    }
  }

  /** A command whose first character is not 'l' is no link. */
  lemma NotLinkLikeIsNotLink(cmd: Str)
    requires NotLinkLike(cmd)
    ensures !IsLink(cmd)
  {
    if |cmd| >= 6 {
      assert cmd[..6][0] == cmd[0];
    }
  }

  /** ffs.adb is linked iff ADB is available, and UAC2 always is. */
  lemma AdbLinkedIffAvailable(rate: int, serial: Str, adbAvailable: bool)
    ensures LINK_F1 in ConfigCommands(rate, serial, adbAvailable)
    ensures LINK_F2 in ConfigCommands(rate, serial, adbAvailable) <==> adbAvailable
  {
    ConfigCommandsShape(rate, serial, adbAvailable);
    var cmds := ConfigCommands(rate, serial, adbAvailable);
    LinksComeLast(rate, serial, adbAvailable);
    assert cmds[20] == cmds[19..][1] == LINK_F1;
    if adbAvailable {
      assert cmds[21] == cmds[19..][2] == LINK_F2;
    } else {
      forall k | 0 <= k < |cmds|
        ensures cmds[k] != LINK_F2
      {
        if k < 20 {
          assert !IsLink(cmds[k]);
        } else {
          assert cmds[k] == cmds[19..][k - 19] == LINK_F1;
          assert |LINK_F1| != |LINK_F2|;
        }
      }
    }
  }

  // ---- the rest of enabling ----

  /** `adbAvailable`: re-probed for `ffs.adb` only when the first soft unbind
      worked and ADB must be preserved. */
  function AdbAvailableStep(env: Env, w: World, softOk: bool, needPreserve: bool): (r: Step)
    ensures r.ok ==> softOk && needPreserve
    ensures softOk && needPreserve ==> r == Run(env, w, [FFS_ADB_PROBE])
    ensures !(softOk && needPreserve) ==> r == Step(false, w)
  {
    if softOk && needPreserve then Run(env, w, [FFS_ADB_PROBE]) else Step(false, w)
  }

  /** Binding, and on success marking the USB state as "uac2". */
  function BindPhase(env: Env, w: World): (r: Step)
    ensures r.ok <==> BindStep(env, w, 1).ok
    ensures r.ok ==> r.world == AfterBatch(BindStep(env, w, 1).world, [USB_STATE_UAC2])
    ensures !r.ok ==> r == BindStep(env, w, 1)
  {
    var bind := BindStep(env, w, 1);
    if bind.ok then Step(true, AfterBatch(bind.world, [USB_STATE_UAC2])) else bind
  }

  /** From the ADB re-probe to the end of enabling: the SELinux policy, the
      configfs batch (aborting when it fails) and the bind. */
  function ConfigureStep(env: Env, w: World, rate: int, serial: Str, softOk: bool, needPreserve: bool): (r: Step)
  {
    var avail := AdbAvailableStep(env, w, softOk, needPreserve);
    var policy := PolicyStep(env, avail.world);
    var config := Run(env, policy.world, ConfigCommands(rate, serial, avail.ok));
    if !config.ok then Step(false, config.world) else BindPhase(env, config.world)
  }

  /** The part of enabling before the unbind: the keep-ADB check, the HAL
      stop and the identity backup. */
  datatype Prelude = Prelude(needPreserve: bool, deviceSerial: Str, world: World, prefs: Option<Prefs>)

  function PreludeStep(env: Env, w: World, prefs: Option<Prefs>, keepAdb: bool): (r: Prelude)
  {
    var probe := AdbProbeStep(env, w, keepAdb);
    var hal := StopHalStep(env, probe.world, prefs);
    var backup := BackupStep(env, hal.prefs);
    Prelude(NeedPreserve(keepAdb, probe), backup.deviceSerial, hal.world, backup.prefs)
  }

  /** The result of enabling, and the world and preferences after it. */
  datatype Outcome = Outcome(ok: bool, world: World, prefs: Option<Prefs>)

  /** `enableGadgetInternal(sampleRate, settingsRepo, keepAdb)`. */
  function EnableStep(env: Env, w: World, prefs: Option<Prefs>, rate: int, keepAdb: bool): (r: Outcome)
  {
    var pre := PreludeStep(env, w, prefs, keepAdb);
    var c := UnbindAndConfigureStep(env, pre.world, rate, SerialForRate(rate, pre.deviceSerial), pre.needPreserve);
    Outcome(c.ok, c.world, pre.prefs)
  }

  /** After the prelude: the unbind phase, then the configuration when it
      may proceed. */
  function UnbindAndConfigureStep(env: Env, w: World, rate: int, serial: Str, needPreserve: bool): (r: Step)
  {
    var unbind := UnbindPhase(env, w, needPreserve);
    if !unbind.proceed then Step(false, unbind.world)
    else ConfigureStep(env, unbind.world, rate, serial, unbind.softOk, needPreserve)
  }

  /** With ADB to preserve, a failed soft unbind makes enabling fail before
      any configfs batch: after the prelude only the soft unbind's direct UDC
      writes are sent. */
  lemma PreserveFailureAbortsEarly(env: Env, w: World, prefs: Option<Prefs>, rate: int, keepAdb: bool)
    requires PreludeStep(env, w, prefs, keepAdb).needPreserve
    requires !SoftUnbindStep(env, PreludeStep(env, w, prefs, keepAdb).world).ok
    ensures var pre := PreludeStep(env, w, prefs, keepAdb);
      var r := EnableStep(env, w, prefs, rate, keepAdb);
      !r.ok && r.world.batchesRun == pre.world.batchesRun &&
      r.world.log == pre.world.log + [Exec(CHMOD_UDC), Exec(CLEAR_UDC), Exec(NONE_UDC)]
  {
    PreserveAbortRunsNoBatch(env, PreludeStep(env, w, prefs, keepAdb).world);
  }

  /** Without ADB to preserve, a failed soft unbind falls back to the hard
      unbind, and when that fails too enabling fails with nothing sent after
      it: the configfs batch never runs. */
  lemma HardFailureAborts(env: Env, w: World, prefs: Option<Prefs>, rate: int, keepAdb: bool)
    requires !PreludeStep(env, w, prefs, keepAdb).needPreserve
    requires var soft := SoftUnbindStep(env, PreludeStep(env, w, prefs, keepAdb).world);
      !soft.ok && !HardUnbindStep(env, soft.world).ok
    ensures var soft := SoftUnbindStep(env, PreludeStep(env, w, prefs, keepAdb).world);
      var r := EnableStep(env, w, prefs, rate, keepAdb);
      !r.ok && r.world == HardUnbindStep(env, soft.world).world
  {
  }

  /** The last command sent marks the USB state as "uac2". */
  predicate EndsWithUsbState(w: World) {
    |w.log| > 0 && w.log[|w.log| - 1] == Batch([USB_STATE_UAC2])
  }

  /** Enabling succeeds only after a successful bind, and then its last
      command marks the USB state as "uac2". */
  lemma EnableSuccessMeansBound(env: Env, w: World, prefs: Option<Prefs>, rate: int, keepAdb: bool)
    ensures var r := EnableStep(env, w, prefs, rate, keepAdb);
      r.ok ==> EndsWithUsbState(r.world)
  {
    var pre := PreludeStep(env, w, prefs, keepAdb);
    UnbindAndConfigureSuccessMeansBound(env, pre.world, rate, SerialForRate(rate, pre.deviceSerial), pre.needPreserve);
  }

  /** The same after the prelude: success comes only from the configuration
      step. */
  lemma UnbindAndConfigureSuccessMeansBound(env: Env, w: World, rate: int, serial: Str, needPreserve: bool)
    ensures var r := UnbindAndConfigureStep(env, w, rate, serial, needPreserve);
      r.ok ==> EndsWithUsbState(r.world)
  {
    var unbind := UnbindPhase(env, w, needPreserve);
    if unbind.proceed {
      ConfigureSuccessMeansBound(env, unbind.world, rate, serial, unbind.softOk, needPreserve);
    }
  }

  /** The configuration step succeeds only through the bind, whose success
      is followed by the USB state command. */
  lemma ConfigureSuccessMeansBound(env: Env, w: World, rate: int, serial: Str, softOk: bool, needPreserve: bool)
    ensures var r := ConfigureStep(env, w, rate, serial, softOk, needPreserve);
      r.ok ==> EndsWithUsbState(r.world)
  {
    var avail := AdbAvailableStep(env, w, softOk, needPreserve);
    var policy := PolicyStep(env, avail.world);
    var config := Run(env, policy.world, ConfigCommands(rate, serial, avail.ok));
    BindPhaseEndsWithState(env, config.world);
  }

  /** A successful bind phase ends with the USB state command. */
  lemma BindPhaseEndsWithState(env: Env, w: World)
    ensures var b := BindPhase(env, w);
      b.ok ==> EndsWithUsbState(b.world)
  {
    var b := BindPhase(env, w);
    if b.ok {
      var bound := BindStep(env, w, 1).world;
      assert b.world.log == bound.log + [Batch([USB_STATE_UAC2])];
    }
  }

  // ---- disabling ----

  function IdentityWrites(manufacturer: Str, product: Str, serial: Str): seq<Str> {
    [EchoQuoted(manufacturer, "/strings/0x409/manufacturer"),
     EchoQuoted(product, "/strings/0x409/product"),
     EchoQuoted(serial, "/strings/0x409/serialnumber")]
  }

  const CLEANUP: seq<Str> := [
    "rm -f /config/usb_gadget/g1/configs/b.1/f1 || true",
    "rm -f /config/usb_gadget/g1/configs/b.1/f2 || true",
    "rmdir /config/usb_gadget/g1/functions/uac2.0 2>/dev/null || true"
  ]

  /** The identity part of `disableGadgetInternal`: a complete saved triple is
      written back and then cleared; otherwise the three strings are blanked. */
  function RestoreIdentityStep(w: World, prefs: Option<Prefs>): (r: Stage)
    ensures prefs.Some? && Complete(OriginalIdentity(prefs.value)) ==>
      var t := OriginalIdentity(prefs.value);
      r == Stage(AfterBatch(w, IdentityWrites(t.0.value, t.1.value, t.2.value)), Some(ClearIdentity(prefs.value)))
    ensures !(prefs.Some? && Complete(OriginalIdentity(prefs.value))) ==>
      r == Stage(AfterBatch(w, IdentityWrites([], [], [])), prefs)
  {
    if prefs.Some? && Complete(OriginalIdentity(prefs.value)) then
      var t := OriginalIdentity(prefs.value);
      Stage(AfterBatch(w, IdentityWrites(t.0.value, t.1.value, t.2.value)), Some(ClearIdentity(prefs.value)))
    else Stage(AfterBatch(w, IdentityWrites([], [], [])), prefs)
  }

  /** The saved identity is restored exactly once: the first restore writes
      the saved strings, after which the triple is gone, so a second restore
      blanks the strings instead. */
  lemma RestoredExactlyOnce(w: World, w': World, p: Prefs)
    requires WellTyped(p) && Complete(OriginalIdentity(p))
    ensures var t := OriginalIdentity(p);
      var first := RestoreIdentityStep(w, Some(p));
      first.world.log == w.log + [Batch(IdentityWrites(t.0.value, t.1.value, t.2.value))] &&
      first.prefs.Some? && OriginalIdentity(first.prefs.value) == (None, None, None) &&
      RestoreIdentityStep(w', first.prefs) == Stage(AfterBatch(w', IdentityWrites([], [], [])), first.prefs)
  {
    IdentityRoundTrip(p, [], [], [], BufferSizeKey);
  }

  /** The MTK mode reset: the preferred controller, if any, gets mode 0. */
  function MtkResetStep(env: Env, w: World): (r: World)
    ensures r.udcReads == w.udcReads && r.listingsRead == w.listingsRead + 1
    ensures |w.log| <= |r.log| && r.log[..|w.log|] == w.log
  {
    var listed := AfterListing(w);
    match PreferredController(ControllersAt(env, w))
    case None => listed
    case Some(udc) => MtkStep(env, listed, "0", MtkModePaths(udc))
  }

  /** The unbind of `disableGadgetInternal`: a soft unbind, else a hard one;
      the identity is restored whichever of them worked. */
  function DisableUnbindStep(env: Env, w: World): World {
    var soft := SoftUnbindStep(env, w);
    if soft.ok then soft.world else HardUnbindStep(env, soft.world).world
  }

  /** `disableGadgetInternal`: unbind (soft, else hard), restore or blank the
      identity, remove the links and the UAC2 function, reset the MTK mode,
      hand USB back to the system with `sys.usb.config=adb` and restart the
      HAL service it stopped. */
  function DisableStep(env: Env, w: World, prefs: Option<Prefs>): (r: Stage)
    ensures prefs.None? ==> r.prefs.None?
    ensures prefs.Some? ==> r.prefs.Some? && GetStr(r.prefs.value, StoppedHalService).None?
  {
    var identity := RestoreIdentityStep(DisableUnbindStep(env, w), prefs);
    var cleaned := AfterBatch(identity.world, CLEANUP);
    var reset := MtkResetStep(env, cleaned);
    var handed := AfterBatch(reset, [RESTORE_ADB]);
    StartHalStep(handed, identity.prefs)
  }

  /** Disabling with a complete saved identity leaves no saved identity, so
      the next enable backs up afresh and the next disable blanks. */
  lemma DisableForgetsIdentity(env: Env, w: World, p: Prefs)
    requires WellTyped(p) && Complete(OriginalIdentity(p))
    ensures var r := DisableStep(env, w, Some(p));
      r.prefs.Some? && OriginalIdentity(r.prefs.value) == (None, None, None)
  {
    IdentityRoundTrip(p, [], [], [], StrKey(StoppedHalService));
    var cleared := ClearIdentity(p);
    RemoveThenRead(cleared, StrKey(StoppedHalService), StrKey(OrigManufacturer));
    RemoveThenRead(cleared, StrKey(StoppedHalService), StrKey(OrigProduct));
    RemoveThenRead(cleared, StrKey(StoppedHalService), StrKey(OrigSerial));
  }

  /** Stopping the HAL service touches only the service key: the preferences
      stay present and well typed and the saved identity reads as before. */
  lemma StopHalKeepsIdentity(env: Env, w: World, p: Prefs)
    requires WellTyped(p)
    ensures var hal := StopHalStep(env, w, Some(p));
      hal.prefs.Some? && WellTyped(hal.prefs.value) && OriginalIdentity(hal.prefs.value) == OriginalIdentity(p)
  {
    NamesDiffer(StrKey(StoppedHalService), StrKey(OrigManufacturer));
    NamesDiffer(StrKey(StoppedHalService), StrKey(OrigProduct));
    NamesDiffer(StrKey(StoppedHalService), StrKey(OrigSerial));
  }

  /** Whatever the identity step writes stays at its place in the log through
      the rest of disabling. */
  lemma DisableKeepsRestoreBatch(env: Env, w: World, prefs: Option<Prefs>)
    ensures var identity := RestoreIdentityStep(DisableUnbindStep(env, w), prefs);
      var r := DisableStep(env, w, prefs);
      |identity.world.log| <= |r.world.log| && r.world.log[..|identity.world.log|] == identity.world.log
  {
    var identity := RestoreIdentityStep(DisableUnbindStep(env, w), prefs);
    var cleaned := AfterBatch(identity.world, CLEANUP);
    var reset := MtkResetStep(env, cleaned);
    var handed := AfterBatch(reset, [RESTORE_ADB]);
    var n := |identity.world.log|;
    assert cleaned.log[..n] == identity.world.log;
    assert reset.log[..n] == reset.log[..|cleaned.log|][..n];
    assert handed.log[..n] == reset.log[..n];
    var r := StartHalStep(handed, identity.prefs);
    assert r.world.log[..n] == handed.log[..n];
  }

  /** With no complete saved identity, the enable prelude saves the chosen
      strings. */
  lemma PreludeSavesChosen(env: Env, w: World, p: Prefs, keepAdb: bool)
    requires WellTyped(p) && !Complete(OriginalIdentity(p))
    ensures var chosen := ChooseBackup(CurrentIdentity(env), PropsIdentity(env));
      var pre := PreludeStep(env, w, Some(p), keepAdb);
      pre.prefs.Some? && WellTyped(pre.prefs.value) &&
      OriginalIdentity(pre.prefs.value) == (Some(chosen.manufacturer), Some(chosen.product), Some(chosen.serial))
  {
    var chosen := ChooseBackup(CurrentIdentity(env), PropsIdentity(env));
    var probe := AdbProbeStep(env, w, keepAdb);
    StopHalKeepsIdentity(env, probe.world, p);
    var hp := StopHalStep(env, probe.world, Some(p)).prefs.value;
    IdentityRoundTrip(hp, chosen.manufacturer, chosen.product, chosen.serial, BufferSizeKey);
  }

  /** Disabling with a complete saved identity writes exactly that identity
      right after its unbind and leaves none saved. */
  lemma DisableWritesSaved(env: Env, w: World, p: Prefs)
    requires WellTyped(p) && Complete(OriginalIdentity(p))
    ensures var t := OriginalIdentity(p);
      var u := DisableUnbindStep(env, w);
      var d := DisableStep(env, w, Some(p));
      |u.log| < |d.world.log| &&
      d.world.log[|u.log|] == Batch(IdentityWrites(t.0.value, t.1.value, t.2.value)) &&
      d.prefs.Some? && OriginalIdentity(d.prefs.value) == (None, None, None)
  {
    var u := DisableUnbindStep(env, w);
    var identity := RestoreIdentityStep(u, Some(p));
    assert |identity.world.log| == |u.log| + 1;
    DisableKeepsRestoreBatch(env, w, Some(p));
    var d := DisableStep(env, w, Some(p));
    assert d.world.log[|u.log|] == d.world.log[..|identity.world.log|][|u.log|];
    DisableForgetsIdentity(env, w, p);
  }

  /** Enabling and then disabling is a round trip of the identity: with no
      complete saved identity, enabling saves the chosen strings (the current
      ones whenever they are usable), and the following disable writes exactly
      those strings back, right after its unbind, and leaves no saved
      identity. */
  lemma EnableThenDisableRestores(env: Env, w: World, p: Prefs, rate: int, keepAdb: bool)
    requires WellTyped(p) && !Complete(OriginalIdentity(p))
    ensures var chosen := ChooseBackup(CurrentIdentity(env), PropsIdentity(env));
      var e := EnableStep(env, w, Some(p), rate, keepAdb);
      var u := DisableUnbindStep(env, e.world);
      var d := DisableStep(env, e.world, e.prefs);
      e.prefs.Some? &&
      OriginalIdentity(e.prefs.value) == (Some(chosen.manufacturer), Some(chosen.product), Some(chosen.serial)) &&
      |u.log| < |d.world.log| &&
      d.world.log[|u.log|] == Batch(IdentityWrites(chosen.manufacturer, chosen.product, chosen.serial)) &&
      d.prefs.Some? && OriginalIdentity(d.prefs.value) == (None, None, None)
    ensures UsableAsBackup(CurrentIdentity(env)) ==>
      ChooseBackup(CurrentIdentity(env), PropsIdentity(env)) == CurrentIdentity(env)
  {
    PreludeSavesChosen(env, w, p, keepAdb);
    var e := EnableStep(env, w, Some(p), rate, keepAdb);
    assert e.prefs == PreludeStep(env, w, Some(p), keepAdb).prefs;
    DisableWritesSaved(env, e.world, e.prefs.value);
  }

  // ---- the methods ----

  /** The repository's map, when there is a repository. */
  function PrefsOf(repo: SettingsRepository?): Option<Prefs>
    reads repo
  {
    if repo == null then None else Some(repo.prefs)
  }

  /** The keep-ADB check. */
  method ProbeAdb(sh: Shell, keepAdb: bool) returns (adbWasActive: bool, ffsAdbExists: bool)
    modifies sh
    ensures AdbProbe(adbWasActive, ffsAdbExists, sh.world) == AdbProbeStep(sh.env, old(sh.world), keepAdb)
  {
    adbWasActive, ffsAdbExists := false, false;
    if keepAdb {
      adbWasActive := Contains(sh.env.query(ADB_CONFIG_QUERY), "adb");
      ffsAdbExists := sh.RunRootCommands([FFS_ADB_PROBE]);
      if adbWasActive && !ffsAdbExists {
        adbWasActive := false;
      }
    }
  }

  /** The search from position `i` on: the candidate there, when it runs,
      else the search from the next one. */
  lemma FirstRunningHalAt(env: Env, candidates: seq<Str>, i: nat)
    requires i < |candidates|
    ensures FirstRunningHal(env, candidates[i..]) ==
      if HalRunning(env, candidates[i]) then Some(candidates[i]) else FirstRunningHal(env, candidates[i + 1..])
  {
    assert candidates[i..][1..] == candidates[i + 1..];
  }

  /** `findRunningUsbHalService()`. */
  method FindRunningUsbHalService(sh: Shell) returns (name: Option<Str>)
    ensures name == FirstRunningHal(sh.env, HAL_CANDIDATES)
  {
    var candidates := HAL_CANDIDATES;
    for i := 0 to |candidates|
      invariant FirstRunningHal(sh.env, HAL_CANDIDATES) == FirstRunningHal(sh.env, candidates[i..])
    {
      FirstRunningHalAt(sh.env, candidates, i);
      var status := sh.env.query(HalStatusQuery(candidates[i]));
      if status == "running" || status == "restarting" {
        return Some(candidates[i]);
      }
    }
    return None;
  }

  /** `stopUsbHal(settingsRepo)`. */
  method StopUsbHal(sh: Shell, repo: SettingsRepository?)
    requires repo != null ==> repo.Valid()
    modifies sh, repo
    ensures repo != null ==> repo.Valid()
    ensures Stage(sh.world, PrefsOf(repo)) == StopHalStep(sh.env, old(sh.world), old(PrefsOf(repo)))
  {
    var serviceName := FindRunningUsbHalService(sh);
    if serviceName.Some? {
      var stopped := sh.RunRootCommands([StopHalCommand(serviceName.value)]);
      if stopped && repo != null {
        repo.SaveStoppedHalService(serviceName.value);
      }
    }
  }

  /** `startUsbHal(settingsRepo)`. */
  method StartUsbHal(sh: Shell, repo: SettingsRepository?)
    requires repo != null ==> repo.Valid()
    modifies sh, repo
    ensures repo != null ==> repo.Valid()
    ensures Stage(sh.world, PrefsOf(repo)) == StartHalStep(old(sh.world), old(PrefsOf(repo)))
  {
    if repo != null {
      var serviceName := repo.GetStrSetting(StoppedHalService);
      if serviceName.Some? {
        var _ := sh.RunRootCommands([StartHalCommand(serviceName.value)]);
        repo.ClearStoppedHalService();
      }
    }
  }

  /** The identity backup; returns the device serial. */
  method BackupIdentity(sh: Shell, repo: SettingsRepository?) returns (deviceSerial: Str)
    requires repo != null ==> repo.Valid()
    modifies repo
    ensures repo != null ==> repo.Valid()
    ensures Backup(deviceSerial, PrefsOf(repo)) == BackupStep(sh.env, old(PrefsOf(repo)))
  {
    deviceSerial := UNKNOWN_SERIAL;
    if repo != null {
      var saved := repo.GetOriginalIdentity();
      if saved.0.None? || saved.1.None? || saved.2.None? {
        var current := CurrentIdentity(sh.env);
        if UsableAsBackup(current) {
          repo.SaveOriginalIdentity(current.manufacturer, current.product, current.serial);
          deviceSerial := current.serial;
        } else {
          var fallback := PropsIdentity(sh.env);
          repo.SaveOriginalIdentity(fallback.manufacturer, fallback.product, fallback.serial);
          deviceSerial := fallback.serial;
        }
      } else {
        deviceSerial := saved.2.value;
      }
    }
  }

  /** Steps 1 and 2 of `enableGadgetInternal`. */
  method Unbind(sh: Shell, needPreserve: bool) returns (proceed: bool, softOk: bool)
    modifies sh
    ensures Unbound(proceed, softOk, sh.world) == UnbindPhase(sh.env, old(sh.world), needPreserve)
  {
    softOk := SoftUnbind(sh);
    if !softOk {
      if needPreserve {
        return false, false;
      }
      var hardOk := HardUnbind(sh);
      if !hardOk {
        return false, false;
      }
    }
    var _ := SoftUnbind(sh);
    proceed := true;
  }

  /** Steps 3 to 5 of `enableGadgetInternal`. */
  method Configure(sh: Shell, rate: int, serial: Str, softOk: bool, needPreserve: bool) returns (ok: bool)
    modifies sh
    ensures Step(ok, sh.world) == ConfigureStep(sh.env, old(sh.world), rate, serial, softOk, needPreserve)
  {
    var adbAvailable := false;
    if softOk && needPreserve {
      adbAvailable := sh.RunRootCommands([FFS_ADB_PROBE]);
    }
    var _ := ApplySeLinuxPolicy(sh);
    var configured := sh.RunRootCommands(ConfigCommands(rate, serial, adbAvailable));
    if !configured {
      return false;
    }
    ok := BindGadgetWithRetry(sh);
    if ok {
      var _ := sh.RunRootCommands([USB_STATE_UAC2]);
    }
  }

  /** The keep-ADB check, the HAL stop and the identity backup. */
  method RunPrelude(sh: Shell, repo: SettingsRepository?, keepAdb: bool) returns (needPreserve: bool, deviceSerial: Str)
    requires repo != null ==> repo.Valid()
    modifies sh, repo
    ensures repo != null ==> repo.Valid()
    ensures Prelude(needPreserve, deviceSerial, sh.world, PrefsOf(repo)) ==
      PreludeStep(sh.env, old(sh.world), old(PrefsOf(repo)), keepAdb)
  {
    var adbWasActive, ffsAdbExists := ProbeAdb(sh, keepAdb);
    StopUsbHal(sh, repo);
    deviceSerial := BackupIdentity(sh, repo);
    needPreserve := keepAdb && adbWasActive && ffsAdbExists;
  }

  /** `enableGadgetInternal(sampleRate, settingsRepo, keepAdb)`. */
  method EnableGadget(sh: Shell, repo: SettingsRepository?, rate: int, keepAdb: bool) returns (ok: bool)
    requires repo != null ==> repo.Valid()
    modifies sh, repo
    ensures repo != null ==> repo.Valid()
    ensures Outcome(ok, sh.world, PrefsOf(repo)) == EnableStep(sh.env, old(sh.world), old(PrefsOf(repo)), rate, keepAdb)
  {
    var needPreserve, deviceSerial := RunPrelude(sh, repo, keepAdb);
    ok := UnbindAndConfigure(sh, rate, SerialForRate(rate, deviceSerial), needPreserve);
  }

  /** Steps 1 to 5 of `enableGadgetInternal`. */
  method UnbindAndConfigure(sh: Shell, rate: int, serial: Str, needPreserve: bool) returns (ok: bool)
    modifies sh
    ensures Step(ok, sh.world) == UnbindAndConfigureStep(sh.env, old(sh.world), rate, serial, needPreserve)
  {
    var proceed, softOk := Unbind(sh, needPreserve);
    if !proceed {
      return false;
    }
    ok := Configure(sh, rate, serial, softOk, needPreserve);
  }

  /** The identity part of disabling. */
  method RestoreIdentity(sh: Shell, repo: SettingsRepository?)
    requires repo != null ==> repo.Valid()
    modifies sh, repo
    ensures repo != null ==> repo.Valid()
    ensures Stage(sh.world, PrefsOf(repo)) == RestoreIdentityStep(old(sh.world), old(PrefsOf(repo)))
  {
    var restored := false;
    if repo != null {
      var orig := repo.GetOriginalIdentity();
      if orig.0.Some? && orig.1.Some? && orig.2.Some? {
        var _ := sh.RunRootCommands(IdentityWrites(orig.0.value, orig.1.value, orig.2.value));
        repo.ClearOriginalIdentity();
        restored := true;
      }
    }
    if !restored {
      var _ := sh.RunRootCommands(IdentityWrites([], [], []));
    }
  }

  /** The MTK mode reset of disabling. */
  method ResetMtkMode(sh: Shell)
    modifies sh
    ensures sh.world == MtkResetStep(sh.env, old(sh.world))
  {
    var controllers := sh.AvailableUdcControllers();
    var udcName := PreferredController(controllers);
    if udcName.Some? {
      ConfigureMtkMode(sh, udcName.value, false);
    }
  }

  /** `disableGadgetInternal(settingsRepo)`. */
  method DisableGadget(sh: Shell, repo: SettingsRepository?)
    requires repo != null ==> repo.Valid()
    modifies sh, repo
    ensures repo != null ==> repo.Valid()
    ensures Stage(sh.world, PrefsOf(repo)) == DisableStep(sh.env, old(sh.world), old(PrefsOf(repo)))
  {
    var softOk := SoftUnbind(sh);
    if !softOk {
      var _ := HardUnbind(sh);
    }
    RestoreIdentity(sh, repo);
    var _ := sh.RunRootCommands(CLEANUP);
    ResetMtkMode(sh);
    var _ := sh.RunRootCommands([RESTORE_ADB]);
    StartUsbHal(sh, repo);
  }
}
