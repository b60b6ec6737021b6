/**
 * Releasing and binding the UDC (UsbGadgetManager.kt: `softUnbind`,
 * `hardUnbind`, `checkUdcReleased`, `configureMtkMode`,
 * `bindGadgetWithRetry`). Each polling loop is a method on the shell, proved
 * equal to a step function over the shell's world; what the loops promise
 * (how many reads, which commands, when they report success) is proved about
 * the step functions.
 */
module UdcControl {
  import opened Text
  import opened Wrappers
  import opened RootShell
  import opened GadgetStatus

  const UDC_FILE: Str := "/config/usb_gadget/g1/UDC"
  const CHMOD_UDC: Str := "chmod 666 /config/usb_gadget/g1/UDC"
  const CLEAR_UDC: Str := "echo '' > /config/usb_gadget/g1/UDC"
  const NONE_UDC: Str := "echo 'none' > /config/usb_gadget/g1/UDC"
  const HARD_UNBIND: Str := "setprop sys.usb.config none"
  const SOFT_POLLS: nat := 8
  const NONE_POLLS: nat := 4
  const HARD_POLLS: nat := 10
  const BIND_ATTEMPTS: nat := 5

  /** The command that binds the gadget to controller `udc`. */
  function BindUdc(udc: Str): Str {
    "echo '" + udc + "' > /config/usb_gadget/g1/UDC"
  }

  /** The n-th read of the UDC file shows it released. */
  predicate ReleasedRead(env: Env, n: nat) {
    UdcReleased(env.udc(n))
  }

  /** Up to `n` reads of the UDC file, stopping at the first released one. */
  function PollStep(env: Env, w: World, n: nat): (r: Step)
    ensures r.world == w.(udcReads := r.world.udcReads)
    ensures w.udcReads <= r.world.udcReads <= w.udcReads + n
    decreases n
  {
    if n == 0 then Step(false, w)
    else if ReleasedRead(env, w.udcReads) then Step(true, AfterUdcRead(w))
    else PollStep(env, AfterUdcRead(w), n - 1)
  }

  /** Polling succeeds iff one of the `n` reads is released; it stops right
      after the first released read, and reads `n` times when none is. */
  lemma {:induction false} PollMeaning(env: Env, w: World, n: nat)
    ensures PollStep(env, w, n).ok <==> exists j :: w.udcReads <= j < w.udcReads + n && ReleasedRead(env, j)
    ensures PollStep(env, w, n).ok ==>
      var last := PollStep(env, w, n).world.udcReads - 1;
      w.udcReads <= last < w.udcReads + n && ReleasedRead(env, last) &&
      forall j :: w.udcReads <= j < last ==> !ReleasedRead(env, j)
    ensures !PollStep(env, w, n).ok ==> PollStep(env, w, n).world.udcReads == w.udcReads + n
    decreases n
  {
    if n > 0 && !ReleasedRead(env, w.udcReads) {
      PollMeaning(env, AfterUdcRead(w), n - 1);
    }
  }

  /** The polling loop shared by `softUnbind` and `hardUnbind`. */
  method PollUntilReleased(sh: Shell, n: nat) returns (released: bool)
    modifies sh
    ensures Step(released, sh.world) == PollStep(sh.env, old(sh.world), n)
  {
    var i := 0;
    while i < n
      invariant 0 <= i <= n
      invariant PollStep(sh.env, old(sh.world), n) == PollStep(sh.env, sh.world, n - i)
    {
      var current := sh.ReadUdc();
      if UdcReleased(current) {
        return true;
      }
      i := i + 1;
    }
    return false;
  }

  /** `softUnbind`: an initial read; then `chmod` and an empty write followed
      by 8 polls; then a "none" write followed by 4 polls; then a last read. */
  function SoftUnbindStep(env: Env, w: World): Step
  {
    if ReleasedRead(env, w.udcReads) then Step(true, AfterUdcRead(w))
    else
      var p8 := PollStep(env, AfterExec(AfterExec(AfterUdcRead(w), CHMOD_UDC), CLEAR_UDC), SOFT_POLLS);
      if p8.ok then p8
      else
        var p4 := PollStep(env, AfterExec(p8.world, NONE_UDC), NONE_POLLS);
        if p4.ok then p4 else Step(false, AfterUdcRead(p4.world))
  }

  /** Soft unbind succeeds iff one of its first 13 reads shows a released UDC.
      It only ever writes the UDC file directly: no batch runs, and on failure
      it has sent exactly the chmod, the empty write and the "none" write and
      read the file 14 times. */
  lemma SoftUnbindMeaning(env: Env, w: World)
    ensures SoftUnbindStep(env, w).ok <==> exists j :: w.udcReads <= j < w.udcReads + 13 && ReleasedRead(env, j)
    ensures SoftUnbindStep(env, w).world.batchesRun == w.batchesRun
    ensures SoftUnbindStep(env, w).world.listingsRead == w.listingsRead
    ensures !SoftUnbindStep(env, w).ok ==>
      SoftUnbindStep(env, w).world.udcReads == w.udcReads + 14 &&
      SoftUnbindStep(env, w).world.log == w.log + [Exec(CHMOD_UDC), Exec(CLEAR_UDC), Exec(NONE_UDC)]
    ensures forall k :: |w.log| <= k < |SoftUnbindStep(env, w).world.log| ==>
      SoftUnbindStep(env, w).world.log[k].Exec?
  {
    if !ReleasedRead(env, w.udcReads) {
      var w2 := AfterExec(AfterExec(AfterUdcRead(w), CHMOD_UDC), CLEAR_UDC);
      PollMeaning(env, w2, SOFT_POLLS);
      var p8 := PollStep(env, w2, SOFT_POLLS);
      if !p8.ok {
        var w3 := AfterExec(p8.world, NONE_UDC);
        PollMeaning(env, w3, NONE_POLLS);
      }
    }
  }

  /** `softUnbind`. */
  method SoftUnbind(sh: Shell) returns (ok: bool)
    modifies sh
    ensures Step(ok, sh.world) == SoftUnbindStep(sh.env, old(sh.world))
  {
    var initialUdc := sh.ReadUdc();
    if UdcReleased(initialUdc) {
      return true;
    }
    sh.ExecAndWait(CHMOD_UDC);
    sh.ExecAndWait(CLEAR_UDC);
    ok := PollUntilReleased(sh, SOFT_POLLS);
    if ok {
      return;
    }
    sh.ExecAndWait(NONE_UDC);
    ok := PollUntilReleased(sh, NONE_POLLS);
    if ok {
      return;
    }
    var finalUdc := sh.ReadUdc();
    return false;
  }

  /** `hardUnbind`: a `setprop sys.usb.config none` batch whose result is
      ignored, 10 polls of `checkUdcReleased`, then a last read. */
  function HardUnbindStep(env: Env, w: World): Step
  {
    var p := PollStep(env, AfterBatch(w, [HARD_UNBIND]), HARD_POLLS);
    if p.ok then p else Step(false, AfterUdcRead(p.world))
  }

  /** Hard unbind runs exactly one batch, the property write, and succeeds iff
      one of the 10 reads after it shows a released UDC. */
  lemma HardUnbindMeaning(env: Env, w: World)
    ensures HardUnbindStep(env, w).ok <==> exists j :: w.udcReads <= j < w.udcReads + 10 && ReleasedRead(env, j)
    ensures HardUnbindStep(env, w).world.log == w.log + [Batch([HARD_UNBIND])]
    ensures HardUnbindStep(env, w).world.batchesRun == w.batchesRun + 1
    ensures HardUnbindStep(env, w).world.listingsRead == w.listingsRead
  {
    PollMeaning(env, AfterBatch(w, [HARD_UNBIND]), HARD_POLLS);
  }

  /** `hardUnbind`. */
  method HardUnbind(sh: Shell) returns (ok: bool)
    modifies sh
    ensures Step(ok, sh.world) == HardUnbindStep(sh.env, old(sh.world))
  {
    var _ := sh.RunRootCommands([HARD_UNBIND]);
    ok := PollUntilReleased(sh, HARD_POLLS);
    if ok {
      return;
    }
    var udc := sh.ReadUdc();
    return false;
  }

  /** The MediaTek mode attributes of controller `udc`. */
  function MtkModePaths(udc: Str): seq<Str> {
    ["/sys/class/udc/" + udc + "/device/mode", "/sys/class/udc/" + udc + "/device/cmode"]
  }

  function MtkWrite(value: Str, path: Str): Str {
    "echo '" + value + "' > " + path
  }

  /** The batches `configureMtkMode` runs for the remaining `paths`: a probe
      for each path, and a write of `value` after each successful probe. */
  function MtkStep(env: Env, w: World, value: Str, paths: seq<Str>): (r: World)
    ensures r.udcReads == w.udcReads && r.listingsRead == w.listingsRead
    ensures |w.log| <= |r.log| && r.log[..|w.log|] == w.log
    ensures forall k :: |w.log| <= k < |r.log| ==> r.log[k].Batch?
    decreases |paths|
  {
    if paths == [] then w
    else
      var found := BatchOk(env, w);
      var w1 := AfterBatch(w, [FileProbe(paths[0])]);
      var w2 := if found then AfterBatch(w1, [MtkWrite(value, paths[0])]) else w1;
      MtkStep(env, w2, value, paths[1..])
  }

  /** Each path gets one probe, and its write follows exactly when the probe
      succeeded: the two MTK batches for one path. */
  lemma MtkOnePath(env: Env, w: World, value: Str, path: Str)
    ensures BatchOk(env, w) ==>
      MtkStep(env, w, value, [path]).log == w.log + [Batch([FileProbe(path)]), Batch([MtkWrite(value, path)])]
    ensures !BatchOk(env, w) ==>
      MtkStep(env, w, value, [path]).log == w.log + [Batch([FileProbe(path)])]
  {
    assert [path][1..] == [];
  }

  /** `configureMtkMode(udc, enable)`. */
  method ConfigureMtkMode(sh: Shell, udc: Str, enable: bool)
    modifies sh
    ensures sh.world == MtkStep(sh.env, old(sh.world), if enable then "1" else "0", MtkModePaths(udc))
  {
    var value := if enable then "1" else "0";
    var paths := MtkModePaths(udc);
    for i := 0 to |paths|
      invariant MtkStep(sh.env, old(sh.world), value, paths) == MtkStep(sh.env, sh.world, value, paths[i..])
    {
      var found := sh.RunRootCommands([FileProbe(paths[i])]);
      if found {
        var _ := sh.RunRootCommands([MtkWrite(value, paths[i])]);
      }
      assert paths[i..][1..] == paths[i + 1..];
    }
  }

  /** How one attempt of `bindGadgetWithRetry` ends: no controller listed, the
      name read back matches the one written, or it does not. */
  datatype Attempt = NoController(world: World) | Bound(world: World) | Mismatch(world: World)

  /** The last command written bound the name the last UDC read returned. */
  predicate EndsWithBind(env: Env, w: World) {
    |w.log| > 0 && w.udcReads > 0 && w.log[|w.log| - 1] == Exec(BindUdc(env.udc(w.udcReads - 1)))
  }

  /** One attempt: list the controllers; with one chosen, set the MTK mode,
      clear the UDC file, write the name and read the file back. */
  function BindOnce(env: Env, w: World): (r: Attempt)
    ensures r.NoController? <==> PreferredController(ControllersAt(env, w)).None?
    ensures r.NoController? ==> r.world == AfterListing(w)
    ensures r.world.listingsRead == w.listingsRead + 1
    ensures |r.world.log| >= |w.log| && r.world.udcReads >= w.udcReads
    ensures r.Bound? ==> |r.world.log| > |w.log| && r.world.udcReads > w.udcReads && EndsWithBind(env, r.world)
  {
    var w1 := AfterListing(w);
    match PreferredController(ControllersAt(env, w))
    case None => NoController(w1)
    case Some(udc) =>
      var w3 := BindWrites(env, w1, udc);
      if UdcAt(env, w3) == udc then Bound(AfterUdcRead(w3)) else Mismatch(AfterUdcRead(w3))
  }

  /** Attempts `attempt` to 5 of `bindGadgetWithRetry`: it gives up at once
      when no controller is listed, succeeds on a matching read-back, and
      otherwise tries again until the fifth attempt. Success is reported only
      when the last command written bound the very name the UDC file then
      reads back. */
  function BindStep(env: Env, w: World, attempt: nat): (r: Step)
    requires 1 <= attempt <= BIND_ATTEMPTS
    ensures PreferredController(ControllersAt(env, w)).None? ==> r == Step(false, AfterListing(w))
    ensures r.ok ==> |r.world.log| > |w.log| && r.world.udcReads > w.udcReads && EndsWithBind(env, r.world)
    ensures w.listingsRead < r.world.listingsRead <= w.listingsRead + BIND_ATTEMPTS + 1 - attempt
    decreases BIND_ATTEMPTS - attempt
  {
    match BindOnce(env, w)
    case NoController(w1) => Step(false, w1)
    case Bound(w4) => Step(true, w4)
    case Mismatch(w4) => if attempt == BIND_ATTEMPTS then Step(false, w4) else BindStep(env, w4, attempt + 1)
  }

  /** The world after `k` attempts, each starting where the previous ended. */
  function AfterAttempts(env: Env, w: World, k: nat): World
    decreases k
  {
    if k == 0 then w else AfterAttempts(env, BindOnce(env, w).world, k - 1)
  }

  /** The first `k` attempts each read back a name other than the one written. */
  predicate MismatchesFirst(env: Env, w: World, k: nat)
    decreases k
  {
    k == 0 || (BindOnce(env, w).Mismatch? && MismatchesFirst(env, BindOnce(env, w).world, k - 1))
  }

  /** Attempt `k + 1` (counting from `w`) is the first to read back its name. */
  predicate BoundOnAttempt(env: Env, w: World, k: nat) {
    MismatchesFirst(env, w, k) && BindOnce(env, AfterAttempts(env, w, k)).Bound?
  }

  /** One of the first `n + 1` attempts from `w` is the first to bind. */
  predicate BindsWithin(env: Env, w: World, n: nat) {
    exists k :: 0 <= k <= n && BoundOnAttempt(env, w, k)
  }

  /** Behind a mismatching attempt, binding on attempt `k + 1` from the next
      world is binding on attempt `k + 2` from this one. */
  lemma BoundOnAttemptShift(env: Env, w: World, k: nat)
    requires BindOnce(env, w).Mismatch?
    ensures BoundOnAttempt(env, w, k + 1) <==> BoundOnAttempt(env, BindOnce(env, w).world, k)
  {
  }

  /** No attempt binds once the controller listing comes back empty. */
  lemma NoBindWithoutController(env: Env, w: World, k: nat)
    requires BindOnce(env, w).NoController?
    ensures !BoundOnAttempt(env, w, k)
  {
    assert k == 0 || !MismatchesFirst(env, w, k);
  }

  /** Behind a mismatching attempt, when none of the next `n + 1` attempts
      binds, none of the first `n + 2` from here does either. */
  lemma NoBindBehindMismatch(env: Env, w: World, n: nat, k: nat)
    requires BindOnce(env, w).Mismatch? && k <= n + 1
    requires forall j :: 0 <= j <= n ==> !BoundOnAttempt(env, BindOnce(env, w).world, j)
    ensures !BoundOnAttempt(env, w, k)
  {
    if k > 0 {
      BoundOnAttemptShift(env, w, k - 1);
    }
  }

  /** A binding attempt is as far as the retry goes. */
  lemma BoundFirstIff(env: Env, w: World, attempt: nat)
    requires 1 <= attempt <= BIND_ATTEMPTS && BindOnce(env, w).Bound?
    ensures BindStep(env, w, attempt).ok && BoundOnAttempt(env, w, 0)
  {
  }

  /** With no controller, neither the retry nor any attempt binds. */
  lemma NoControllerIff(env: Env, w: World, attempt: nat)
    requires 1 <= attempt <= BIND_ATTEMPTS && BindOnce(env, w).NoController?
    ensures !BindStep(env, w, attempt).ok
    ensures forall k :: 0 <= k <= BIND_ATTEMPTS - attempt ==> !BoundOnAttempt(env, w, k)
  {
    forall k | 0 <= k <= BIND_ATTEMPTS - attempt ensures !BoundOnAttempt(env, w, k) {
      NoBindWithoutController(env, w, k);
    }
  }

  /** A mismatch on the fifth attempt ends the retry with failure. */
  lemma LastMismatchIff(env: Env, w: World)
    requires BindOnce(env, w).Mismatch?
    ensures !BindStep(env, w, BIND_ATTEMPTS).ok && !BoundOnAttempt(env, w, 0)
  {
  }

  /** A mismatch before the fifth attempt leads to the next attempt. */
  lemma MismatchContinues(env: Env, w: World, attempt: nat)
    requires 1 <= attempt < BIND_ATTEMPTS && BindOnce(env, w).Mismatch?
    ensures BindStep(env, w, attempt) == BindStep(env, BindOnce(env, w).world, attempt + 1)
  {
  }

  /** The attempts from a mismatching one on are the attempts after it, one
      later. */
  lemma MismatchIff(env: Env, w: World, attempt: nat)
    requires 1 <= attempt < BIND_ATTEMPTS && BindOnce(env, w).Mismatch?
    ensures BindStep(env, w, attempt).ok <==>
      BindsWithin(env, w, BIND_ATTEMPTS - attempt)
    decreases BIND_ATTEMPTS - attempt, 0
  {
    var next := BindOnce(env, w).world;
    BindStepSucceedsIff(env, next, attempt + 1);
    MismatchContinues(env, w, attempt);
    if BindStep(env, next, attempt + 1).ok {
      var k :| 0 <= k <= BIND_ATTEMPTS - (attempt + 1) && BoundOnAttempt(env, next, k);
      BoundOnAttemptShift(env, w, k);
    } else {
      forall k | 0 <= k <= BIND_ATTEMPTS - attempt ensures !BoundOnAttempt(env, w, k) {
        NoBindBehindMismatch(env, w, BIND_ATTEMPTS - attempt - 1, k);
      }
    }
  }

  /** The retry succeeds from `attempt` on exactly when one of the attempts
      left reads back the name it wrote after every earlier one did not. */
  lemma {:induction false} BindStepSucceedsIff(env: Env, w: World, attempt: nat)
    requires 1 <= attempt <= BIND_ATTEMPTS
    ensures BindStep(env, w, attempt).ok <==>
      BindsWithin(env, w, BIND_ATTEMPTS - attempt)
    decreases BIND_ATTEMPTS - attempt, 1
  {
    if BindOnce(env, w).Mismatch? && attempt < BIND_ATTEMPTS {
      MismatchIff(env, w, attempt);
    } else {
      EndsHereIff(env, w, attempt);
    }
  }

  /** The iff on an attempt that ends the retry. */
  lemma EndsHereIff(env: Env, w: World, attempt: nat)
    requires 1 <= attempt <= BIND_ATTEMPTS
    requires !(BindOnce(env, w).Mismatch? && attempt < BIND_ATTEMPTS)
    ensures BindStep(env, w, attempt).ok <==>
      BindsWithin(env, w, BIND_ATTEMPTS - attempt)
  {
    if BindOnce(env, w).Bound? {
      BoundFirstIff(env, w, attempt);
    } else if BindOnce(env, w).NoController? {
      NoControllerIff(env, w, attempt);
    } else {
      LastMismatchIff(env, w);
    }
  }

  /** The writes of one bind attempt: MTK mode on, then the UDC file opened,
      cleared and given `udc`. */
  function BindWrites(env: Env, w: World, udc: Str): World {
    AfterExec(AfterExec(AfterExec(MtkStep(env, w, "1", MtkModePaths(udc)), CHMOD_UDC), CLEAR_UDC), BindUdc(udc))
  }

  method WriteBind(sh: Shell, udc: Str)
    modifies sh
    ensures sh.world == BindWrites(sh.env, old(sh.world), udc)
  {
    ConfigureMtkMode(sh, udc, true);
    sh.ExecAndWait(CHMOD_UDC);
    sh.ExecAndWait(CLEAR_UDC);
    sh.ExecAndWait(BindUdc(udc));
  }

  /** What is left of `bindGadgetWithRetry` from attempt `attempt` on: the
      remaining attempts, or the give-up once all 5 are spent. */
  function RemainingBind(env: Env, w: World, attempt: nat): Step
    requires 1 <= attempt
  {
    if attempt <= BIND_ATTEMPTS then BindStep(env, w, attempt) else Step(false, w)
  }

  /** Attempt `attempt` of `bindGadgetWithRetry`'s loop: `done` when it
      returns from the loop (no controller, or the name read back matches),
      otherwise the state the remaining attempts start from. */
  method BindAttempt(sh: Shell, attempt: nat) returns (done: bool, ok: bool)
    requires 1 <= attempt <= BIND_ATTEMPTS
    modifies sh
    ensures done ==> Step(ok, sh.world) == BindStep(sh.env, old(sh.world), attempt)
    ensures !done ==> BindStep(sh.env, old(sh.world), attempt) == RemainingBind(sh.env, sh.world, attempt + 1)
  {
    ghost var w0 := sh.world;
    var controllers := sh.AvailableUdcControllers();
    var udcName := PreferredController(controllers);
    if udcName.None? {
      return true, false;
    }
    WriteBind(sh, udcName.value);
    var currentUdc := sh.ReadUdc();
    if currentUdc == udcName.value {
      return true, true;
    }
    return false, false;
  }

  /** `bindGadgetWithRetry`. */
  method BindGadgetWithRetry(sh: Shell) returns (ok: bool)
    modifies sh
    ensures Step(ok, sh.world) == BindStep(sh.env, old(sh.world), 1)
    ensures ok <==> BindsWithin(sh.env, old(sh.world), BIND_ATTEMPTS - 1)
  {
    BindStepSucceedsIff(sh.env, sh.world, 1);
    ghost var target := BindStep(sh.env, sh.world, 1);
    var i := 1;
    while i <= BIND_ATTEMPTS
      invariant 1 <= i <= BIND_ATTEMPTS + 1
      invariant target == RemainingBind(sh.env, sh.world, i)
    {
      var done;
      done, ok := BindAttempt(sh, i);
      if done {
        return;
      }
      i := i + 1;
    }
    return false;
  }
}
