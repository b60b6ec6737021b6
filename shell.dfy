/**
 * The root shell that UsbGadgetManager.kt drives through `su`. The shell and
 * the kernel behind it (configfs, the UDC file, system properties) are an
 * oracle: an `Env` answers the n-th read of the UDC file, the n-th command
 * batch, the n-th controller listing and any one-shot query, and a `World`
 * records how far each answer stream has been consumed and which commands
 * were sent, in order.
 */
module RootShell {
  import opened Text

  const GADGET_ROOT: Str := "/config/usb_gadget/g1"
  const SHELL_ERR_PREFIX: Str := "[Shell Err] "
  const COMMAND_FAILED_PREFIX: Str := "[Gadget] Command failed: "

  /** How a `su` process fed with a batch of command lines ended: the process
      could not be started or fed (an exception), or it exited with a code
      after writing `stdout` (trimmed, as the one reader of it would) and the
      lines of `stderr`. */
  datatype BatchOutcome = Threw(message: Str) | Exited(code: int, stdout: Str, stderr: seq<Str>)

  /** The stderr lines `runRootCommands` keeps out of the log. */
  predicate IsBenign(line: Str) {
    Contains(line, "No such file") || Contains(line, "Read-only") ||
    Contains(line, "File exists") || Contains(line, "Directory not empty")
  }

  /** The log callback's messages for the stderr lines of one batch. */
  function ForwardedErrors(stderr: seq<Str>): (r: seq<Str>)
    ensures ForwardedSound(stderr, r)
  {
    if stderr == [] then []
    else
      var rest := ForwardedErrors(stderr[1..]);
      var r := if IsBenign(stderr[0]) then rest else [SHELL_ERR_PREFIX + stderr[0]] + rest;
      ForwardedStep(stderr, rest, r);
      r
  }

  /** `r` is at most as long as `stderr`, every message of `r` is a prefixed
      non-benign line of `stderr`, and every such line has its message. */
  predicate ForwardedSound(stderr: seq<Str>, r: seq<Str>) {
    |r| <= |stderr| && OnlyForwarded(stderr, r) && AllForwarded(stderr, r)
  }

  /** Every message of `r` is a prefixed non-benign line of `stderr`. */
  predicate OnlyForwarded(stderr: seq<Str>, r: seq<Str>) {
    forall k :: 0 <= k < |r| ==>
      exists i :: 0 <= i < |stderr| && !IsBenign(stderr[i]) && r[k] == SHELL_ERR_PREFIX + stderr[i]
  }

  /** Every non-benign line of `stderr` has its prefixed message in `r`. */
  predicate AllForwarded(stderr: seq<Str>, r: seq<Str>) {
    forall i :: 0 <= i < |stderr| && !IsBenign(stderr[i]) ==> SHELL_ERR_PREFIX + stderr[i] in r
  }

  /** One line more in front keeps the messages sound. */
  lemma ForwardedStep(stderr: seq<Str>, rest: seq<Str>, r: seq<Str>)
    requires stderr != [] && ForwardedSound(stderr[1..], rest)
    requires r == if IsBenign(stderr[0]) then rest else [SHELL_ERR_PREFIX + stderr[0]] + rest
    ensures ForwardedSound(stderr, r)
  {
    OnlyForwardedStep(stderr, rest, r);
    AllForwardedStep(stderr, rest, r);
  }

  lemma OnlyForwardedStep(stderr: seq<Str>, rest: seq<Str>, r: seq<Str>)
    requires stderr != [] && OnlyForwarded(stderr[1..], rest)
    requires r == if IsBenign(stderr[0]) then rest else [SHELL_ERR_PREFIX + stderr[0]] + rest
    ensures OnlyForwarded(stderr, r)
  {
    var tail := stderr[1..];
    forall k | 0 <= k < |r|
      ensures exists i :: 0 <= i < |stderr| && !IsBenign(stderr[i]) && r[k] == SHELL_ERR_PREFIX + stderr[i]
    {
      if !IsBenign(stderr[0]) && k == 0 {
        assert r[0] == SHELL_ERR_PREFIX + stderr[0];
      } else {
        var m := if IsBenign(stderr[0]) then k else k - 1;
        assert r[k] == rest[m];
        var j :| 0 <= j < |tail| && !IsBenign(tail[j]) && rest[m] == SHELL_ERR_PREFIX + tail[j];
        assert tail[j] == stderr[j + 1];
      }
    }
  }

  lemma AllForwardedStep(stderr: seq<Str>, rest: seq<Str>, r: seq<Str>)
    requires stderr != [] && AllForwarded(stderr[1..], rest)
    requires r == if IsBenign(stderr[0]) then rest else [SHELL_ERR_PREFIX + stderr[0]] + rest
    ensures AllForwarded(stderr, r)
  {
    var tail := stderr[1..];
    forall i | 0 <= i < |stderr| && !IsBenign(stderr[i])
      ensures SHELL_ERR_PREFIX + stderr[i] in r
    {
      if i == 0 {
        assert r[0] == SHELL_ERR_PREFIX + stderr[0];
      } else {
        assert stderr[i] == tail[i - 1];
        assert SHELL_ERR_PREFIX + tail[i - 1] in rest;
      }
    }
  }

  /** Prefixing is injective, so a benign line is never forwarded, whatever
      else the batch wrote. */
  lemma BenignNeverForwarded(stderr: seq<Str>, line: Str)
    requires IsBenign(line)
    ensures SHELL_ERR_PREFIX + line !in ForwardedErrors(stderr)
  {
    var r := ForwardedErrors(stderr);
    forall k | 0 <= k < |r|
      ensures r[k] != SHELL_ERR_PREFIX + line
    {
      var i :| 0 <= i < |stderr| && !IsBenign(stderr[i]) && r[k] == SHELL_ERR_PREFIX + stderr[i];
      assert r[k][|SHELL_ERR_PREFIX|..] == stderr[i];
      assert (SHELL_ERR_PREFIX + line)[|SHELL_ERR_PREFIX|..] == line;
    }
  }

  /** Forwarding keeps the order of the stderr lines. */
  lemma {:induction false} ForwardedErrorsAppend(a: seq<Str>, b: seq<Str>)
    ensures ForwardedErrors(a + b) == ForwardedErrors(a) + ForwardedErrors(b)
  {
    if a == [] {
      assert a + b == b;
    } else {
      assert (a + b)[1..] == a[1..] + b;
      ForwardedErrorsAppend(a[1..], b);
    }
  }

  /** Everything `runRootCommands` passes to its log callback for one batch. */
  function BatchMessages(o: BatchOutcome): (r: seq<Str>)
    ensures forall k :: 0 <= k < |r| ==> |r[k]| > 0 && r[k][0] == '['
    ensures o.Threw? ==> |r| == 1 && StartsWith(r[0], COMMAND_FAILED_PREFIX) &&
                         r[0][|COMMAND_FAILED_PREFIX|..] == o.message
    ensures o.Exited? ==> ForwardedSound(o.stderr, r)
  {
    match o
    case Threw(message) =>
      var m := COMMAND_FAILED_PREFIX + message;
      assert m[..|COMMAND_FAILED_PREFIX|] == COMMAND_FAILED_PREFIX;
      [m]
    case Exited(_, _, stderr) =>
      var r := ForwardedErrors(stderr);
      forall k | 0 <= k < |r| ensures |r[k]| > 0 && r[k][0] == '[' {
        var i :| 0 <= i < |stderr| && !IsBenign(stderr[i]) && r[k] == SHELL_ERR_PREFIX + stderr[i];
      }
      r
  }

  /** The result of `runRootCommands` as the source computes it: `success`
      is cleared only in the exception handler, the exit code is only logged.
      So it reports failure exactly when it logged the command-failed message. */
  function RunRootCommandsAsWritten(o: BatchOutcome): (ok: bool)
    ensures !ok <==> |BatchMessages(o)| == 1 && StartsWith(BatchMessages(o)[0], COMMAND_FAILED_PREFIX)
  {
    if o.Exited? then ForwardedIsNoFailure(o); true else false
  }

  /** A batch that exited logs no command-failed message: each of its
      messages starts with the stderr prefix instead. */
  lemma ForwardedIsNoFailure(o: BatchOutcome)
    requires o.Exited?
    ensures !(|BatchMessages(o)| == 1 && StartsWith(BatchMessages(o)[0], COMMAND_FAILED_PREFIX))
  {
    var r := BatchMessages(o);
    if |r| == 1 {
      var i :| 0 <= i < |o.stderr| && !IsBenign(o.stderr[i]) && r[0] == SHELL_ERR_PREFIX + o.stderr[i];
      ErrIsNoFailure(o.stderr[i]);
    }
  }

  /** A forwarded stderr line never reads as a command-failed message. */
  lemma ErrIsNoFailure(line: Str)
    ensures !StartsWith(SHELL_ERR_PREFIX + line, COMMAND_FAILED_PREFIX)
  {
    assert (SHELL_ERR_PREFIX + line)[1] == 'S';
  }

  /** The result the callers rely on: the batch ran and its last command
      (the shell's `exit` status) succeeded. */
  function BatchSucceeded(o: BatchOutcome): bool {
    o.Exited? && o.code == 0
  }

  /** The corrected result narrows the result as written to the batches that
      exit with status 0. */
  lemma CorrectedNarrowsAsWritten(o: BatchOutcome)
    ensures BatchSucceeded(o) <==> RunRootCommandsAsWritten(o) && o.Exited? && o.code == 0
  {
  }

  /** The discrepancy: a probe such as `test -d .../functions/ffs.adb` whose
      target is missing exits with status 1, yet the source reports success. */
  lemma FailedProbeReportedAsSuccess(code: int, stdout: Str, stderr: seq<Str>)
    requires code != 0
    ensures RunRootCommandsAsWritten(Exited(code, stdout, stderr))
    ensures !BatchSucceeded(Exited(code, stdout, stderr))
  {
  }

  /** The two results agree exactly on batches that exit with status 0 or throw. */
  lemma AsWrittenAgreesOnCleanExit(o: BatchOutcome)
    ensures RunRootCommandsAsWritten(o) == BatchSucceeded(o) <==> (o.Threw? || o.code == 0)
  {
  }

  /** A command sent to the shell: a single `su -c` process that is waited
      for, or a batch written to one `su` process's standard input. */
  datatype Command = Exec(line: Str) | Batch(lines: seq<Str>)

  /** The oracle. `udc(n)` is the content of the UDC file at its n-th read,
      trimmed as `getUdcContent()` returns it; `batch(n)` is the outcome of the
      n-th batch; `controllers(n)` is the list `getAvailableUdcControllers()`
      returns at its n-th call (its parse of the `ls /sys/class/udc` output is
      `GadgetStatus.AvailableControllers`); `query(c)` is the output of the
      one-shot command `c` (a `getprop` or a `cat` of a string attribute),
      trimmed as every caller trims it. */
  datatype Env = Env(udc: nat -> Str, batch: nat -> BatchOutcome, controllers: nat -> seq<Str>, query: Str -> Str)

  /** How many UDC reads, batches and listings have been consumed, and every
      command sent so far. */
  datatype World = World(udcReads: nat, batchesRun: nat, listingsRead: nat, log: seq<Command>)

  /** `getUdcContent()` at the next read. */
  function UdcAt(env: Env, w: World): Str {
    env.udc(w.udcReads)
  }

  function AfterUdcRead(w: World): World {
    w.(udcReads := w.udcReads + 1)
  }

  /** Whether a command or a sequence of them succeeded, and the world after. */
  datatype Step = Step(ok: bool, world: World)

  /** Whether the next batch succeeds. */
  function BatchOk(env: Env, w: World): bool {
    BatchSucceeded(env.batch(w.batchesRun))
  }

  function AfterBatch(w: World, lines: seq<Str>): World {
    w.(batchesRun := w.batchesRun + 1, log := w.log + [Batch(lines)])
  }

  /** `runRootCommands(lines)` (or `runRootCommand` for one line) at `w`. */
  function Run(env: Env, w: World, lines: seq<Str>): (r: Step)
    ensures r.ok <==> BatchSucceeded(env.batch(w.batchesRun))
    ensures r.world == AfterBatch(w, lines)
  {
    Step(BatchOk(env, w), AfterBatch(w, lines))
  }

  /** The standard output of a batch, empty when it threw. */
  function BatchStdout(o: BatchOutcome): Str {
    if o.Exited? then o.stdout else []
  }

  /** The probe for a regular file. */
  function FileProbe(path: Str): Str {
    "test -f " + path
  }

  function AfterExec(w: World, line: Str): World {
    w.(log := w.log + [Exec(line)])
  }

  function ControllersAt(env: Env, w: World): seq<Str> {
    env.controllers(w.listingsRead)
  }

  function AfterListing(w: World): World {
    w.(listingsRead := w.listingsRead + 1)
  }

  /** The shell as the program sees it: it answers from `env` and its world
      advances with every command. */
  class Shell {
    const env: Env
    var world: World

    constructor(env: Env, world: World)
      ensures this.env == env && this.world == world
    {
      this.env := env;
      this.world := world;
    }

    /** `getUdcContent()`. */
    method ReadUdc() returns (content: Str)
      modifies this
      ensures content == UdcAt(env, old(world)) && world == AfterUdcRead(old(world))
    {
      content := UdcAt(env, world);
      world := AfterUdcRead(world);
    }

    /** `runRootCommands(lines, ...)`, with the result that checks the exit code. */
    method RunRootCommands(lines: seq<Str>) returns (ok: bool)
      modifies this
      ensures ok == BatchOk(env, old(world)) && world == AfterBatch(old(world), lines)
    {
      ok := BatchOk(env, world);
      world := AfterBatch(world, lines);
    }

    /** A batch whose standard output the caller reads. */
    method RunRootCommandsOutput(lines: seq<Str>) returns (ok: bool, output: Str)
      modifies this
      ensures ok == BatchOk(env, old(world)) && world == AfterBatch(old(world), lines)
      ensures output == BatchStdout(env.batch(old(world).batchesRun))
    {
      ok := BatchOk(env, world);
      output := BatchStdout(env.batch(world.batchesRun));
      world := AfterBatch(world, lines);
    }

    /** `Runtime.exec(arrayOf("su", "-c", line)).waitFor()`, result ignored. */
    method ExecAndWait(line: Str)
      modifies this
      ensures world == AfterExec(old(world), line)
    {
      world := AfterExec(world, line);
    }

    /** `getAvailableUdcControllers()`. */
    method AvailableUdcControllers() returns (controllers: seq<Str>)
      modifies this
      ensures controllers == ControllersAt(env, old(world)) && world == AfterListing(old(world))
    {
      controllers := ControllersAt(env, world);
      world := AfterListing(world);
    }
  }
}
