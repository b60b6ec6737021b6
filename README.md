# USB Audio Bridge: a verified model of its control logic

USB Audio Bridge turns a rooted Android phone into a USB Audio Class 2.0
gadget. A host computer then sees the phone as a sound card. Audio the host
plays comes out of the phone's speaker, and the phone's microphone can be
recorded by the host.

This project models the parts of the app that make decisions, and proves
what those decisions guarantee:

- **The gadget manager** (`UsbGadgetManager.kt`). It writes the configfs
  gadget through a root shell. The model covers:
  - the USB identity chosen for each sample rate;
  - whether ADB can be preserved;
  - the soft and hard unbind of the UDC (USB device controller);
  - the ordered list of configfs commands;
  - the choice of controller and the bounded bind retry;
  - the backup and restore of the device's own identity strings;
  - the stopped USB HAL service;
  - the SELinux policy fallbacks;
  - parsing of the gadget status.

  The shell and the kernel behind it form an oracle (`RootShell.Env`). It
  answers the n-th read of the UDC file, the n-th command batch, the n-th
  controller listing and any one-shot query. A `RootShell.World` counts how
  far each answer stream has been consumed and logs every command sent, in
  order. Each operation is a method on a `Shell` object, proved equal to a
  step function over that world. The decisions are then proved about the
  step functions.
- **The audio service** (`AudioService.kt`). The service's fields are a
  `BridgeSession.Session`: the running flag, the last native state, the
  last error message, the six saved start parameters and the gadget flag.
  The session also keeps a log of what the service emits: native start/stop
  calls, state and stats broadcasts, notifications, and gadget teardown
  requests. Every method of the `AudioService` class is proved equal to a
  step function. A fold over input events proves two things:
  - an error stays visible until an explicit stop;
  - the running flag is true exactly when the last native call was a start.
- **The SPSC ring buffer** (`ring_buffer.h`), as a class over a fixed byte
  array. It has monotone `head`/`tail` counters and a ghost FIFO
  `Contents`. The model is single-threaded.
- **The native bridge's control rules** (`bridge.cpp`):
  - the capture period candidates and the rate fallback;
  - the open-retry phase;
  - the consecutive read-error counter;
  - buffer sizing, engine selection and burst fallback;
  - the streaming/idling loop with its stats cadence;
  - what each direction mask reports.

  Time and read results are abstract inputs.
- **The preference store** (`SettingsRepository.kt`): one map with typed
  keys and the source's defaults.
- **The activity's state reducers** (`MainActivity.kt`): the receivers, the
  toggles, the direction chips and the bounded log.
- **The playback-device classification** (`PlaybackDeviceHelper.kt`).

Where the specification and the code disagree, the model follows the code.
The "## Findings" table lists the cases where the code looks wrong itself.
For each one there is a member modelling the code as written and a corrected
member. The corrected member is the one the rest of the model uses.

Inputs the program gets from outside become parameters:

- `usbPlugged` stands for `checkUsbConnected()`.
- `cardId` stands for the result of `findAndPrepareCard()`.
- `time` stands for the formatted clock in `appendLog`.
- The engine open result, the reported burst and the loop ticks stand for
  the audio engines and the steady clock.

## Model

Step functions and predicates without a contract of their own (`GadgetLifecycle.DisableUnbindStep`, `UdcControl.AfterAttempts`, `UdcControl.MismatchesFirst`, `UdcControl.BoundOnAttempt`, `UdcControl.BindsWithin`, `SePolicy.AllOk`, `SePolicy.InlineStart`) have no row: they are the vocabulary of the contracts below, and the rows of the methods and lemmas that use them state what they mean.

| member | source | states |
|---|---|---|
| GadgetIdentity.PidForRate | app/src/main/java/com/flopster101/usbaudiobridge/UsbGadgetManager.kt:225-236 | Any rate outside the seven known rates gets PID 0x010B; every PID has the form 0x01xx. |
| GadgetIdentity.PidInjective | app/src/main/java/com/flopster101/usbaudiobridge/UsbGadgetManager.kt:225-236 | Over the seven known rates the PID table is injective and never yields the fallback 0x010B. |
| GadgetIdentity.BcdDeviceForRate | app/src/main/java/com/flopster101/usbaudiobridge/UsbGadgetManager.kt:238-249 | Any unknown rate gets bcdDevice 0x0200; every value has the form 0x0xxx. |
| GadgetIdentity.BcdInjective | app/src/main/java/com/flopster101/usbaudiobridge/UsbGadgetManager.kt:238-249 | Over the seven known rates the bcdDevice table is injective and never yields the fallback 0x0200. |
| GadgetIdentity.SerialInjective | app/src/main/java/com/flopster101/usbaudiobridge/UsbGadgetManager.kt:251-253 | The serial "UAM-SR<rate>-<device serial>" determines both the rate and the device serial. |
| GadgetIdentity.ChooseBackup | app/src/main/java/com/flopster101/usbaudiobridge/UsbGadgetManager.kt:309-325 | The backup is either the configfs strings or the property strings. The configfs strings are chosen only when usable: a non-empty product without "Audio Bridge", and a manufacturer without "FloppyKernel". An empty product therefore always falls back to the properties. |
| GadgetIdentity.OwnIdentityNeverBackedUp | app/src/main/java/com/flopster101/usbaudiobridge/UsbGadgetManager.kt:309-325 | The gadget's own product or manufacturer string is never recorded as the original identity. |
| GadgetStatus.UdcReleasedMeaning | app/src/main/java/com/flopster101/usbaudiobridge/UsbGadgetManager.kt:213-218 | The UDC counts as released iff its trimmed content is empty or "none". |
| GadgetStatus.NormalizeFunction | app/src/main/java/com/flopster101/usbaudiobridge/UsbGadgetManager.kt:780-787 | Names starting with "uac2" become "uac2"; names starting with "ffs." lose exactly that prefix; all others are unchanged. |
| GadgetStatus.NormalizeAll | app/src/main/java/com/flopster101/usbaudiobridge/UsbGadgetManager.kt:777-787 | The normalised list has the same length and order, each entry the trimmed and normalised original. |
| GadgetStatus.ActiveFunctions | app/src/main/java/com/flopster101/usbaudiobridge/UsbGadgetManager.kt:775-790 | Empty output gives no functions. Each reported function is the normalised name of a non-blank line of the output, and every non-blank line is reported. |
| GadgetStatus.NormalizeExamples | app/src/main/java/com/flopster101/usbaudiobridge/UsbGadgetManager.kt:780-787 | "uac2.0" shows as "uac2", "ffs.adb" as "adb", and "mtp.gs0" unchanged. |
| GadgetStatus.NormalizeAllAppend | app/src/main/java/com/flopster101/usbaudiobridge/UsbGadgetManager.kt:777-787 | Normalisation distributes over concatenation, so it preserves list order. |
| GadgetStatus.GetGadgetStatus | app/src/main/java/com/flopster101/usbaudiobridge/UsbGadgetManager.kt:763-805 | A failed read gives ("--", [], unbound); otherwise the status is bound only with the trimmed UDC name, and an unbound status always shows "--". |
| GadgetStatus.BoundIffNotReleased | app/src/main/java/com/flopster101/usbaudiobridge/UsbGadgetManager.kt:763-770 | The status reports bound exactly when the UDC is not released. |
| GadgetStatus.AvailableControllers | app/src/main/java/com/flopster101/usbaudiobridge/UsbGadgetManager.kt:453-461 | Empty output gives no controllers. Every entry is a non-blank line of the trimmed `ls` output, and every non-blank line is listed. |
| GadgetStatus.FirstNonDummy | app/src/main/java/com/flopster101/usbaudiobridge/UsbGadgetManager.kt:468 | The index found is the first entry not containing "dummy" in any case, or the list length when there is none. |
| GadgetStatus.PreferredController | app/src/main/java/com/flopster101/usbaudiobridge/UsbGadgetManager.kt:463-470 | None iff the list is empty; otherwise the first non-dummy entry, or the first entry when all are dummies. |
| GadgetStatus.PreferredUdcController | app/src/main/java/com/flopster101/usbaudiobridge/UsbGadgetManager.kt:463-470 | The preferred controller is None iff no controller is listed, and is always a listed, non-blank name. |
| RootShell.ForwardedErrors | app/src/main/java/com/flopster101/usbaudiobridge/UsbGadgetManager.kt:824-833 | Exactly the non-benign stderr lines reach the log callback, each prefixed "[Shell Err] ". |
| RootShell.BenignNeverForwarded | app/src/main/java/com/flopster101/usbaudiobridge/UsbGadgetManager.kt:826-830 | A line containing "No such file", "Read-only", "File exists" or "Directory not empty" is never forwarded, whatever else the batch wrote. |
| RootShell.ForwardedErrorsAppend | app/src/main/java/com/flopster101/usbaudiobridge/UsbGadgetManager.kt:824-833 | Forwarding keeps the order of the stderr lines. |
| RootShell.BatchMessages | app/src/main/java/com/flopster101/usbaudiobridge/UsbGadgetManager.kt:824-850 | Every message starts with '['. A batch that throws logs one message: the command-failed prefix followed by the exception message, which can be read back after it. A batch that exits logs exactly the non-benign stderr lines, each with the stderr prefix. |
| RootShell.RunRootCommandsAsWritten | app/src/main/java/com/flopster101/usbaudiobridge/UsbGadgetManager.kt:807-852 | As written, a batch reports failure exactly when it logged the command-failed message, i.e. only when it threw, whatever its exit status. |
| RootShell.CorrectedNarrowsAsWritten | app/src/main/java/com/flopster101/usbaudiobridge/UsbGadgetManager.kt:807-852 | The corrected result `BatchSucceeded` holds exactly when the result as written holds and the batch exited with status 0. |
| RootShell.FailedProbeReportedAsSuccess | app/src/main/java/com/flopster101/usbaudiobridge/UsbGadgetManager.kt:840-851 | A batch exiting with a non-zero status is reported as a success as written, but is a failure under the corrected result. |
| RootShell.AsWrittenAgreesOnCleanExit | app/src/main/java/com/flopster101/usbaudiobridge/UsbGadgetManager.kt:807-852 | The two results agree exactly on batches that throw or exit with status 0. |
| RootShell.Run | app/src/main/java/com/flopster101/usbaudiobridge/UsbGadgetManager.kt:807-852 | Running a batch consumes one batch answer, logs the batch, and succeeds iff that answer is a clean exit. |
| RootShell.Shell.ReadUdc | app/src/main/java/com/flopster101/usbaudiobridge/UsbGadgetManager.kt:220-223 | Returns the next UDC answer and consumes exactly one UDC read. |
| RootShell.Shell.RunRootCommands | app/src/main/java/com/flopster101/usbaudiobridge/UsbGadgetManager.kt:807-852 | Returns whether the next batch exited with status 0, consumes it and logs the batch. |
| RootShell.Shell.RunRootCommandsOutput | app/src/main/java/com/flopster101/usbaudiobridge/UsbGadgetManager.kt:807-852 | Also returns the batch's standard output, empty when it threw. |
| RootShell.Shell.ExecAndWait | app/src/main/java/com/flopster101/usbaudiobridge/UsbGadgetManager.kt:159-176 | Logs the one-shot command and consumes no answer. |
| RootShell.Shell.AvailableUdcControllers | app/src/main/java/com/flopster101/usbaudiobridge/UsbGadgetManager.kt:453-461 | Returns the next controller listing and consumes exactly one listing. |
| UdcControl.PollStep | app/src/main/java/com/flopster101/usbaudiobridge/UsbGadgetManager.kt:166-173 | Polling n times reads the UDC file at most n times and changes nothing else. |
| UdcControl.PollMeaning | app/src/main/java/com/flopster101/usbaudiobridge/UsbGadgetManager.kt:166-173 | A poll succeeds iff one of its n reads shows a released UDC; it stops at the first such read and otherwise reads exactly n times. |
| UdcControl.PollUntilReleased | app/src/main/java/com/flopster101/usbaudiobridge/UsbGadgetManager.kt:166-173 | The polling loop equals the poll step function. |
| UdcControl.SoftUnbindMeaning | app/src/main/java/com/flopster101/usbaudiobridge/UsbGadgetManager.kt:150-190 | Soft unbind succeeds iff one of its first 13 reads shows a released UDC. It runs no batch. On failure it has written chmod, '' and 'none' and read the file 14 times. |
| UdcControl.SoftUnbind | app/src/main/java/com/flopster101/usbaudiobridge/UsbGadgetManager.kt:150-190 | The soft unbind method equals its step function. |
| UdcControl.HardUnbindMeaning | app/src/main/java/com/flopster101/usbaudiobridge/UsbGadgetManager.kt:196-211 | Hard unbind sets `sys.usb.config none` once and succeeds iff one of the next 10 reads shows a released UDC. |
| UdcControl.HardUnbind | app/src/main/java/com/flopster101/usbaudiobridge/UsbGadgetManager.kt:196-211 | The hard unbind method equals its step function. |
| UdcControl.MtkStep | app/src/main/java/com/flopster101/usbaudiobridge/UsbGadgetManager.kt:87-100 | The MTK mode only appends batches to the log; it reads no UDC and lists no controller. |
| UdcControl.MtkOnePath | app/src/main/java/com/flopster101/usbaudiobridge/UsbGadgetManager.kt:93-98 | Each mode path is written only when its probe succeeds. |
| UdcControl.ConfigureMtkMode | app/src/main/java/com/flopster101/usbaudiobridge/UsbGadgetManager.kt:87-100 | The method equals the step function, with "1" to enable and "0" to disable. |
| UdcControl.BindOnce | app/src/main/java/com/flopster101/usbaudiobridge/UsbGadgetManager.kt:474-500 | One attempt gives up exactly when no controller is listed. It lists the controllers once. When it binds, the last command written bound the name the UDC file reads back. |
| UdcControl.BindStep | app/src/main/java/com/flopster101/usbaudiobridge/UsbGadgetManager.kt:472-507 | No controller ends the retry at once with failure. Success means the last write bound the very name read back. At most 5 listings are made. |
| UdcControl.BindStepSucceedsIff | app/src/main/java/com/flopster101/usbaudiobridge/UsbGadgetManager.kt:472-507 | The retry succeeds exactly when, among the attempts left, one reads back the name it wrote and every attempt before it read back another name. The converse covers the cases where no controller is listed and where all five attempts mismatch. |
| UdcControl.BindAttempt | app/src/main/java/com/flopster101/usbaudiobridge/UsbGadgetManager.kt:474-500 | One pass of the retry loop: a return from the loop matches the bind step function for that attempt, and otherwise the state left is where the remaining attempts (or the final failure) start. |
| UdcControl.BindGadgetWithRetry | app/src/main/java/com/flopster101/usbaudiobridge/UsbGadgetManager.kt:472-507 | The retry loop equals the bind step function from attempt 1. It returns true exactly when one of the five attempts is the first to read back the name it wrote. |
| SePolicy.ProbeBatches | app/src/main/java/com/flopster101/usbaudiobridge/UsbGadgetManager.kt:616-622 | The probes are one `test -f` batch per path, in order. |
| SePolicy.KsuStep | app/src/main/java/com/flopster101/usbaudiobridge/UsbGadgetManager.kt:585-600 | KernelSU applies the rules iff the probe, the file write and `ksud sepolicy apply` all succeed, and then it removes the rules file. |
| SePolicy.FirstFileStep | app/src/main/java/com/flopster101/usbaudiobridge/UsbGadgetManager.kt:616-622 | The path search only runs probe batches, at most one per path. |
| SePolicy.FirstFileMeaning | app/src/main/java/com/flopster101/usbaudiobridge/UsbGadgetManager.kt:616-622 | A path is found iff some probe succeeds. The found path is the first such one. Without a hit every probe ran. |
| SePolicy.FirstFileProbes | app/src/main/java/com/flopster101/usbaudiobridge/UsbGadgetManager.kt:616-622 | The search logs one `test -f` batch per path, in order, from the first path up to the one found. Nothing else is logged. |
| SePolicy.MessagesStartWithBracket | app/src/main/java/com/flopster101/usbaudiobridge/UsbGadgetManager.kt:824-850 | The trimmed concatenation of a batch's log messages, which the source uses as the Magisk directory, is empty or starts with '['. |
| SePolicy.MagiskTmpDirAsWritten | app/src/main/java/com/flopster101/usbaudiobridge/UsbGadgetManager.kt:627-629 | As written, the tmpfs directory is taken from the callback messages, so it is empty or starts with '['. |
| SePolicy.TmpfsDirLost | app/src/main/java/com/flopster101/usbaudiobridge/UsbGadgetManager.kt:627-635 | With `2>/dev/null`, a `magisk --path` that prints a directory yields an empty directory as written, and that directory under the corrected reading of stdout. |
| SePolicy.TmpfsStep | app/src/main/java/com/flopster101/usbaudiobridge/UsbGadgetManager.kt:624-638 | Corrected tmpfs search: a binary is found iff `magisk --path` succeeds with a non-empty directory and `<dir>/magiskpolicy` exists. |
| SePolicy.MagiskBinaryStep | app/src/main/java/com/flopster101/usbaudiobridge/UsbGadgetManager.kt:606-638 | The binary search runs only batches: the listed probes, then the tmpfs query. |
| SePolicy.RulesStep | app/src/main/java/com/flopster101/usbaudiobridge/UsbGadgetManager.kt:656-668 | Every rule is applied, each in its own batch, and the result is true iff all of them succeeded. |
| SePolicy.MagiskStep | app/src/main/java/com/flopster101/usbaudiobridge/UsbGadgetManager.kt:640-678 | The file method wins iff the write and `--live --apply` succeed. The inline method wins iff the file method failed and every rule succeeds, counted from right after the failed write or the failed `--apply`. Any success ends with removing the rules file. |
| SePolicy.MagiskInlineStep | app/src/main/java/com/flopster101/usbaudiobridge/UsbGadgetManager.kt:653-673 | The rules one at a time win iff every one of them succeeds; a failed rule does not stop the others, and success ends with removing the rules file. |
| SePolicy.SuPolicyStep | app/src/main/java/com/flopster101/usbaudiobridge/UsbGadgetManager.kt:680-696 | Legacy supolicy succeeds iff `which supolicy` and every inline rule succeed. |
| SePolicy.LegacyStep | app/src/main/java/com/flopster101/usbaudiobridge/UsbGadgetManager.kt:680-701 | After Magisk fails, only supolicy or no tool can succeed, and the rules file is always removed last. |
| SePolicy.MagiskThenLegacyStep | app/src/main/java/com/flopster101/usbaudiobridge/UsbGadgetManager.kt:640-701 | With the Magisk binary found, a Magisk success is the result and SuperSU is tried only after Magisk failed; KernelSU is never the result and the rules file is always removed last. |
| SePolicy.AfterKernelSuStep | app/src/main/java/com/flopster101/usbaudiobridge/UsbGadgetManager.kt:602-701 | After KernelSU fails, Magisk can win only if its binary was found. A Magisk success is the result, so SuperSU is tried only when no binary was found or Magisk failed. The run always ends by removing the rules file. |
| SePolicy.PolicyStep | app/src/main/java/com/flopster101/usbaudiobridge/UsbGadgetManager.kt:573-702 | The first tool that applies the rules wins, in the order KernelSU, Magisk, SuperSU. KernelSU wins iff its step succeeds. After a KernelSU failure, a Magisk success with the binary found is the result, and SuperSU wins only when KernelSU failed and Magisk was absent or failed. Only batches run, and the last one always removes the rules file. |
| SePolicy.ApplySeLinuxPolicy | app/src/main/java/com/flopster101/usbaudiobridge/UsbGadgetManager.kt:573-702 | The method equals the policy step function. |
| SePolicy.TryKernelSu | app/src/main/java/com/flopster101/usbaudiobridge/UsbGadgetManager.kt:585-600 | The KernelSU attempt equals its step function. |
| SePolicy.FindFirstFile | app/src/main/java/com/flopster101/usbaudiobridge/UsbGadgetManager.kt:616-622 | The search loop with its `break` equals the first-file step. |
| SePolicy.FindMagiskPolicy | app/src/main/java/com/flopster101/usbaudiobridge/UsbGadgetManager.kt:606-638 | The binary search equals its step function. |
| SePolicy.ApplyRules | app/src/main/java/com/flopster101/usbaudiobridge/UsbGadgetManager.kt:656-668 | The rule loop with `allRulesApplied` equals the rules step function. |
| SePolicy.TryMagisk | app/src/main/java/com/flopster101/usbaudiobridge/UsbGadgetManager.kt:640-678 | The Magisk attempt equals its step function. |
| SePolicy.TrySuPolicy | app/src/main/java/com/flopster101/usbaudiobridge/UsbGadgetManager.kt:680-696 | The SuperSU attempt equals its step function. |
| GadgetLifecycle.AdbProbeStep | app/src/main/java/com/flopster101/usbaudiobridge/UsbGadgetManager.kt:274-288 | Without keepAdb nothing is probed. With it, ffs.adb is probed once. ADB counts as active only if ffs.adb exists and `sys.usb.config` contains "adb". |
| GadgetLifecycle.PreserveIffAllThree | app/src/main/java/com/flopster101/usbaudiobridge/UsbGadgetManager.kt:339 | ADB needs preserving exactly when keepAdb holds, ADB is active and ffs.adb exists. |
| GadgetLifecycle.FirstRunningHal | app/src/main/java/com/flopster101/usbaudiobridge/UsbGadgetManager.kt:62-85 | The service found is the first candidate whose status is "running" or "restarting", and None iff there is none. |
| GadgetLifecycle.StopHalStep | app/src/main/java/com/flopster101/usbaudiobridge/UsbGadgetManager.kt:102-114 | Only a running service is stopped. Its name is saved, with a repository, only when `ctl.stop` succeeded. Nothing else in the preferences changes. |
| GadgetLifecycle.StartHalStep | app/src/main/java/com/flopster101/usbaudiobridge/UsbGadgetManager.kt:116-123 | With a repository, the remembered service is restarted with `ctl.start`, and afterwards no service is remembered. Without a repository nothing happens. |
| GadgetLifecycle.BackupStep | app/src/main/java/com/flopster101/usbaudiobridge/UsbGadgetManager.kt:293-333 | With a complete saved identity, its serial is reused and nothing is saved. Otherwise the chosen identity is saved and its serial used. Without a repository the serial is "UNKNOWN". |
| GadgetLifecycle.BackupOnce | app/src/main/java/com/flopster101/usbaudiobridge/UsbGadgetManager.kt:296-333 | After one backup a complete triple is saved, so a second backup keeps it unchanged. |
| GadgetLifecycle.UnbindPhase | app/src/main/java/com/flopster101/usbaudiobridge/UsbGadgetManager.kt:341-359 | A failed soft unbind aborts when ADB must be preserved, else falls back to the hard unbind; enabling proceeds iff one of them released the UDC. |
| GadgetLifecycle.PreserveAbortRunsNoBatch | app/src/main/java/com/flopster101/usbaudiobridge/UsbGadgetManager.kt:344-351 | Preserving ADB and failing the soft unbind aborts with no batch run. |
| GadgetLifecycle.Link | app/src/main/java/com/flopster101/usbaudiobridge/UsbGadgetManager.kt:420-424 | Every link command is recognised as a link. |
| GadgetLifecycle.BaseCommands | app/src/main/java/com/flopster101/usbaudiobridge/UsbGadgetManager.kt:384-415 | The 19 commands before the configuration string contain no link. |
| GadgetLifecycle.ConfigCommandsShape | app/src/main/java/com/flopster101/usbaudiobridge/UsbGadgetManager.kt:384-425 | With ADB available, the list ends in "USB Audio + ADB", f1 → uac2.0 and f2 → ffs.adb (22 commands); otherwise in "USB Audio" and f1 only (21 commands). |
| GadgetLifecycle.LinksComeLast | app/src/main/java/com/flopster101/usbaudiobridge/UsbGadgetManager.kt:417-425 | The links are exactly the commands after the configuration string. |
| GadgetLifecycle.AdbLinkedIffAvailable | app/src/main/java/com/flopster101/usbaudiobridge/UsbGadgetManager.kt:418-425 | uac2.0 is always linked, and ffs.adb exactly when ADB is available. |
| GadgetLifecycle.AdbAvailableStep | app/src/main/java/com/flopster101/usbaudiobridge/UsbGadgetManager.kt:370-379 | ADB can be available only when the first soft unbind succeeded and preservation was needed, and then it is the ffs.adb re-probe. |
| GadgetLifecycle.BindPhase | app/src/main/java/com/flopster101/usbaudiobridge/UsbGadgetManager.kt:434-451 | Enabling succeeds iff the bind retry does, and then marks `sys.usb.state uac2`. |
| GadgetLifecycle.PreserveFailureAbortsEarly | app/src/main/java/com/flopster101/usbaudiobridge/UsbGadgetManager.kt:339-351 | With ADB to preserve, a failed soft unbind makes enabling fail before any configfs command runs. |
| GadgetLifecycle.HardFailureAborts | app/src/main/java/com/flopster101/usbaudiobridge/UsbGadgetManager.kt:353-358 | Without ADB to preserve, failing both the soft and the hard unbind makes enabling fail right after the hard unbind. |
| GadgetLifecycle.EnableSuccessMeansBound | app/src/main/java/com/flopster101/usbaudiobridge/UsbGadgetManager.kt:434-447 | When enabling succeeds, its last command is `setprop sys.usb.state uac2`, which runs only after a successful bind. |
| GadgetLifecycle.RestoreIdentityStep | app/src/main/java/com/flopster101/usbaudiobridge/UsbGadgetManager.kt:523-545 | A complete saved identity is written back and then cleared; otherwise the three strings are blanked and the preferences unchanged. |
| GadgetLifecycle.RestoredExactlyOnce | app/src/main/java/com/flopster101/usbaudiobridge/UsbGadgetManager.kt:523-545 | The saved identity is written back once; a second restore finds no triple and blanks the strings. |
| GadgetLifecycle.MtkResetStep | app/src/main/java/com/flopster101/usbaudiobridge/UsbGadgetManager.kt:554-562 | The MTK reset lists the controllers once and reads no UDC. |
| GadgetLifecycle.DisableStep | app/src/main/java/com/flopster101/usbaudiobridge/UsbGadgetManager.kt:515-571 | Disabling always ends with no remembered HAL service. |
| GadgetLifecycle.DisableForgetsIdentity | app/src/main/java/com/flopster101/usbaudiobridge/UsbGadgetManager.kt:523-545 | Disabling with a complete saved identity leaves no saved identity. |
| GadgetLifecycle.StopHalKeepsIdentity | app/src/main/java/com/flopster101/usbaudiobridge/UsbGadgetManager.kt:102-114 | Stopping the HAL service writes only the service key: the saved identity reads as before. |
| GadgetLifecycle.PreludeSavesChosen | app/src/main/java/com/flopster101/usbaudiobridge/UsbGadgetManager.kt:290-333 | With no complete saved identity, the steps before unbinding save the chosen identity as the original one. |
| GadgetLifecycle.DisableKeepsRestoreBatch | app/src/main/java/com/flopster101/usbaudiobridge/UsbGadgetManager.kt:515-571 | The cleanup, MTK reset, ADB hand-back and HAL restart only append to the log after the identity batch. |
| GadgetLifecycle.DisableWritesSaved | app/src/main/java/com/flopster101/usbaudiobridge/UsbGadgetManager.kt:515-545 | With a complete saved identity, disabling writes exactly those three strings right after its unbind. It then leaves no saved identity. |
| GadgetLifecycle.EnableThenDisableRestores | app/src/main/java/com/flopster101/usbaudiobridge/UsbGadgetManager.kt:290-333 | Round trip: enabling with no saved identity saves the chosen strings, which are the current ones whenever those are usable. The following disable writes exactly those strings back and clears the backup. |
| GadgetLifecycle.FirstRunningHalAt | app/src/main/java/com/flopster101/usbaudiobridge/UsbGadgetManager.kt:62-85 | The search from a candidate on returns that candidate when it runs, and otherwise continues with the next one. |
| GadgetLifecycle.FindRunningUsbHalService | app/src/main/java/com/flopster101/usbaudiobridge/UsbGadgetManager.kt:62-85 | The method returns the first running candidate. |
| GadgetLifecycle.ProbeAdb | app/src/main/java/com/flopster101/usbaudiobridge/UsbGadgetManager.kt:274-288 | The keep-ADB check equals its step function. |
| GadgetLifecycle.StopUsbHal | app/src/main/java/com/flopster101/usbaudiobridge/UsbGadgetManager.kt:102-114 | The method equals the HAL stop step on the shell world and the repository's map. |
| GadgetLifecycle.StartUsbHal | app/src/main/java/com/flopster101/usbaudiobridge/UsbGadgetManager.kt:116-123 | The method equals the HAL restart step. |
| GadgetLifecycle.BackupIdentity | app/src/main/java/com/flopster101/usbaudiobridge/UsbGadgetManager.kt:293-333 | The method equals the backup step and returns its device serial. |
| GadgetLifecycle.Unbind | app/src/main/java/com/flopster101/usbaudiobridge/UsbGadgetManager.kt:341-359 | The method equals the unbind phase. |
| GadgetLifecycle.Configure | app/src/main/java/com/flopster101/usbaudiobridge/UsbGadgetManager.kt:366-451 | The method equals the configuration step. |
| GadgetLifecycle.EnableGadget | app/src/main/java/com/flopster101/usbaudiobridge/UsbGadgetManager.kt:266-452 | `enableGadgetInternal` equals the enable step on the shell world and the repository's map. |
| GadgetLifecycle.RestoreIdentity | app/src/main/java/com/flopster101/usbaudiobridge/UsbGadgetManager.kt:523-545 | The method equals the identity restore step. |
| GadgetLifecycle.ResetMtkMode | app/src/main/java/com/flopster101/usbaudiobridge/UsbGadgetManager.kt:554-562 | The method equals the MTK reset step. |
| GadgetLifecycle.DisableGadget | app/src/main/java/com/flopster101/usbaudiobridge/UsbGadgetManager.kt:515-571 | `disableGadgetInternal` equals the disable step. |
| Settings.KeyOfName | app/src/main/java/com/flopster101/usbaudiobridge/SettingsRepository.kt:8-101 | Every setting is recovered from its key string, so no two settings share a key. |
| Settings.NameInjective | app/src/main/java/com/flopster101/usbaudiobridge/SettingsRepository.kt:8-101 | Equal key strings mean the same setting. |
| Settings.NamesDiffer | app/src/main/java/com/flopster101/usbaudiobridge/SettingsRepository.kt:8-101 | Different settings have different key strings. |
| Settings.Put | app/src/main/java/com/flopster101/usbaudiobridge/SettingsRepository.kt:8-97 | Saving a value of the key's type keeps every key holding a value of its own type. |
| Settings.Remove | app/src/main/java/com/flopster101/usbaudiobridge/SettingsRepository.kt:86-97 | Removing a key keeps every other key well typed. |
| Settings.SaveIdentity | app/src/main/java/com/flopster101/usbaudiobridge/SettingsRepository.kt:71-77 | Saving the three identity strings keeps the store well typed. |
| Settings.ClearIdentity | app/src/main/java/com/flopster101/usbaudiobridge/SettingsRepository.kt:86-92 | Clearing the identity keeps the store well typed. |
| Settings.PutThenRead | app/src/main/java/com/flopster101/usbaudiobridge/SettingsRepository.kt:8-69 | A saved value reads back from its getter, and every other setting reads as before. |
| Settings.RemoveThenRead | app/src/main/java/com/flopster101/usbaudiobridge/SettingsRepository.kt:86-97 | A removed key is unset (a string reads null), and every other setting reads as before. |
| Settings.ClearedReadsDefaults | app/src/main/java/com/flopster101/usbaudiobridge/SettingsRepository.kt:8-69 | On a cleared store every getter returns the source's default, and every string reads null. |
| Settings.IdentityRoundTrip | app/src/main/java/com/flopster101/usbaudiobridge/SettingsRepository.kt:71-92 | Saving the identity reads it back; clearing it reads three nulls; neither touches another key. |
| Settings.KernelNoticeOnce | app/src/main/java/com/flopster101/usbaudiobridge/SettingsRepository.kt:47-48 | The notice shows on a fresh store, never again once dismissed, and no other save changes that. |
| Settings.SettingsRepository.GetIntSetting | app/src/main/java/com/flopster101/usbaudiobridge/SettingsRepository.kt:11-66 | An unset integer setting returns its default. |
| Settings.SettingsRepository.GetBoolSetting | app/src/main/java/com/flopster101/usbaudiobridge/SettingsRepository.kt:26-69 | An unset boolean setting returns its default. |
| Settings.SettingsRepository.GetBufferSizeSetting | app/src/main/java/com/flopster101/usbaudiobridge/SettingsRepository.kt:9 | An unset buffer size returns 4800. |
| Settings.SettingsRepository.GetStrSetting | app/src/main/java/com/flopster101/usbaudiobridge/SettingsRepository.kt:79-96 | A string setting reads null iff its key is unset or does not hold a string. |
| Settings.SettingsRepository.GetOriginalIdentity | app/src/main/java/com/flopster101/usbaudiobridge/SettingsRepository.kt:79-84 | The identity triple is the three saved strings, each null when unset. |
| Settings.SettingsRepository.ShouldShowKernelNotice | app/src/main/java/com/flopster101/usbaudiobridge/SettingsRepository.kt:47 | The notice shows iff it was not dismissed. |
| Settings.SettingsRepository.SaveInt | app/src/main/java/com/flopster101/usbaudiobridge/SettingsRepository.kt:11-66 | The store becomes the old store with that one integer key put. |
| Settings.SettingsRepository.SaveBool | app/src/main/java/com/flopster101/usbaudiobridge/SettingsRepository.kt:26-69 | The store becomes the old store with that one boolean key put. |
| Settings.SettingsRepository.SaveBufferSize | app/src/main/java/com/flopster101/usbaudiobridge/SettingsRepository.kt:8 | The store becomes the old store with the buffer size put. |
| Settings.SettingsRepository.SetKernelNoticeDismissed | app/src/main/java/com/flopster101/usbaudiobridge/SettingsRepository.kt:48 | The dismissed flag is put, and the notice no longer shows. |
| Settings.SettingsRepository.SaveOriginalIdentity | app/src/main/java/com/flopster101/usbaudiobridge/SettingsRepository.kt:71-77 | The three strings are put and read back as the identity. |
| Settings.SettingsRepository.ClearOriginalIdentity | app/src/main/java/com/flopster101/usbaudiobridge/SettingsRepository.kt:86-92 | The three strings are removed, and the identity reads three nulls. |
| Settings.SettingsRepository.SaveStoppedHalService | app/src/main/java/com/flopster101/usbaudiobridge/SettingsRepository.kt:95-96 | The name is put and read back. |
| Settings.SettingsRepository.ClearStoppedHalService | app/src/main/java/com/flopster101/usbaudiobridge/SettingsRepository.kt:97 | The name is removed and reads null. |
| Settings.SettingsRepository.ResetDefaults | app/src/main/java/com/flopster101/usbaudiobridge/SettingsRepository.kt:99-101 | The store becomes empty, so every getter returns its default. |
| Ring.RunIsFifo | app/src/main/cpp/audio/ring_buffer.h:16-50 | Across any sequence of writes and reads, the bytes read out, followed by what is still queued, are the queued bytes followed by the bytes accepted, in order. |
| Ring.DeliveredIsPrefixOfAccepted | app/src/main/cpp/audio/ring_buffer.h:16-50 | Starting empty, the bytes read are a prefix of the bytes written. |
| Ring.RunBounded | app/src/main/cpp/audio/ring_buffer.h:16-50 | The fill level never exceeds the capacity. |
| Ring.RunSnoc | app/src/main/cpp/audio/ring_buffer.h:16-50 | Running two operation sequences one after the other composes the traces. |
| Ring.RingBuffer.Slot | app/src/main/cpp/audio/ring_buffer.h:22-40 | A counter's slot is its value modulo the size, always inside the buffer. |
| Ring.RingBuffer.constructor | app/src/main/cpp/audio/ring_buffer.h:14 | A new buffer of a positive size is empty, with head and tail at 0. |
| Ring.RingBuffer.Available | app/src/main/cpp/audio/ring_buffer.h:52-54 | `available()` is the number of queued bytes, at most the size. |
| Ring.RingBuffer.Write | app/src/main/cpp/audio/ring_buffer.h:16-32 | A write that fits appends exactly the data and advances only head by its length. One that does not fit returns 0 and changes nothing. |
| Ring.RingBuffer.Read | app/src/main/cpp/audio/ring_buffer.h:34-50 | A read of `count` queued bytes delivers the oldest `count` bytes and advances only tail. Fewer queued bytes return 0 and change nothing. No partial burst is ever delivered. |
| NativeBridge.CaptureRate | app/src/main/cpp/core/bridge.cpp:38-40 | A positive rate is kept and 0 falls back to 48000. A negative rate wraps to its unsigned value. |
| NativeBridge.BridgeRate | app/src/main/cpp/core/bridge.cpp:276 | The bridge rate is the requested rate when positive, else 48000. |
| NativeBridge.CaptureAndBridgeRates | app/src/main/cpp/core/bridge.cpp:38-40 | The capture and bridge threads agree on the rate for every non-negative request. A negative request opens the PCM at a huge unsigned rate but plays at 48000. |
| NativeBridge.CapturePeriods | app/src/main/cpp/core/bridge.cpp:43-48 | The candidate list is exactly [requested] when the request is positive; every candidate is positive. |
| NativeBridge.DeepBufferFrames | app/src/main/cpp/core/bridge.cpp:263 | The speaker buffer holds max(480, requested) frames. |
| NativeBridge.RingBytes | app/src/main/cpp/core/bridge.cpp:263-270 | The ring buffer holds four bytes per buffer frame. |
| NativeBridge.SelectEngine | app/src/main/cpp/core/bridge.cpp:279-289 | Engine 1 is OpenSL ES, 2 is AudioTrack, anything else AAudio. |
| NativeBridge.BurstFrames | app/src/main/cpp/core/bridge.cpp:316-318 | A positive reported burst is used, otherwise 192 frames. |
| NativeBridge.PrerollBytes | app/src/main/cpp/core/bridge.cpp:306-312 | The pre-roll threshold is 50 ms of frames, rounded down, in bytes. |
| NativeBridge.PrerollSleeps | app/src/main/cpp/core/bridge.cpp:306-312 | The wait sleeps at every check that sees the bridge running with less than the threshold buffered. It stops at the first check that sees it stopped or the threshold reached. |
| NativeBridge.PrerollWait | app/src/main/cpp/core/bridge.cpp:306-312 | The pre-roll loop sleeps exactly as often as that specification says, for the threshold it is given. |
| NativeBridge.RunningChecks | app/src/main/cpp/core/bridge.cpp:309 | Counts the checks at the front that see the bridge running; the next check, if any, sees it stopped. |
| NativeBridge.UnreachableThresholdWaitsForStop | app/src/main/cpp/core/bridge.cpp:309-312 | When the threshold is above what the ring holds, the wait sleeps at every running check, so only a stop ends it. |
| NativeBridge.PrerollHangsAsWritten | app/src/main/cpp/core/bridge.cpp:303-312 | With the 1024-frame buffer at 48 kHz the ring holds 4096 bytes and 50 ms is 9600 bytes, so as written the pre-roll sleeps at every check until the bridge is stopped. |
| NativeBridge.PrerollTarget | app/src/main/cpp/core/bridge.cpp:303-312 | The corrected threshold is never above the ring size nor above 50 ms, and is one of the two. |
| NativeBridge.CorrectedPrerollEnds | app/src/main/cpp/core/bridge.cpp:303-312 | The corrected threshold is the source's whenever the ring can hold 50 ms, and a check that sees a full ring ends the corrected wait. |
| NativeBridge.FirstReady | app/src/main/cpp/core/bridge.cpp:56-78 | The candidate found is the first ready one of its round. |
| NativeBridge.OpenSpecMeaning | app/src/main/cpp/core/bridge.cpp:50-95 | The PCM opens at the first ready candidate of the first round with one. Only rounds while running count, at most 20. It fails iff no round opened. |
| NativeBridge.OpenCapture | app/src/main/cpp/core/bridge.cpp:50-95 | The open loop equals the open specification. It reports CONNECTING, then WAITING on success, and publishes the period that opened. On failure no period is published and the read loop is not entered. Every path that does not enter the read loop clears `isRunning`, and a failed open always does. |
| NativeBridge.LastOk | app/src/main/cpp/core/bridge.cpp:104-157 | The index found is that of the last successful read. |
| NativeBridge.ErrorsAfterIsFailuresSinceLastOk | app/src/main/cpp/core/bridge.cpp:104-157 | The error counter equals the number of failed reads since the last successful one; EAGAIN and timeouts do not count. |
| NativeBridge.CaptureReadLoop | app/src/main/cpp/core/bridge.cpp:104-158 | The capture fails iff the counter exceeds 50, reporting "Capture Failed" once. The ring buffer sees exactly the writes of the successful reads before the exit. |
| NativeBridge.CaptureStep | app/src/main/cpp/core/bridge.cpp:104-157 | One more read event moves the counter by one step and the ring by at most one write. |
| NativeBridge.ConsumeRunInvariant | app/src/main/cpp/core/bridge.cpp:323-360 | The stats counter stays at most 500. Idle and resume reports strictly alternate, so idling is reported once per streaming-to-idle switch, and their parity gives the current mode. |
| NativeBridge.StatsCadence | app/src/main/cpp/core/bridge.cpp:355-359 | While streaming and receiving data, a stats report comes exactly when the counter passes 500. |
| NativeBridge.ResumeStep | app/src/main/cpp/core/bridge.cpp:331-339 | Data arriving while idle reports state 3 and then stats, and restarts the counter. |
| NativeBridge.IdleStep | app/src/main/cpp/core/bridge.cpp:343-351 | A gap of more than 1000 ms while streaming reports state 4 once; it does not repeat while no data arrives. |
| NativeBridge.ConsumeLoop | app/src/main/cpp/core/bridge.cpp:322-360 | The consume loop equals the fold of the consume step over the ticks. |
| NativeBridge.TaskEndsStopped | app/src/main/cpp/core/bridge.cpp:248-372 | A task whose engine fails to open reports nothing. Every other task ends with state 0. |
| NativeBridge.BridgeTask | app/src/main/cpp/core/bridge.cpp:230-382 | The mic thread is started iff bit 1 is set. Without the speaker bit there is no ring or engine, and the reports are [3, 0] or [0]. With it, the ring has the derived size and the selected engine is opened. Once the engine opens, the pre-roll wait runs, with the corrected threshold, before the first stats report. |
| BridgeSession.StateText | app/src/main/java/com/flopster101/usbaudiobridge/AudioService.kt:618-631 | The status text is "Inactive" exactly for codes outside 1..5. |
| BridgeSession.StateTextDistinct | app/src/main/java/com/flopster101/usbaudiobridge/AudioService.kt:191-199 | Codes 1..5 have distinct texts. |
| BridgeSession.BridgeText | app/src/main/java/com/flopster101/usbaudiobridge/AudioService.kt:554-561 | The direction text is empty exactly for masks outside 1..3. |
| BridgeSession.ActiveText | app/src/main/java/com/flopster101/usbaudiobridge/AudioService.kt:633-652 | While running, the notification reads "Active (<status>…"; otherwise it is the plain status. |
| BridgeSession.UiState | app/src/main/java/com/flopster101/usbaudiobridge/AudioService.kt:350-379 | The broadcast carries the running flag. |
| BridgeSession.ErrorLabelIff | app/src/main/java/com/flopster101/usbaudiobridge/AudioService.kt:352-355 | The label is an error label iff the state is ERROR, and it is then "Error (<message>)". |
| BridgeSession.LabelTable | app/src/main/java/com/flopster101/usbaudiobridge/AudioService.kt:356-378 | "Stopped" iff not running without error. "Streaming" iff running and streaming. "Active (Not Connected)" iff connecting or waiting with USB unplugged. Directions are broadcast only while running without error. |
| BridgeSession.UsbMattersOnlyWhileConnecting | app/src/main/java/com/flopster101/usbaudiobridge/AudioService.kt:362-376 | The USB plug state changes the label only while running and connecting or waiting. |
| BridgeSession.NativeStateStep | app/src/main/java/com/flopster101/usbaudiobridge/AudioService.kt:189-204 | The state becomes the code, nothing else in the session changes, and the notification and label follow. |
| BridgeSession.NativeStatsStep | app/src/main/java/com/flopster101/usbaudiobridge/AudioService.kt:174-186 | The stats are broadcast first. The state becomes STREAMING. The state callback runs exactly when it was not already STREAMING. |
| BridgeSession.NativeErrorStep | app/src/main/java/com/flopster101/usbaudiobridge/AudioService.kt:142-158 | An error stops the native bridge and leaves the session not running, in state ERROR, with the message. |
| BridgeSession.StopAudioStep | app/src/main/java/com/flopster101/usbaudiobridge/AudioService.kt:444-456 | Not running and no error: nothing changes. Otherwise the native bridge is stopped, and the session is not running, STOPPED and without a message. |
| BridgeSession.StopStep | app/src/main/java/com/flopster101/usbaudiobridge/AudioService.kt:504-537 | Stopping always ends in the gadget teardown (disable, result false, stop self); only a running bridge is stopped first. |
| BridgeSession.StartStep | app/src/main/java/com/flopster101/usbaudiobridge/AudioService.kt:464-502 | A running session is unchanged. Otherwise all six parameters are saved first. A negative card changes nothing else. A found card starts native, running, CONNECTING, with no error message. |
| BridgeSession.OutputDisconnectStep | app/src/main/java/com/flopster101/usbaudiobridge/AudioService.kt:213-245 | A disconnect while not running changes nothing. |
| BridgeSession.DisconnectWithoutRestartStops | app/src/main/java/com/flopster101/usbaudiobridge/AudioService.kt:213-245 | Without auto-restart, a disconnect is exactly the stop of the audio. |
| BridgeSession.DisconnectRestartsWithSavedParams | app/src/main/java/com/flopster101/usbaudiobridge/AudioService.kt:213-245 | With auto-restart and a saved buffer, the bridge restarts with exactly the saved parameters. |
| BridgeSession.DisconnectWithoutSavedBufferStaysStopped | app/src/main/java/com/flopster101/usbaudiobridge/AudioService.kt:226-240 | With auto-restart but no saved buffer, the bridge stays stopped. |
| BridgeSession.ToggleParams | app/src/main/java/com/flopster101/usbaudiobridge/AudioService.kt:539-552 | Non-positive buffer, rate and directions are replaced by positive values; positive values, the engine and the mic source are kept; the period is never negative. |
| BridgeSession.ToggleParamsSettled | app/src/main/java/com/flopster101/usbaudiobridge/AudioService.kt:539-552 | The substitutions are idempotent; from the defaults they give (1024, 0, 0, 48000, 1, 6). |
| BridgeSession.ToggleStep | app/src/main/java/com/flopster101/usbaudiobridge/AudioService.kt:539-552 | Toggling a running session stops it; otherwise it starts with the substituted saved parameters. |
| BridgeSession.SetGadgetStep | app/src/main/java/com/flopster101/usbaudiobridge/AudioService.kt:387-390 | Only the gadget flag changes, and the notification reads "Inactive - Gadget disabled" when it is off. |
| BridgeSession.AudioService.constructor | app/src/main/java/com/flopster101/usbaudiobridge/AudioService.kt:249-263 | A new service starts from the initial session: not running, STOPPED, no error message, default saved parameters, nothing emitted. |
| BridgeSession.ErrorSticky | app/src/main/java/com/flopster101/usbaudiobridge/AudioService.kt:142-158 | From a stopped session in ERROR, errors, full stops, gadget changes, power events, output disconnects, and starts or toggles without a card all keep it stopped in ERROR, with an error label for either USB state. |
| BridgeSession.StopAudioClearsError | app/src/main/java/com/flopster101/usbaudiobridge/AudioService.kt:444-456 | An explicit stop clears a sticky error to "Stopped". |
| BridgeSession.InitialConsistent | app/src/main/java/com/flopster101/usbaudiobridge/AudioService.kt:249-263 | A new service has not started the native bridge and is not running. |
| BridgeSession.ApplyConsistent | app/src/main/java/com/flopster101/usbaudiobridge/AudioService.kt:142-552 | Every event preserves the invariant that the running flag is true exactly when the last native call was a start. |
| BridgeSession.RunConsistent | app/src/main/java/com/flopster101/usbaudiobridge/AudioService.kt:142-552 | Any sequence of events preserves that invariant. |
| BridgeSession.AudioService.UpdateUiState | app/src/main/java/com/flopster101/usbaudiobridge/AudioService.kt:350-379 | The service state becomes the UI step of the old state. |
| BridgeSession.AudioService.OnNativeState | app/src/main/java/com/flopster101/usbaudiobridge/AudioService.kt:189-204 | The service state becomes the native-state step of the old state. |
| BridgeSession.AudioService.OnNativeStats | app/src/main/java/com/flopster101/usbaudiobridge/AudioService.kt:174-186 | The service state becomes the stats step of the old state. |
| BridgeSession.AudioService.OnNativeError | app/src/main/java/com/flopster101/usbaudiobridge/AudioService.kt:142-158 | The service state becomes the error step of the old state. |
| BridgeSession.AudioService.StopAudioOnly | app/src/main/java/com/flopster101/usbaudiobridge/AudioService.kt:444-456 | The service state becomes the stop-audio step of the old state. |
| BridgeSession.AudioService.StopBridge | app/src/main/java/com/flopster101/usbaudiobridge/AudioService.kt:504-537 | The service state becomes the stop step of the old state. |
| BridgeSession.AudioService.StartBridge | app/src/main/java/com/flopster101/usbaudiobridge/AudioService.kt:464-502 | The service state becomes the start step with the given parameters and card. |
| BridgeSession.AudioService.HandleOutputDisconnect | app/src/main/java/com/flopster101/usbaudiobridge/AudioService.kt:213-245 | The service state becomes the disconnect step of the old state. |
| BridgeSession.AudioService.ToggleCapture | app/src/main/java/com/flopster101/usbaudiobridge/AudioService.kt:539-552 | The service state becomes the toggle step of the old state. |
| BridgeSession.AudioService.SetGadgetEnabled | app/src/main/java/com/flopster101/usbaudiobridge/AudioService.kt:387-390 | The service state becomes the gadget step of the old state. |
| ActivityState.LogLine | app/src/main/java/com/flopster101/usbaudiobridge/MainActivity.kt:524-525 | A log line is the time and the message plus four characters of framing ("[", "] ", newline), and ends in a newline. |
| ActivityState.AppendedLog | app/src/main/java/com/flopster101/usbaudiobridge/MainActivity.kt:523-537 | Up to 100000 characters the line is appended. Beyond that, the text is cut just after the first newline at or past length − 80000; the result is a suffix shorter than 80000 that ends in a newline. |
| ActivityState.NewestLineKept | app/src/main/java/com/flopster101/usbaudiobridge/MainActivity.kt:523-537 | A line shorter than 80000 characters always survives the trimming, at the end of the log. |
| ActivityState.StateReceived | app/src/main/java/com/flopster101/usbaudiobridge/MainActivity.kt:177-202 | Pending capture is cleared. A missing label falls back to "Active" or "Stopped". Not running resets rate, period and buffer to "--". The log and gadget fields are untouched. |
| ActivityState.StatsShown | app/src/main/java/com/flopster101/usbaudiobridge/MainActivity.kt:204-218 | The texts parse back to the reported rate, period and buffer; nothing else changes. |
| ActivityState.GadgetResultReceived | app/src/main/java/com/flopster101/usbaudiobridge/MainActivity.kt:220-227 | The gadget flag becomes the result and pending is cleared; nothing else changes. |
| ActivityState.GadgetStatusReceived | app/src/main/java/com/flopster101/usbaudiobridge/MainActivity.kt:229-239 | The UDC and function texts are shown, "--" when missing; nothing else changes. |
| ActivityState.GadgetToggled | app/src/main/java/com/flopster101/usbaudiobridge/MainActivity.kt:357-368 | "On" sets only pending. "Off" clears the gadget flag and sets pending at once. |
| ActivityState.GadgetOffStops | app/src/main/java/com/flopster101/usbaudiobridge/MainActivity.kt:362-366 | Turning the gadget off ends with stopping the bridge and never asks to enable the gadget. |
| ActivityState.SpeakerMuteToggled | app/src/main/java/com/flopster101/usbaudiobridge/MainActivity.kt:467-470 | The speaker toggle flips only the speaker mute. |
| ActivityState.MicMuteToggled | app/src/main/java/com/flopster101/usbaudiobridge/MainActivity.kt:471-474 | The mic toggle flips only the mic mute. |
| ActivityState.MuteTogglesInvolutive | app/src/main/java/com/flopster101/usbaudiobridge/MainActivity.kt:467-474 | Each mute toggle is its own inverse, and the two commute. |
| ActivityState.FlipDirectionBits | app/src/main/java/com/flopster101/usbaudiobridge/MainActivity.kt:1146-1168 | A chip flips exactly its own bit of the mask and leaves every other bit unchanged. |
| ActivityState.FlipDirectionInvolutive | app/src/main/java/com/flopster101/usbaudiobridge/MainActivity.kt:1146-1168 | Clicking a chip twice restores the mask. |
| ActivityState.ChipsOnMasks | app/src/main/java/com/flopster101/usbaudiobridge/MainActivity.kt:1146-1168 | On the masks 0 to 3 the speaker chip toggles bit 0 and the mic chip bit 1. |
| ActivityState.MainActivity.AppendLog | app/src/main/java/com/flopster101/usbaudiobridge/MainActivity.kt:523-537 | The log becomes the appended log; nothing else changes. |
| ActivityState.MainActivity.OnStateReceived | app/src/main/java/com/flopster101/usbaudiobridge/MainActivity.kt:177-202 | The UI state becomes the state reducer's result. |
| ActivityState.MainActivity.OnStatsReceived | app/src/main/java/com/flopster101/usbaudiobridge/MainActivity.kt:204-218 | The UI state becomes the stats reducer's result. |
| ActivityState.MainActivity.OnGadgetResult | app/src/main/java/com/flopster101/usbaudiobridge/MainActivity.kt:220-227 | The UI state becomes the result reducer's, and a bound service is told the gadget state. |
| ActivityState.MainActivity.OnGadgetStatus | app/src/main/java/com/flopster101/usbaudiobridge/MainActivity.kt:229-239 | The UI state becomes the status reducer's result. |
| ActivityState.MainActivity.ToggleGadget | app/src/main/java/com/flopster101/usbaudiobridge/MainActivity.kt:357-368 | The UI state becomes the toggle reducer's, and a bound service gets the enable, or the disable and the stop. |
| ActivityState.MainActivity.ToggleSpeakerMute | app/src/main/java/com/flopster101/usbaudiobridge/MainActivity.kt:467-470 | The UI state becomes the speaker toggle's result. |
| ActivityState.MainActivity.ToggleMicMute | app/src/main/java/com/flopster101/usbaudiobridge/MainActivity.kt:471-474 | The UI state becomes the mic toggle's result. |
| ActivityState.MainActivity.ClickDirectionChip | app/src/main/java/com/flopster101/usbaudiobridge/MainActivity.kt:1146-1168 | The mask flips the chip's bit in the UI and is saved as the active directions, with no other key changed. |
| PlaybackDevice.ClassifyType | app/src/main/java/com/flopster101/usbaudiobridge/PlaybackDeviceHelper.kt:33-37 | Exactly the five recognised types are classified, and never as UNKNOWN. |
| PlaybackDevice.ScanOutputs | app/src/main/java/com/flopster101/usbaudiobridge/PlaybackDeviceHelper.kt:30-39 | UNKNOWN iff no device has a recognised type; otherwise the class of some recognised device with no recognised device before it. |
| PlaybackDevice.CurrentPlaybackDevice | app/src/main/java/com/flopster101/usbaudiobridge/PlaybackDeviceHelper.kt:12-40 | A Bluetooth flag wins. Otherwise the wired-headset flag, then the speakerphone flag. Only then does the device scan decide. |
| PlaybackDevice.UnknownIff | app/src/main/java/com/flopster101/usbaudiobridge/PlaybackDeviceHelper.kt:16-39 | UNKNOWN iff no flag is set and no listed device has a recognised type. |
| PlaybackDevice.ScanIsFirstMatch | app/src/main/java/com/flopster101/usbaudiobridge/PlaybackDeviceHelper.kt:32-38 | The scan answers with the class of the first recognised device. |
| PlaybackDevice.ScanStopsAtFirstMatch | app/src/main/java/com/flopster101/usbaudiobridge/PlaybackDeviceHelper.kt:32-38 | Devices after the first recognised one never change the answer. |

## Left out

- Process I/O: every `su`, `getprop`, `setprop`, `cat`, `chmod`, `ln` and probe is an answer of the shell oracle. Exceptions from `Runtime.exec` are modelled only for command batches, where the source turns them into a result.
- Delays: `Thread.sleep`, `delay` and the poll timings carry no behaviour here. The attempt counts (8 + 4 soft polls, 10 hard polls, 5 bind attempts, 20 open rounds) are modelled.
- Concurrency:
  - the `gadgetMutex` wrappers `enableGadget`/`disableGadget` (UsbGadgetManager.kt:255-264, 509-513) are not modelled;
  - the service's `serviceScope.launch` blocks run synchronously at the call;
  - the ring buffer's atomics and memory ordering are left out, as it is modelled single-threaded;
  - the capture, mic and bridge threads of `bridge.cpp` become separate methods fed with abstract inputs.
- Logging: log messages are not modelled, except the stderr filter of `runRootCommands`, which decides what reaches the log.
- `isRootGranted`, `isGadgetActive` and `checkStatus` (UsbGadgetManager.kt:39-46, 746-757): single shell probes whose result the core does not branch on.
- `findAndPrepareCard` (UsbGadgetManager.kt:704-740) is the `cardId` parameter of `StartBridge`. `checkUsbConnected` (AudioService.kt:343-348) is the `usbPlugged` parameter.
- Oracle answers are trimmed already, as every caller trims them.
- `playbackLoop` (bridge.cpp:168-227): the mic path is a loop over an engine that cannot be seen; only whether its thread is started is modelled.
- The native JNI signature: `startAudioBridge` is declared with 8 arguments (AudioService.kt:129), while native-lib.cpp:530 takes 3 and bridge.cpp's `bridgeTask` 7 (no mic source). The model keeps them separate: `StartBridge` records an abstract `NativeStart` with all six parameters, and `NativeBridge.BridgeTask` takes the seven of `bridgeTask`.
- native-lib.cpp is not part of this model. It holds an older copy of the bridge and the ring buffer.
- The audio engines (`aaudio_engine`, `opensl_engine`, `java_audio_track_engine`) and the AudioTrack JNI callbacks (AudioService.kt:68-127) are outside code. They appear only as the engine's open result and reported burst.
- Notifications, the foreground service, the wake lock and the notification-enabled setting: notifications are recorded as `Notify` effects with their text; whether one is shown is not modelled.
- The capture permission flow in MainActivity.kt (`isCapturePending` set before asking for the microphone) is not modelled beyond the reducer clearing it.
- `setSpeakerMuted`/`setMicMuted` (called at MainActivity.kt:469,473) are not defined in the service shown, so the mute toggles change only the UI state.
- The `MainUiState` declared again in MainUiState.kt is not reconciled: the model uses the declaration in MainActivity.kt, as the activity's reducers do. Fields the core never writes only carry their defaults.
- `broadcastGadgetStatus` polling and the Compose UI (HomeScreen, SettingsScreen, UIComponents, AppNavigation, ScreensaverOverlay, AboutScreen) are not modelled.
- Settings.SettingsRepository.GetBufferSizeSetting: the buffer size is a Kotlin `Float`, modelled as a `real`, so float rounding is not modelled.
- Ring.RingBuffer: `head_` and `tail_` are `std::atomic<size_t>` in the source and wrap at 2^64. The model keeps them as unbounded counters. It therefore does not capture the slot shift that a wrap causes when `size_` is not a power of two, nor the modular subtraction `head_ - tail_` after a wrap. At the bridge's data rate a wrap takes far longer than any session.
- String lengths: the model counts Unicode scalar values, while Kotlin's `length` and `indexOf` count UTF-16 code units. They differ for characters outside the Basic Multilingual Plane, so a log holding such characters is trimmed by `appendLog` (MainActivity.kt:527-535) at other positions than in the app. Whitespace follows Kotlin's `Char.isWhitespace` as of current Unicode; its dependence on the platform's Unicode version is not modelled.
- NativeBridge.OpenCapture: the cleared `isRunning` is returned as `clearsRunning`. The threads share no state in the model, so the bridge thread's consume loop does not see this flag; it runs for as many iterations as its tick sequence holds.
- NativeBridge.PrerollWait: the bytes the capture thread adds meanwhile are an input, one `Poll` per check, and the wait stops when the given checks run out. The ring never holds more than its size, and the lemmas about it take that as `HoldsAtMost`. A wait that never ends is shown as one that sleeps at every running check.
- NativeBridge.CaptureRate: a negative request is modelled as C's unsigned conversion; the PCM layer's reaction to such a rate is not modelled.

## Findings

| source | as written | input that shows it | evidently intended | confidence | as-written member | corrected member |
|---|---|---|---|---|---|---|
| app/src/main/java/com/flopster101/usbaudiobridge/UsbGadgetManager.kt:807-852 | `runRootCommands` returns false only when an exception is thrown; a non-zero exit status is only logged | any probe batch such as `test -d .../functions/ffs.adb` whose target is missing exits with status 1 and is reported as success, so `isFfsAdbFunctionAvailable` and every `test -f` in `applySeLinuxPolicy` always answer true | success iff the batch exits with status 0 | not executed | RootShell.RunRootCommandsAsWritten, RootShell.FailedProbeReportedAsSuccess | RootShell.BatchSucceeded, RootShell.CorrectedNarrowsAsWritten |
| app/src/main/java/com/flopster101/usbaudiobridge/UsbGadgetManager.kt:627-635 | the `magisk --path` directory is collected from the log callback, which sees only "[Shell Err] " stderr lines and "[Gadget] Command failed: " messages, never stdout | `magisk --path 2>/dev/null` exiting 0 with stdout "/debug_ramdisk" yields an empty directory, so the tmpfs magiskpolicy is never found | the directory is the command's trimmed stdout | not executed | SePolicy.MagiskTmpDirAsWritten, SePolicy.TmpfsDirLost | SePolicy.TmpfsStep |
| app/src/main/cpp/core/bridge.cpp:306-312 | the pre-roll waits for 50 ms of audio whatever the ring size, and the ring holds only `max(480, bufferSize)` frames of 4 bytes | `toggleCapture`'s fallback buffer of 1024 frames at 48 kHz (AudioService.kt:544) gives a 4096-byte ring against a 9600-byte threshold, and any ring under 50 ms does the same, such as the 10 ms slider minimum at 48 kHz (a 480-frame ring against 2400 frames); the bridge thread sleeps until it is stopped and never reaches the consume loop | wait for 50 ms or a full ring, whichever is smaller | not executed | NativeBridge.UnreachableThresholdWaitsForStop, NativeBridge.PrerollHangsAsWritten | NativeBridge.PrerollTarget, NativeBridge.CorrectedPrerollEnds |
