/**
 * `applySeLinuxPolicy` (UsbGadgetManager.kt): the SELinux rules that open the
 * audio device to the app, tried through KernelSU's `ksud`, then Magisk's
 * `magiskpolicy` (a rules file, then one rule at a time), then the legacy
 * `supolicy`. Every command is a one-line batch on the shell; the order in
 * which the tools are tried and the clean-up of the temporary rules file are
 * what is proved.
 */
module SePolicy {
  import opened Text
  import opened Wrappers
  import opened RootShell

  const RULES: seq<Str> := [
    "typeattribute audio_device mlstrustedobject",
    "allow untrusted_app audio_device chr_file { read write open ioctl getattr map }",
    "allow untrusted_app audio_device dir { search getattr read open }",
    "allow untrusted_app cgroup dir { search getattr read open }"
  ]
  const TMP_POLICY: Str := "/data/local/tmp/uac2_policy.te"
  const KSUD: Str := "/data/adb/ksu/bin/ksud"
  const MAGISK_POLICY_PATHS: seq<Str> := [
    "/data/adb/magisk/magiskpolicy",
    "/data/adb/ap/bin/magiskpolicy",
    "/data/adb/magisk/supolicy",
    "/system/bin/magiskpolicy",
    "/sbin/magiskpolicy",
    "/sbin/supolicy"
  ]
  const MAGISK_PATH_QUERY: Str := "magisk --path 2>/dev/null"
  const WHICH_SUPOLICY: Str := "which supolicy >/dev/null 2>&1"
  const REMOVE_TMP: Str := "rm -f /data/local/tmp/uac2_policy.te"

  /** The command writing the rules, one per line, to the temporary file. */
  function WritePolicy(): Str {
    "echo '" + Join(RULES, "\n") + "' > " + TMP_POLICY
  }

  function KsudApply(): Str {
    KSUD + " sepolicy apply " + TMP_POLICY
  }

  function MagiskFileApply(bin: Str): Str {
    bin + " --live --apply " + TMP_POLICY
  }

  /** One rule applied live by `tool` ("supolicy" or a magiskpolicy path). */
  function RuleCommand(tool: Str, rule: Str): Str {
    tool + " --live '" + rule + "'"
  }

  /** Which tool applied the rules. */
  datatype PolicyTool = KernelSu | MagiskFile | MagiskInline | SuPolicy | NoTool

  datatype PolicyResult = PolicyResult(tool: PolicyTool, world: World)

  /** A binary found, or none, and the world after the search. */
  datatype Found = Found(bin: Option<Str>, world: World)

  /** The n-th batch succeeds. */
  predicate OkAt(env: Env, n: nat) {
    BatchSucceeded(env.batch(n))
  }

  /** The probe batches for `paths`, in order. */
  function ProbeBatches(paths: seq<Str>): (r: seq<Command>)
    ensures |r| == |paths| && forall k :: 0 <= k < |r| ==> r[k] == Batch([FileProbe(paths[k])])
  {
    if paths == [] then [] else [Batch([FileProbe(paths[0])])] + ProbeBatches(paths[1..])
  }

  /** The policy steps only run batches: no UDC read, no listing, and every
      entry added to the log is a batch. */
  predicate OnlyBatches(w: World, w': World) {
    w'.udcReads == w.udcReads && w'.listingsRead == w.listingsRead &&
    w.log <= w'.log && w'.batchesRun - w.batchesRun == |w'.log| - |w.log|
  }

  /** The last command run removed the temporary rules file. */
  predicate EndsWithRemove(w: World) {
    |w.log| > 0 && w.log[|w.log| - 1] == Batch([REMOVE_TMP])
  }

  lemma OnlyBatchesTrans(a: World, b: World, c: World)
    requires OnlyBatches(a, b) && OnlyBatches(b, c)
    ensures OnlyBatches(a, c)
  {
  }

  /** The KernelSU attempt: probe for `ksud`, write the rules file, apply it;
      on success the file is removed. */
  function KsuStep(env: Env, w: World): (r: Step)
    ensures r.ok <==> OkAt(env, w.batchesRun) && OkAt(env, w.batchesRun + 1) && OkAt(env, w.batchesRun + 2)
    ensures r.ok ==> r.world.log == w.log + [Batch([FileProbe(KSUD)]), Batch([WritePolicy()]),
                                             Batch([KsudApply()]), Batch([REMOVE_TMP])]
    ensures OnlyBatches(w, r.world)
  {
    var probe := Run(env, w, [FileProbe(KSUD)]);
    if !probe.ok then probe
    else
      var write := Run(env, probe.world, [WritePolicy()]);
      if !write.ok then write
      else
        var apply := Run(env, write.world, [KsudApply()]);
        if !apply.ok then apply
        else Step(true, AfterBatch(apply.world, [REMOVE_TMP]))
  }

  /** The `for (path in magiskPolicyPaths)` search: probes each path in turn
      and stops at the first that exists. */
  function FirstFileStep(env: Env, w: World, paths: seq<Str>): (r: Found)
    ensures OnlyBatches(w, r.world) && r.world.batchesRun <= w.batchesRun + |paths|
    decreases |paths|
  {
    if paths == [] then Found(None, w)
    else
      var w1 := AfterBatch(w, [FileProbe(paths[0])]);
      if OkAt(env, w.batchesRun) then Found(Some(paths[0]), w1)
      else FirstFileStep(env, w1, paths[1..])
  }

  /** `r` ran `k` probe batches after `w`, for the first `k` paths, and
      logged nothing else. */
  predicate LogsProbes(w: World, paths: seq<Str>, r: World) {
    w.batchesRun <= r.batchesRun <= w.batchesRun + |paths| &&
    r.log == w.log + ProbeBatches(paths[..r.batchesRun - w.batchesRun])
  }

  /** The search logs exactly the probes it ran: one `test -f` batch for each
      path up to the one found, in order. */
  lemma {:induction false} FirstFileProbes(env: Env, w: World, paths: seq<Str>)
    ensures LogsProbes(w, paths, FirstFileStep(env, w, paths).world)
    decreases |paths|
  {
    if paths == [] {
    } else if OkAt(env, w.batchesRun) {
      FoundHereProbes(env, w, paths);
    } else {
      var w1 := AfterBatch(w, [FileProbe(paths[0])]);
      FirstFileProbes(env, w1, paths[1..]);
      ProbesCons(w, paths, FirstFileStep(env, w1, paths[1..]).world);
    }
  }

  lemma FoundHereProbes(env: Env, w: World, paths: seq<Str>)
    requires paths != [] && OkAt(env, w.batchesRun)
    ensures LogsProbes(w, paths, FirstFileStep(env, w, paths).world)
  {
    assert paths[..1][1..] == [];
  }

  /** A probe of the first path followed by the probes of the rest is the
      probes of the whole list. */
  lemma ProbesCons(w: World, paths: seq<Str>, r: World)
    requires paths != []
    requires LogsProbes(AfterBatch(w, [FileProbe(paths[0])]), paths[1..], r)
    ensures LogsProbes(w, paths, r)
  {
    var m := r.batchesRun - w.batchesRun - 1;
    assert paths[..m + 1][1..] == paths[1..][..m];
    var b0 := Batch([FileProbe(paths[0])]);
    var rest := ProbeBatches(paths[1..][..m]);
    assert ProbeBatches(paths[..m + 1]) == [b0] + rest;
    assert (w.log + [b0]) + rest == w.log + ([b0] + rest);
  }

  /** The search finds a path iff one of its probes succeeds, and the path it
      finds is the first one whose probe succeeds. */
  lemma {:induction false} FirstFileMeaning(env: Env, w: World, paths: seq<Str>)
    ensures FirstFileStep(env, w, paths).bin.Some? <==>
      exists j :: w.batchesRun <= j < w.batchesRun + |paths| && OkAt(env, j)
    ensures FirstFileStep(env, w, paths).bin.Some? ==>
      var n := FirstFileStep(env, w, paths).world.batchesRun - w.batchesRun;
      1 <= n <= |paths| && FirstFileStep(env, w, paths).bin.value == paths[n - 1] &&
      OkAt(env, w.batchesRun + n - 1) && forall j :: w.batchesRun <= j < w.batchesRun + n - 1 ==> !OkAt(env, j)
    ensures FirstFileStep(env, w, paths).bin.None? ==>
      FirstFileStep(env, w, paths).world.batchesRun == w.batchesRun + |paths|
    decreases |paths|
  {
    if paths != [] && !OkAt(env, w.batchesRun) {
      var w1 := AfterBatch(w, [FileProbe(paths[0])]);
      FirstFileMeaning(env, w1, paths[1..]);
      var r := FirstFileStep(env, w1, paths[1..]);
      if r.bin.Some? {
        var n := r.world.batchesRun - w.batchesRun;
        assert paths[n - 1] == paths[1..][n - 2];
      }
    }
  }

  /** The tmpfs directory `magisk --path` reports, read from the batch's
      standard output (the intended reading; the output is already trimmed). */
  function MagiskTmpDir(o: BatchOutcome): Str {
    BatchStdout(o)
  }

  /** Every message a batch passes to its log callback starts with '[', so
      neither does their trimmed concatenation start with anything else. */
  lemma MessagesStartWithBracket(o: BatchOutcome)
    ensures var all := Trim(Join(BatchMessages(o), "")); all == [] || all[0] == '['
  {
    var messages := BatchMessages(o);
    if messages != [] {
      assert messages[0][0] == '[' by {
        if o.Exited? {
          var i :| 0 <= i < |o.stderr| && !IsBenign(o.stderr[i]) && messages[0] == SHELL_ERR_PREFIX + o.stderr[i];
        }
      }
      var all := Join(messages, "");
      assert all[..|messages[0]|] == messages[0];
      TrimKeepsBracket(all);
    }
  }

  /** Trimming a string that starts with '[' keeps that first character. */
  lemma TrimKeepsBracket(s: Str)
    requires |s| > 0 && s[0] == '['
    ensures Trim(s) == [] || Trim(s)[0] == '['
  {
    assert TrimStart(s) == s;
    var r := TrimEnd(s);
    assert r == [] || r[0] == s[..|r|][0];
  }

  /** The directory as the source computes it: the trimmed concatenation of
      the messages the batch passed to its log callback. Those are stderr lines
      and exception messages, never the standard output. */
  function MagiskTmpDirAsWritten(o: BatchOutcome): (dir: Str)
    ensures dir == [] || dir[0] == '['
  {
    MessagesStartWithBracket(o);
    Trim(Join(BatchMessages(o), ""))
  }

  /** The discrepancy: with `2>/dev/null` nothing reaches stderr, so however
      `magisk --path` answers on its standard output, the source sees an empty
      directory and never probes the tmpfs mount. */
  lemma TmpfsDirLost(stdout: Str)
    requires stdout != []
    ensures MagiskTmpDirAsWritten(Exited(0, stdout, [])) == []
    ensures MagiskTmpDir(Exited(0, stdout, [])) == stdout
  {
    assert ForwardedErrors([]) == [];
  }

  /** The fallback search in Magisk's tmpfs mount: ask `magisk --path`, then
      probe `<dir>/magiskpolicy` when the directory is not empty. */
  function TmpfsStep(env: Env, w: World): (r: Found)
    ensures OnlyBatches(w, r.world)
    ensures r.bin.Some? <==>
      (OkAt(env, w.batchesRun) && MagiskTmpDir(env.batch(w.batchesRun)) != [] && OkAt(env, w.batchesRun + 1))
    ensures r.bin.Some? ==>
      (r.bin.value == MagiskTmpDir(env.batch(w.batchesRun)) + "/magiskpolicy" &&
       r.world.log == w.log + [Batch([MAGISK_PATH_QUERY]), Batch([FileProbe(r.bin.value)])])
  {
    var query := Run(env, w, [MAGISK_PATH_QUERY]);
    var dir := MagiskTmpDir(env.batch(w.batchesRun));
    if !query.ok || dir == [] then Found(None, query.world)
    else
      var path := dir + "/magiskpolicy";
      var probe := Run(env, query.world, [FileProbe(path)]);
      Found(if probe.ok then Some(path) else None, probe.world)
  }

  /** The magiskpolicy binary: the first listed path that exists, otherwise
      the one in the tmpfs mount. */
  function MagiskBinaryStep(env: Env, w: World): (r: Found)
    ensures OnlyBatches(w, r.world)
  {
    var listed := FirstFileStep(env, w, MAGISK_POLICY_PATHS);
    if listed.bin.Some? then listed else TmpfsStep(env, listed.world)
  }

  /** Applies `rules` one at a time with `tool`: every rule is run, and the
      result is whether all of them succeeded. */
  function RulesStep(env: Env, w: World, tool: Str, rules: seq<Str>): (r: Step)
    ensures OnlyBatches(w, r.world) && r.world.batchesRun == w.batchesRun + |rules|
    ensures r.ok <==> forall j :: w.batchesRun <= j < w.batchesRun + |rules| ==> OkAt(env, j)
    decreases |rules|
  {
    if rules == [] then Step(true, w)
    else
      var first := Run(env, w, [RuleCommand(tool, rules[0])]);
      var rest := RulesStep(env, first.world, tool, rules[1..]);
      assert first.ok == OkAt(env, w.batchesRun);
      assert rest.ok <==> forall j :: w.batchesRun + 1 <= j < w.batchesRun + |rules| ==> OkAt(env, j);
      Step(first.ok && rest.ok, rest.world)
  }

  /** `magiskpolicy` found at `bin`: the rules file first, then the rules one
      at a time; on success the file is removed. */
  function MagiskStep(env: Env, w: World, bin: Str): (r: PolicyResult)
    ensures r.tool == MagiskFile || r.tool == MagiskInline || r.tool == NoTool
    ensures OnlyBatches(w, r.world)
    ensures r.tool != NoTool ==> EndsWithRemove(r.world)
    ensures r.tool == MagiskFile <==> OkAt(env, w.batchesRun) && OkAt(env, w.batchesRun + 1)
    ensures r.tool == MagiskInline <==>
      !(OkAt(env, w.batchesRun) && OkAt(env, w.batchesRun + 1)) && AllOk(env, InlineStart(env, w), |RULES|)
  {
    var write := Run(env, w, [WritePolicy()]);
    var file := if write.ok then Run(env, write.world, [MagiskFileApply(bin)]) else write;
    if write.ok && file.ok then PolicyResult(MagiskFile, AfterBatch(file.world, [REMOVE_TMP]))
    else
      var inline := MagiskInlineStep(env, file.world, bin);
      OnlyBatchesTrans(w, file.world, inline.world);
      inline
  }

  /** The batches `from` to `from + n - 1` all succeed. */
  predicate AllOk(env: Env, from: nat, n: nat) {
    forall j :: from <= j < from + n ==> OkAt(env, j)
  }

  /** Where the inline rules start after the rules file failed at `w`: after
      the failed write, or after the write and the failed `--apply`. */
  function InlineStart(env: Env, w: World): nat {
    if OkAt(env, w.batchesRun) then w.batchesRun + 2 else w.batchesRun + 1
  }

  /** The rules one at a time with `magiskpolicy`, after the rules file
      failed; on success the file is removed. */
  function MagiskInlineStep(env: Env, w: World, bin: Str): (r: PolicyResult)
    ensures r.tool == MagiskInline || r.tool == NoTool
    ensures r.tool == MagiskInline <==> AllOk(env, w.batchesRun, |RULES|)
    ensures OnlyBatches(w, r.world)
    ensures r.tool != NoTool ==> EndsWithRemove(r.world)
  {
    var inline := RulesStep(env, w, bin, RULES);
    if inline.ok then PolicyResult(MagiskInline, AfterBatch(inline.world, [REMOVE_TMP]))
    else PolicyResult(NoTool, inline.world)
  }

  /** The legacy `supolicy` attempt. */
  function SuPolicyStep(env: Env, w: World): (r: PolicyResult)
    ensures r.tool == SuPolicy || r.tool == NoTool
    ensures OnlyBatches(w, r.world)
    ensures r.tool == SuPolicy ==> EndsWithRemove(r.world)
    ensures r.tool == SuPolicy <==>
      (OkAt(env, w.batchesRun) && forall j :: w.batchesRun + 1 <= j < w.batchesRun + 1 + |RULES| ==> OkAt(env, j))
  {
    var which := Run(env, w, [WHICH_SUPOLICY]);
    if !which.ok then PolicyResult(NoTool, which.world)
    else
      var rules := RulesStep(env, which.world, "supolicy", RULES);
      if rules.ok then PolicyResult(SuPolicy, AfterBatch(rules.world, [REMOVE_TMP]))
      else PolicyResult(NoTool, rules.world)
  }

  /** What follows a failed Magisk attempt: SuperSU, then the clean-up. */
  function LegacyStep(env: Env, w: World): (r: PolicyResult)
    ensures r.tool == SuPolicy || r.tool == NoTool
    ensures OnlyBatches(w, r.world)
    ensures EndsWithRemove(r.world)
  {
    var su := SuPolicyStep(env, w);
    if su.tool != NoTool then su
    else
      var last := AfterBatch(su.world, [REMOVE_TMP]);
      OnlyBatchesTrans(w, su.world, last);
      PolicyResult(NoTool, last)
  }

  /** Magisk with the binary found at `bin`, then the legacy tool when it
      fails. */
  function MagiskThenLegacyStep(env: Env, w: World, bin: Str): (r: PolicyResult)
    ensures r.tool != KernelSu
    ensures OnlyBatches(w, r.world)
    ensures EndsWithRemove(r.world)
    ensures MagiskStep(env, w, bin).tool != NoTool ==> r == MagiskStep(env, w, bin)
    ensures r.tool == SuPolicy ==> MagiskStep(env, w, bin).tool == NoTool
  {
    var magisk := MagiskStep(env, w, bin);
    if magisk.tool != NoTool then magisk
    else
      var legacy := LegacyStep(env, magisk.world);
      OnlyBatchesTrans(w, magisk.world, legacy.world);
      legacy
  }

  /** What follows a failed KernelSU attempt: Magisk when its binary is found,
      then the legacy tool. */
  function AfterKernelSuStep(env: Env, w: World): (r: PolicyResult)
    ensures r.tool != KernelSu
    ensures OnlyBatches(w, r.world)
    ensures EndsWithRemove(r.world)
    ensures r.tool == MagiskFile || r.tool == MagiskInline ==> MagiskBinaryStep(env, w).bin.Some?
    ensures var f := MagiskBinaryStep(env, w);
      f.bin.Some? && MagiskStep(env, f.world, f.bin.value).tool != NoTool ==>
        r == MagiskStep(env, f.world, f.bin.value)
    ensures var f := MagiskBinaryStep(env, w);
      r.tool == SuPolicy ==> f.bin.None? || MagiskStep(env, f.world, f.bin.value).tool == NoTool
  {
    var found := MagiskBinaryStep(env, w);
    var rest := if found.bin.Some? then MagiskThenLegacyStep(env, found.world, found.bin.value)
                else LegacyStep(env, found.world);
    OnlyBatchesTrans(w, found.world, rest.world);
    rest
  }

  /** `applySeLinuxPolicy`: the first tool that applies the rules wins, in the
      order KernelSU, Magisk, SuperSU; whatever happens, the last command run
      removes the temporary rules file. */
  function PolicyStep(env: Env, w: World): (r: PolicyResult)
    ensures OnlyBatches(w, r.world)
    ensures EndsWithRemove(r.world)
    ensures r.tool == KernelSu <==> KsuStep(env, w).ok
    ensures r.tool == MagiskFile || r.tool == MagiskInline ==>
      !KsuStep(env, w).ok && MagiskBinaryStep(env, KsuStep(env, w).world).bin.Some?
    ensures var f := MagiskBinaryStep(env, KsuStep(env, w).world);
      !KsuStep(env, w).ok && f.bin.Some? && MagiskStep(env, f.world, f.bin.value).tool != NoTool ==>
        r == MagiskStep(env, f.world, f.bin.value)
    ensures var f := MagiskBinaryStep(env, KsuStep(env, w).world);
      r.tool == SuPolicy ==> !KsuStep(env, w).ok && (f.bin.None? || MagiskStep(env, f.world, f.bin.value).tool == NoTool)
  {
    var ksu := KsuStep(env, w);
    if ksu.ok then
      assert ksu.world.log[|ksu.world.log| - 1] == Batch([REMOVE_TMP]);
      PolicyResult(KernelSu, ksu.world)
    else
      var rest := AfterKernelSuStep(env, ksu.world);
      OnlyBatchesTrans(w, ksu.world, rest.world);
      rest
  }

  /** The KernelSU attempt. */
  method TryKernelSu(sh: Shell) returns (ok: bool)
    modifies sh
    ensures Step(ok, sh.world) == KsuStep(sh.env, old(sh.world))
  {
    ok := sh.RunRootCommands([FileProbe(KSUD)]);
    if !ok {
      return;
    }
    ok := sh.RunRootCommands([WritePolicy()]);
    if !ok {
      return;
    }
    ok := sh.RunRootCommands([KsudApply()]);
    if !ok {
      return;
    }
    var _ := sh.RunRootCommands([REMOVE_TMP]);
  }

  /** The search loop over the listed paths, with its `break`. */
  method FindFirstFile(sh: Shell, paths: seq<Str>) returns (bin: Option<Str>)
    modifies sh
    ensures Found(bin, sh.world) == FirstFileStep(sh.env, old(sh.world), paths)
  {
    bin := None;
    var i := 0;
    while i < |paths|
      invariant 0 <= i <= |paths|
      invariant FirstFileStep(sh.env, old(sh.world), paths) == FirstFileStep(sh.env, sh.world, paths[i..])
    {
      var exists_ := sh.RunRootCommands([FileProbe(paths[i])]);
      if exists_ {
        bin := Some(paths[i]);
        break;
      }
      assert paths[i..][1..] == paths[i + 1..];
      i := i + 1;
    }
  }

  /** The listed paths, then the tmpfs mount. */
  method FindMagiskPolicy(sh: Shell) returns (bin: Option<Str>)
    modifies sh
    ensures Found(bin, sh.world) == MagiskBinaryStep(sh.env, old(sh.world))
  {
    bin := FindFirstFile(sh, MAGISK_POLICY_PATHS);
    if bin.None? {
      var ok, output := sh.RunRootCommandsOutput([MAGISK_PATH_QUERY]);
      var dir := output;
      if ok && dir != [] {
        var path := dir + "/magiskpolicy";
        var exists_ := sh.RunRootCommands([FileProbe(path)]);
        if exists_ {
          bin := Some(path);
        }
      }
    }
  }

  /** The `for (rule in rules)` loop accumulating `allRulesApplied`. */
  method ApplyRules(sh: Shell, tool: Str) returns (all: bool)
    modifies sh
    ensures Step(all, sh.world) == RulesStep(sh.env, old(sh.world), tool, RULES)
  {
    all := true;
    for i := 0 to |RULES|
      invariant RulesStep(sh.env, old(sh.world), tool, RULES) ==
        var rest := RulesStep(sh.env, sh.world, tool, RULES[i..]);
        Step(all && rest.ok, rest.world)
    {
      var ok := sh.RunRootCommands([RuleCommand(tool, RULES[i])]);
      if !ok {
        all := false;
      }
      assert RULES[i..][1..] == RULES[i + 1..];
    }
  }

  /** The Magisk attempt with the binary at `bin`. */
  method TryMagisk(sh: Shell, bin: Str) returns (tool: PolicyTool)
    modifies sh
    ensures PolicyResult(tool, sh.world) == MagiskStep(sh.env, old(sh.world), bin)
  {
    var written := sh.RunRootCommands([WritePolicy()]);
    if written {
      var applied := sh.RunRootCommands([MagiskFileApply(bin)]);
      if applied {
        var _ := sh.RunRootCommands([REMOVE_TMP]);
        return MagiskFile;
      }
    }
    var all := ApplyRules(sh, bin);
    if all {
      var _ := sh.RunRootCommands([REMOVE_TMP]);
      return MagiskInline;
    }
    return NoTool;
  }

  /** The SuperSU attempt. */
  method TrySuPolicy(sh: Shell) returns (tool: PolicyTool)
    modifies sh
    ensures PolicyResult(tool, sh.world) == SuPolicyStep(sh.env, old(sh.world))
  {
    var present := sh.RunRootCommands([WHICH_SUPOLICY]);
    if !present {
      return NoTool;
    }
    var all := ApplyRules(sh, "supolicy");
    if all {
      var _ := sh.RunRootCommands([REMOVE_TMP]);
      return SuPolicy;
    }
    return NoTool;
  }

  /** `applySeLinuxPolicy`. */
  method ApplySeLinuxPolicy(sh: Shell) returns (tool: PolicyTool)
    modifies sh
    ensures PolicyResult(tool, sh.world) == PolicyStep(sh.env, old(sh.world))
  {
    var ksu := TryKernelSu(sh);
    if ksu {
      return KernelSu;
    }
    var bin := FindMagiskPolicy(sh);
    if bin.Some? {
      tool := TryMagisk(sh, bin.value);
      if tool != NoTool {
        return;
      }
    }
    tool := TrySuPolicy(sh);
    if tool != NoTool {
      return;
    }
    var _ := sh.RunRootCommands([REMOVE_TMP]);
    return NoTool;
  }
}
